/**
 What every interleaving of the recording controller keeps, whatever its clock reads,
 as one inductive invariant.

 `ControlInv` is about the actor's fields. `AttemptInv` is about one attempt as
 seen from the fields: whether it is the active one and in which phase, and
 whether its start is still unsettled. A step that leaves this view of another
 attempt alone keeps the other attempt's invariant.
 */
module RecordingControllerInvariant {
  import opened Prelude
  import opened RecordingStateMachine
  import opened RecordingController
  import Intake = RecordingSampleIntake

  ghost predicate Cleared(c: Fields) {
    && c.activeID.None? && c.activeURL.None? && c.writer.None? && c.intake.None?
    && c.captureStartedAt.None? && c.automaticStop.None?
  }

  /** All the attempt's fields name one attempt. */
  ghost predicate Holds(c: Fields, url: Url) {
    && c.activeID == Some(url.id) && c.writer == Some(url.id) && c.intake == Some(url.id)
    && c.activeURL == Some(url)
  }

  /** The actor's fields agree with the phase of the machine. */
  ghost predicate FieldsAgree(c: Fields) {
    match c.machine.status.phase
    case Idle => Cleared(c)
    case Failed => Cleared(c)
    case Starting =>
      c.activeID.Some? && Holds(c, Partial(c.activeID.value)) && c.captureStartedAt.None? && c.automaticStop.None?
    case Recording =>
      && c.activeID.Some? && Holds(c, Partial(c.activeID.value)) && c.captureStartedAt.Some?
      && c.captureStartedAt == c.machine.captureStartedAt && c.automaticStop == c.activeID
    case Stopping =>
      && c.activeID.Some? && Holds(c, Partial(c.activeID.value)) && c.captureStartedAt.Some?
      && c.captureStartedAt == c.machine.captureStartedAt && c.automaticStop.None?
    case Ready =>
      && c.machine.status.recording.Some? && Holds(c, Final(c.machine.status.recording.value.id))
      && c.captureStartedAt == c.machine.captureStartedAt && c.automaticStop.None?
  }

  /** A reading older than the last event was rejected: the fields are cleared and the phase was left behind. */
  ghost predicate Wedged(c: Fields) {
    Cleared(c) && c.machine.status.phase in {Starting, Recording, Stopping}
  }

  /** What the fields say about one attempt. */
  datatype View = View(role: Option<Phase>, unsettled: bool, stop: Option<(Option<int>, Option<int>)>)

  function ViewOf(c: Fields, id: Id): View {
    var active := c.activeID == Some(id);
    View(if active then Some(c.machine.status.phase) else None,
         c.unsettledStartID == Some(id),
         if active && c.machine.status.phase == Stopping
         then Some((c.captureStartedAt, c.machine.lastEventAt)) else None)
  }

  ghost predicate StartInv(v: View, a: Attempt) {
    && !a.startSlot.Unused?
    && (a.startSlot.Open? || a.startSlot.Won? <==> v.role == Some(Starting))
    && (a.startOp.NotIssued? || a.startOp.StartInFlight? || a.startOp.DiscardInFlight? <==> v.unsettled)
    && (a.startOp.DiscardInFlight? ==> v.role != Some(Starting))
    && (a.startSlot.Open? ==> !a.startOp.StartOver?)
    && (a.startSlot == Won(StartSucceeded) ==> a.startOp.StartOver?)
  }

  ghost predicate StopInv(v: View, a: Attempt) {
    && (a.stopSlot.Open? || a.stopSlot.Won? <==> v.role == Some(Stopping))
    && (a.stopOp.NoStop? <==> a.stopSlot.Unused?)
    && (v.role == Some(Starting) || v.role == Some(Recording) ==> a.stopOp.NoStop?)
    && (a.stopOp.NoStop? || a.stopOp.StopQueued? || a.stopOp.SourceStopping? || a.stopOp.Draining? ==> !a.drainPassed)
    && (a.stopOp.Finishing? ==> a.drainPassed)
    && (a.stopSlot.Open? ==> !a.stopOp.StopOver?)
    && (a.stopSlot == Won(StopSucceeded) ==> a.drainPassed)
    && (a.stopFromStart ==> a.failedBeforeDrain)
    && (v.role == Some(Ready) ==> a.drainPassed)
    && (v.role == Some(Stopping) ==> v.stop == Some((Some(a.startedAt), Some(a.stoppedAt))))
  }

  ghost predicate FailureInv(v: View, a: Attempt) {
    && Intake.Inv(a.intake)
    && (a.drainPassed ==> a.intake.worker == Intake.Returned && !a.failedBeforeDrain)
    && (a.failedBeforeDrain ==> a.intake.captureFailure.Some?)
    && (a.intake.captureFailure.Some? && !a.drainPassed ==> a.failedBeforeDrain)
    && (a.wakeups > 0 ==> a.intake.captureFailure.Some?)
  }

  ghost predicate AttemptInv(v: View, a: Attempt) {
    StartInv(v, a) && StopInv(v, a) && FailureInv(v, a)
  }

  ghost predicate ControlInv(s: Sys) {
    && WellFormed(s.ctl.machine)
    && (FieldsAgree(s.ctl) || Wedged(s.ctl))
    && (s.ctl.activeID.Some? ==> s.ctl.activeID.value in s.attempts)
    && (s.ctl.unsettledStartID.Some? ==> s.ctl.unsettledStartID.value in s.attempts)
  }

  ghost predicate Inv(s: Sys) {
    match s
    case Sys(ctl, attempts, _) =>
      && ControlInv(s)
      && forall id :: id in attempts ==> AttemptInv(ViewOf(ctl, id), attempts[id])
  }

  // ------------------------------------------------------------ one attempt at a time

  /** Between `c` and `d` nothing changed that another attempt than `id` could see. */
  ghost predicate SameElsewhere(c: Fields, d: Fields, id: Id) {
    && (|| (&& c.activeID == d.activeID && c.machine.status.phase == d.machine.status.phase
            && c.captureStartedAt == d.captureStartedAt && c.machine.lastEventAt == d.machine.lastEventAt)
        || ((c.activeID.None? || c.activeID.value == id) && (d.activeID.None? || d.activeID.value == id)))
    && (|| c.unsettledStartID == d.unsettledStartID
        || ((c.unsettledStartID.None? || c.unsettledStartID.value == id)
            && (d.unsettledStartID.None? || d.unsettledStartID.value == id)))
  }

  /** A step that touches one attempt keeps the invariant if it keeps the fields' and that attempt's. */
  lemma OneAttempt(s: Sys, t: Sys, id: Id, a: Attempt)
    requires Inv(s) && ControlInv(t) && AttemptInv(ViewOf(t.ctl, id), a)
    requires t.attempts == s.attempts[id := a] && SameElsewhere(s.ctl, t.ctl, id)
    ensures Inv(t)
  {
    forall j | j in t.attempts ensures AttemptInv(ViewOf(t.ctl, j), t.attempts[j]) {
      if j != id { assert ViewOf(t.ctl, j) == ViewOf(s.ctl, j); }
    }
  }

  // ------------------------------------------------------------------ the steps

  lemma CaptureStartReturnedKeepsInv(s: Sys, id: Id, ok: bool)
    requires Inv(s) && id in s.attempts && s.attempts[id].startOp == StartInFlight
    ensures Inv(CaptureStartReturned(s, id, ok))
  {
    var t := CaptureStartReturned(s, id, ok);
    assert AttemptInv(ViewOf(s.ctl, id), s.attempts[id]);
    OneAttempt(s, t, id, t.attempts[id]);
  }

  lemma StartIssuedKeepsInv(s: Sys, id: Id)
    requires Inv(s) && id in s.attempts && s.attempts[id].startOp == NotIssued
    ensures Inv(StartIssued(s, id))
  {
    assert AttemptInv(ViewOf(s.ctl, id), s.attempts[id]);
    OneAttempt(s, StartIssued(s, id), id, s.attempts[id].(startOp := StartInFlight));
  }

  lemma DiscardReturnedKeepsInv(s: Sys, id: Id)
    requires Inv(s) && id in s.attempts && s.attempts[id].startOp == DiscardInFlight
    ensures Inv(DiscardReturned(s, id))
  {
    assert AttemptInv(ViewOf(s.ctl, id), s.attempts[id]);
    OneAttempt(s, DiscardReturned(s, id), id, DiscardReturned(s, id).attempts[id]);
  }

  lemma AbortReturnedKeepsInv(s: Sys, id: Id)
    requires Inv(s) && id in s.attempts && s.attempts[id].startOp == AbortInFlight
    ensures Inv(AbortReturned(s, id))
  {
    assert AttemptInv(ViewOf(s.ctl, id), s.attempts[id]);
    OneAttempt(s, AbortReturned(s, id), id, AbortReturned(s, id).attempts[id]);
  }

  lemma StartRaceLostKeepsInv(s: Sys, id: Id, r: StartResult)
    requires Inv(s) && id in s.attempts && r != StartSucceeded
    ensures Inv(StartRaceLost(s, id, r))
  {
    assert AttemptInv(ViewOf(s.ctl, id), s.attempts[id]);
    OneAttempt(s, StartRaceLost(s, id, r), id, StartRaceLost(s, id, r).attempts[id]);
  }

  /** No attempt changed and none was or is active. */
  lemma NoAttempt(s: Sys, t: Sys)
    requires Inv(s) && ControlInv(t) && t.attempts == s.attempts
    requires s.ctl.activeID.None? && t.ctl.activeID.None? && s.ctl.unsettledStartID == t.ctl.unsettledStartID
    ensures Inv(t)
  {
    forall j | j in t.attempts ensures AttemptInv(ViewOf(t.ctl, j), t.attempts[j]) {
      assert ViewOf(t.ctl, j) == ViewOf(s.ctl, j);
    }
  }

  lemma FreshStartKeepsInv(s: Sys, t: Sys, at: int, id: Id, duration: int, later: int)
    requires Inv(s) && id !in s.attempts
    requires t == StartCall(s, at, later, id, duration, true, true) && id in t.attempts
    ensures Inv(t)
  {
    OneAttempt(s, t, id, FRESH_ATTEMPT);
  }

  lemma UnavailableStartKeepsInv(s: Sys, at: int, id: Id, duration: int, later: int)
    requires Inv(s)
    ensures Inv(StartCall(s, at, later, id, duration, false, false))
  {
    var t := StartCall(s, at, later, id, duration, false, false);
    if t.ctl == s.ctl { ClockKeepsInv(s, later); } else { NoAttempt(s, t); }
  }

  lemma StartCallKeepsInv(s: Sys, at: int, later: int, id: Id, duration: int, storeOk: bool, available: bool)
    requires Inv(s) && id !in s.attempts
    ensures Inv(StartCall(s, at, later, id, duration, storeOk, available))
  {
    var t := StartCall(s, at, later, id, duration, storeOk, available);
    if id in t.attempts {
      FreshStartKeepsInv(s, t, at, id, duration, later);
    } else {
      UnavailableStartKeepsInv(s, at, id, duration, later);
    }
  }

  lemma ClockKeepsInv(s: Sys, later: int)
    requires Inv(s)
    ensures Inv(s.(clock := later))
  {
    forall j | j in s.attempts ensures AttemptInv(ViewOf(s.ctl, j), s.attempts[j]) {}
  }

  lemma FailedStartKeepsInv(s: Sys, id: Id, at: int, code: string)
    requires Inv(s) && id in s.attempts && s.attempts[id].startSlot.Won?
    ensures var s1 := Update(s, id, s.attempts[id].(startSlot := Delivered));
            Inv(StartCatch(s1, code, at))
  {
    var a := s.attempts[id];
    assert AttemptInv(ViewOf(s.ctl, id), a);
    var s1 := Update(s, id, a.(startSlot := Delivered));
    var t := StartCatch(s1, code, at);
    OneAttempt(s, t, id, a.(startSlot := Delivered, intake := Intake.StopAccepting(a.intake)));
  }

  /** Publication rejected: the catch block clears the fields, in time or too late to fail the machine. */
  lemma RejectedKeepsInv(s: Sys, id: Id, at: int, later: int)
    requires Inv(s) && id in s.attempts
    requires s.attempts[id].startSlot == Won(StartSucceeded) && !IsCurrent(s.ctl.machine, at)
    ensures Inv(StartResumed(s, id, at, later))
  {
    var a := s.attempts[id];
    assert AttemptInv(ViewOf(s.ctl, id), a);
    OneAttempt(s, StartResumed(s, id, at, later), id,
               a.(startSlot := Delivered, intake := Intake.StopAccepting(a.intake)));
  }

  /** Publication with no failure seen: at rest in phase recording. */
  lemma PublishedKeepsInv(s: Sys, id: Id, at: int, later: int)
    requires Inv(s) && id in s.attempts && IsCurrent(s.ctl.machine, at)
    requires s.attempts[id].startSlot == Won(StartSucceeded) && s.attempts[id].intake.captureFailure.None?
    ensures Inv(StartResumed(s, id, at, later))
  {
    var a := s.attempts[id];
    assert AttemptInv(ViewOf(s.ctl, id), a);
    OneAttempt(s, StartResumed(s, id, at, later), id, a.(startSlot := Delivered, timers := a.timers + 1));
  }

  /** Publication that sees a failure: straight on into `stop`, which a clock gone back rejects. */
  lemma PublishedFailureKeepsInv(s: Sys, id: Id, at: int, later: int)
    requires Inv(s) && id in s.attempts && IsCurrent(s.ctl.machine, at) && at <= later
    requires s.attempts[id].startSlot == Won(StartSucceeded) && s.attempts[id].intake.captureFailure.Some?
    ensures Inv(StartResumed(s, id, at, later))
  {
    var a := s.attempts[id];
    assert AttemptInv(ViewOf(s.ctl, id), a);
    OneAttempt(s, StartResumed(s, id, at, later), id,
               a.(startSlot := Delivered, stopOp := StopQueued, stopSlot := Open, stopFromStart := true,
                  startedAt := at, stoppedAt := later));
  }

  lemma UnstoppedFailureKeepsInv(s: Sys, id: Id, at: int, later: int)
    requires Inv(s) && id in s.attempts && IsCurrent(s.ctl.machine, at) && later < at
    requires s.attempts[id].startSlot == Won(StartSucceeded) && s.attempts[id].intake.captureFailure.Some?
    ensures Inv(StartResumed(s, id, at, later))
  {
    var a := s.attempts[id];
    assert AttemptInv(ViewOf(s.ctl, id), a);
    var t := StartResumed(s, id, at, later);
    assert Wedged(t.ctl) && WellFormed(t.ctl.machine);
    OneAttempt(s, t, id, a.(startSlot := Delivered, intake := Intake.StopAccepting(a.intake)));
  }

  lemma StartResumedKeepsInv(s: Sys, id: Id, at: int, later: int)
    requires Inv(s) && id in s.attempts && s.attempts[id].startSlot.Won?
    ensures Inv(StartResumed(s, id, at, later))
  {
    var result := s.attempts[id].startSlot.result;
    if result != StartSucceeded { FailedStartKeepsInv(s, id, at, StartErrorCode(result)); }
    else if !IsCurrent(s.ctl.machine, at) { RejectedKeepsInv(s, id, at, later); }
    else if s.attempts[id].intake.captureFailure.None? { PublishedKeepsInv(s, id, at, later); }
    else if at <= later { PublishedFailureKeepsInv(s, id, at, later); }
    else { UnstoppedFailureKeepsInv(s, id, at, later); }
  }

  /** The stop of the active attempt begins. */
  lemma StopBegun(s: Sys, at: int, later: int, id: Id)
    requires Inv(s) && s.ctl.activeID == Some(id) && s.ctl.machine.status.phase == Recording
    requires IsCurrent(s.ctl.machine, at)
    ensures Inv(StopCall(s, at, later))
  {
    var a := s.attempts[id];
    assert AttemptInv(ViewOf(s.ctl, id), a);
    OneAttempt(s, StopCall(s, at, later), id,
               a.(stopOp := StopQueued, stopSlot := Open, stopFromStart := false,
                  startedAt := s.ctl.captureStartedAt.value, stoppedAt := at));
  }

  /** A stop with no attempt to stop: the machine fails, or the catch block is too late for it as well. */
  lemma WedgedStopKeepsInv(s: Sys, at: int, later: int)
    requires Inv(s) && s.ctl.activeID.None? && s.ctl.machine.status.phase == Recording && IsCurrent(s.ctl.machine, at)
    ensures Inv(StopCall(s, at, later))
  {
    NoAttempt(s, StopCall(s, at, later));
  }

  lemma StopCallKeepsInv(s: Sys, at: int, later: int)
    requires Inv(s)
    ensures Inv(StopCall(s, at, later))
  {
    if s.ctl.machine.status.phase == Recording && IsCurrent(s.ctl.machine, at) {
      if s.ctl.activeID.Some? { StopBegun(s, at, later, s.ctl.activeID.value); }
      else { WedgedStopKeepsInv(s, at, later); }
    }
  }

  lemma StopIssuedKeepsInv(s: Sys, id: Id)
    requires Inv(s) && id in s.attempts && s.attempts[id].stopOp == StopQueued
    ensures Inv(StopIssued(s, id))
  {
    assert AttemptInv(ViewOf(s.ctl, id), s.attempts[id]);
    OneAttempt(s, StopIssued(s, id), id, s.attempts[id].(stopOp := SourceStopping));
  }

  lemma SourceStopReturnedKeepsInv(s: Sys, id: Id, ok: bool, cancelled: bool)
    requires Inv(s) && id in s.attempts && s.attempts[id].stopOp == SourceStopping
    requires cancelled ==> !s.attempts[id].stopSlot.Open?
    ensures Inv(SourceStopReturned(s, id, ok, cancelled))
  {
    assert AttemptInv(ViewOf(s.ctl, id), s.attempts[id]);
    var t := SourceStopReturned(s, id, ok, cancelled);
    OneAttempt(s, t, id, t.attempts[id]);
  }

  lemma FinishReturnedKeepsInv(s: Sys, id: Id, ok: bool)
    requires Inv(s) && id in s.attempts && s.attempts[id].stopOp == Finishing
    ensures Inv(FinishReturned(s, id, ok))
  {
    assert AttemptInv(ViewOf(s.ctl, id), s.attempts[id]);
    OneAttempt(s, FinishReturned(s, id, ok), id, FinishReturned(s, id, ok).attempts[id]);
  }

  lemma DrainReturnedKeepsInv(s: Sys, id: Id, cancelled: bool)
    requires Inv(s) && id in s.attempts && s.attempts[id].stopOp == Draining
    requires cancelled ==> !s.attempts[id].stopSlot.Open?
    ensures Inv(DrainReturned(s, id, cancelled))
  {
    var t := DrainReturned(s, id, cancelled);
    assert AttemptInv(ViewOf(s.ctl, id), s.attempts[id]);
    OneAttempt(s, t, id, t.attempts[id]);
  }

  lemma StopRaceLostKeepsInv(s: Sys, id: Id, r: StopResult)
    requires Inv(s) && id in s.attempts && r != StopSucceeded
    ensures Inv(StopRaceLost(s, id, r))
  {
    assert AttemptInv(ViewOf(s.ctl, id), s.attempts[id]);
    OneAttempt(s, StopRaceLost(s, id, r), id, StopRaceLost(s, id, r).attempts[id]);
  }

  lemma FailedStopKeepsInv(s: Sys, id: Id, at: int, code: string)
    requires Inv(s) && id in s.attempts && s.attempts[id].stopSlot.Won?
    ensures var s1 := Update(s, id, s.attempts[id].(stopSlot := Delivered));
            Inv(StopFailedEnding(s1, id, code, at))
  {
    var a := s.attempts[id];
    assert AttemptInv(ViewOf(s.ctl, id), a);
    var s1 := Update(s, id, a.(stopSlot := Delivered));
    OneAttempt(s, StopFailedEnding(s1, id, code, at), id,
               a.(stopSlot := Delivered, intake := Intake.StopAccepting(a.intake)));
  }

  lemma StopResumedKeepsInv(s: Sys, id: Id, at: int, stored: bool, byteCount: int, sha256: string)
    requires Inv(s) && id in s.attempts && s.attempts[id].stopSlot.Won?
    ensures Inv(StopResumed(s, id, at, stored, byteCount, sha256))
  {
    var a := s.attempts[id];
    assert AttemptInv(ViewOf(s.ctl, id), a);
    if a.stopSlot.result != StopSucceeded || !stored || !(1 <= byteCount <= MAXIMUM_MP4_BYTES) {
      FailedStopKeepsInv(s, id, at, StopErrorCode(a.stopSlot.result));
    } else {
      assert !a.stopFromStart;
      OneAttempt(s, StopResumed(s, id, at, stored, byteCount, sha256), id, a.(stopSlot := Delivered));
    }
  }

  lemma CleanupKeepsInv(s: Sys, removed: set<Id>)
    requires Inv(s)
    ensures Inv(Cleanup(s, removed))
  {
    var t := Cleanup(s, removed);
    if t != s { BackToIdle(s, t); }
  }

  lemma BackToIdle(s: Sys, t: Sys)
    requires Inv(s) && s.ctl.machine.status.phase == Ready
    requires t == ClearActive(WithMachine(s, INITIAL))
    ensures Inv(t)
  {
    var id := s.ctl.activeID.value;
    var a := s.attempts[id];
    assert AttemptInv(ViewOf(s.ctl, id), a);
    OneAttempt(s, t, id, a.(intake := Intake.StopAccepting(a.intake)));
  }

  lemma DeleteKeepsInv(s: Sys, id: Id, removed: set<Id>, found: bool)
    requires Inv(s)
    ensures Inv(Delete(s, id, removed, found))
  {
    CleanupKeepsInv(s, removed);
    var s1 := Cleanup(s, removed);
    var t := Delete(s, id, removed, found);
    if t != s1 { BackToIdle(s1, t); }
  }

  lemma CaptureFailedKeepsInv(s: Sys, id: Id, error: Intake.CaptureError)
    requires Inv(s) && id in s.attempts
    ensures Inv(CaptureFailed(s, id, error))
  {
    assert AttemptInv(ViewOf(s.ctl, id), s.attempts[id]);
    Intake.StepKeepsInv(s.attempts[id].intake, Intake.Failed(error));
    OneAttempt(s, CaptureFailed(s, id, error), id, CaptureFailed(s, id, error).attempts[id]);
  }

  lemma SampleCapturedKeepsInv(s: Sys, id: Id, sample: Intake.Sample)
    requires Inv(s) && id in s.attempts
    ensures Inv(SampleCaptured(s, id, sample))
  {
    assert AttemptInv(ViewOf(s.ctl, id), s.attempts[id]);
    Intake.StepKeepsInv(s.attempts[id].intake, Intake.Enqueued(sample));
    OneAttempt(s, SampleCaptured(s, id, sample), id, SampleCaptured(s, id, sample).attempts[id]);
  }

  lemma WorkerRanKeepsInv(s: Sys, id: Id, ok: bool)
    requires Inv(s) && id in s.attempts
    ensures Inv(WorkerRan(s, id, ok))
  {
    assert AttemptInv(ViewOf(s.ctl, id), s.attempts[id]);
    Intake.StepKeepsInv(s.attempts[id].intake, Intake.WorkerRan(ok));
    OneAttempt(s, WorkerRan(s, id, ok), id, WorkerRan(s, id, ok).attempts[id]);
  }

  /** A failure callback's or timer's stopIfCurrent, whichever counter it decrements. */
  lemma CallbackKeepsInv(s: Sys, id: Id, a: Attempt, at: int, later: int)
    requires Inv(s) && id in s.attempts && a.wakeups <= s.attempts[id].wakeups
    requires a == s.attempts[id].(wakeups := a.wakeups, timers := a.timers)
    ensures Inv(StopIfCurrent(Update(s, id, a), id, at, later))
  {
    assert AttemptInv(ViewOf(s.ctl, id), s.attempts[id]);
    OneAttempt(s, Update(s, id, a), id, a);
    StopCallKeepsInv(Update(s, id, a), at, later);
  }

  lemma WakeupRanKeepsInv(s: Sys, id: Id, at: int, later: int)
    requires Inv(s) && id in s.attempts && s.attempts[id].wakeups > 0
    ensures Inv(WakeupRan(s, id, at, later))
  {
    CallbackKeepsInv(s, id, s.attempts[id].(wakeups := s.attempts[id].wakeups - 1), at, later);
  }

  lemma TimerFiredKeepsInv(s: Sys, id: Id, at: int, later: int)
    requires Inv(s) && id in s.attempts && s.attempts[id].timers > 0
    ensures Inv(TimerFired(s, id, at, later))
  {
    CallbackKeepsInv(s, id, s.attempts[id].(timers := s.attempts[id].timers - 1), at, later);
  }

  lemma StartOperationTurnKeepsInv(s: Sys, e: Turn)
    requires Inv(s) && Enabled(s, e)
    requires e.IssueStart? || e.StartReturns? || e.DiscardReturns? || e.AbortReturns? || e.StartDeadline?
    ensures Inv(Step(s, e))
  {
    match e {
      case IssueStart(id) => StartIssuedKeepsInv(s, id);
      case StartReturns(id, ok) => CaptureStartReturnedKeepsInv(s, id, ok);
      case DiscardReturns(id) => DiscardReturnedKeepsInv(s, id);
      case AbortReturns(id) => AbortReturnedKeepsInv(s, id);
      case StartDeadline(id, r) => StartRaceLostKeepsInv(s, id, r);
    }
  }

  lemma StopOperationTurnKeepsInv(s: Sys, e: Turn)
    requires Inv(s) && Enabled(s, e)
    requires e.IssueStop? || e.StopReturns? || e.DrainReturns? || e.FinishReturns? || e.StopDeadlinePasses?
    ensures Inv(Step(s, e))
  {
    match e {
      case IssueStop(id) => StopIssuedKeepsInv(s, id);
      case StopReturns(id, ok, cancelled) => SourceStopReturnedKeepsInv(s, id, ok, cancelled);
      case DrainReturns(id, cancelled) => DrainReturnedKeepsInv(s, id, cancelled);
      case FinishReturns(id, ok) => FinishReturnedKeepsInv(s, id, ok);
      case StopDeadlinePasses(id, r) => StopRaceLostKeepsInv(s, id, r);
    }
  }

  lemma CaptureTurnKeepsInv(s: Sys, e: Turn)
    requires Inv(s) && Enabled(s, e) && (e.CaptureFails? || e.CaptureSample? || e.WorkerRuns?)
    ensures Inv(Step(s, e))
  {
    match e {
      case CaptureFails(id, error) => CaptureFailedKeepsInv(s, id, error);
      case CaptureSample(id, sample) => SampleCapturedKeepsInv(s, id, sample);
      case WorkerRuns(id, ok) => WorkerRanKeepsInv(s, id, ok);
    }
  }

  lemma StoreTurnKeepsInv(s: Sys, e: Turn)
    requires Inv(s) && Enabled(s, e) && (e.CallCleanup? || e.CallDelete?)
    ensures Inv(Step(s, e))
  {
    match e {
      case CallCleanup(removed) => CleanupKeepsInv(s, removed);
      case CallDelete(id, removed, found) => DeleteKeepsInv(s, id, removed, found);
    }
  }

  lemma StarterTurnKeepsInv(s: Sys, e: Turn)
    requires Inv(s) && Enabled(s, e) && (e.CallStart? || e.ResumeStart?)
    ensures Inv(Step(s, e))
  {
    match e {
      case CallStart(at, later, id, duration, storeOk, available) =>
        StartCallKeepsInv(s, at, later, id, duration, storeOk, available);
      case ResumeStart(at, later, id) => StartResumedKeepsInv(s, id, at, later);
    }
  }

  lemma StopperTurnKeepsInv(s: Sys, e: Turn)
    requires Inv(s) && Enabled(s, e)
    requires e.CallStop? || e.Wakeup? || e.Timer? || e.ResumeStop?
    ensures Inv(Step(s, e))
  {
    match e {
      case CallStop(at, later) => StopCallKeepsInv(s, at, later);
      case Wakeup(at, later, id) => WakeupRanKeepsInv(s, id, at, later);
      case Timer(at, later, id) => TimerFiredKeepsInv(s, id, at, later);
      case ResumeStop(at, later, id, stored, byteCount, sha256) =>
        StopResumedKeepsInv(s, id, later, stored, byteCount, sha256);
    }
  }

  /** Every kind of turn keeps the invariant, whatever its clock readings are. */
  lemma StepKeepsInv(s: Sys, e: Turn)
    requires Inv(s) && Enabled(s, e)
    ensures Inv(Do(s, e))
  {
    if e.CallStart? || e.ResumeStart? { StarterTurnKeepsInv(s, e); }
    else if e.CallStop? || e.Wakeup? || e.Timer? || e.ResumeStop? { StopperTurnKeepsInv(s, e); }
    else if e.CallCleanup? || e.CallDelete? { StoreTurnKeepsInv(s, e); }
    else if e.CaptureFails? || e.CaptureSample? || e.WorkerRuns? { CaptureTurnKeepsInv(s, e); }
    else if e.IssueStop? || e.StopReturns? || e.DrainReturns? || e.FinishReturns? || e.StopDeadlinePasses? {
      StopOperationTurnKeepsInv(s, e);
    }
    else { StartOperationTurnKeepsInv(s, e); }
    if Clocked(e) { ClockKeepsInv(Step(s, e), e.later); }
  }

  /** The invariant holds in every state of every run. */
  lemma {:induction false} RunKeepsInv(s: Sys, es: seq<Turn>)
    requires Inv(s) && Legal(s, es)
    ensures Inv(After(s, es))
    decreases |es|
  {
    if es != [] {
      StepKeepsInv(s, es[0]);
      RunKeepsInv(Do(s, es[0]), es[1..]);
    }
  }

  lemma InitialInv(clock: int)
    ensures Inv(Initial(clock))
  {
  }

  /** No source.start of another attempt, and no stop of a late one, is outstanding. */
  ghost predicate NoOtherStart(s: Sys, id: Id) {
    forall j :: j in s.attempts && j != id ==>
      s.attempts[j].startOp != StartInFlight && s.attempts[j].startOp != DiscardInFlight
  }

  lemma OnlyOneStart(s: Sys, id: Id)
    requires Inv(s) && id in s.attempts && s.attempts[id].startOp == NotIssued
    ensures NoOtherStart(s, id)
  {
    assert AttemptInv(ViewOf(s.ctl, id), s.attempts[id]);
    forall j | j in s.attempts && j != id
      ensures s.attempts[j].startOp != StartInFlight && s.attempts[j].startOp != DiscardInFlight
    {
      assert AttemptInv(ViewOf(s.ctl, j), s.attempts[j]);
    }
  }

  /** In phase ready the writer of the recording holds every sample its intake accepted. */
  ghost predicate ReadyIsComplete(s: Sys) {
    s.ctl.machine.status.phase == Ready ==>
      && s.ctl.machine.status.recording.Some?
      && var id := s.ctl.machine.status.recording.value.id;
         && s.ctl.activeID == Some(id) && s.ctl.activeURL == Some(Final(id)) && id in s.attempts
         && s.attempts[id].intake.appended == s.attempts[id].intake.accepted
         && !s.attempts[id].failedBeforeDrain
  }

  lemma ReadyWasDrained(s: Sys)
    requires Inv(s)
    ensures ReadyIsComplete(s)
  {
    if s.ctl.machine.status.phase == Ready {
      var id := s.ctl.machine.status.recording.value.id;
      assert AttemptInv(ViewOf(s.ctl, id), s.attempts[id]);
    }
  }
}
