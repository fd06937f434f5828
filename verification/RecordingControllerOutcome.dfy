/**
 What a recording ends as, told from the list of turns: what the metadata of a ready
 recording says, which turns it has behind it, which failure code names which deadline,
 and that a recording nothing interferes with does become ready with all its samples.
 */
module RecordingControllerOutcome {
  import opened Prelude
  import opened RecordingStateMachine
  import opened RecordingController
  import opened RecordingControllerInvariant
  import opened RecordingControllerSafety
  import Intake = RecordingSampleIntake

  lemma LastTurn(clock: int, es: seq<Turn>, e: Turn)
    requires Execution(clock, es + [e])
    ensures Execution(clock, es) && Enabled(State(clock, es), e) && Inv(State(clock, es))
    ensures State(clock, es + [e]) == Do(State(clock, es), e)
  {
    Concatenated(Initial(clock), es, [e]);
    assert After(State(clock, es), [e]) == Do(State(clock, es), e) by { assert [e][1..] == []; }
    StateInv(clock, es);
  }

  // -------------------------------------------------------------- what stop answers

  /** What the metadata of a recording says, by the instants of the machine and what the store read back. */
  ghost predicate Describes(m: Machine, id: Id, byteCount: int, sha256: string) {
    && m.status.phase == Ready && m.status.recording.Some? && m.captureStartedAt.Some? && m.stopRequestedAt.Some?
    && var r := m.status.recording.value;
       && r.id == id && r.byteCount == byteCount && 1 <= byteCount <= 524_288_000 && r.sha256 == sha256
       && r.createdAt == m.stopRequestedAt.value
       && r.durationMilliseconds == m.stopRequestedAt.value - m.captureStartedAt.value >= 0
       && m.status.elapsedMilliseconds == r.durationMilliseconds
  }

  lemma StopDescribes(s: Sys, id: Id, at: int, stored: bool, byteCount: int, sha256: string)
    requires Inv(s) && id in s.attempts && s.attempts[id].stopSlot.Won?
    ensures var t := StopResumed(s, id, at, stored, byteCount, sha256);
            && (t.ctl.machine.status.phase == Ready <==>
                  s.attempts[id].stopSlot == Won(StopSucceeded) && stored && 1 <= byteCount <= 524_288_000)
            && (t.ctl.machine.status.phase == Ready ==>
                  && Describes(t.ctl.machine, id, byteCount, sha256)
                  && t.ctl.machine.captureStartedAt == s.ctl.machine.captureStartedAt
                  && t.ctl.machine.stopRequestedAt == s.ctl.machine.stopRequestedAt
                  && t.ctl.activeID == Some(id) && t.ctl.activeURL == Some(Final(id)))
  {
    assert AttemptInv(ViewOf(s.ctl, id), s.attempts[id]);
    assert s.ctl.machine.status.phase == Stopping;
  }

  /** The last step of a stop makes the recording ready exactly when its race was won and its file is in bounds, and
      describes it. */
  lemma StopAnswersTheMetadata(clock: int, es: seq<Turn>, at: int, later: int, id: Id, stored: bool, byteCount: int,
                               sha256: string)
    requires Execution(clock, es + [ResumeStop(at, later, id, stored, byteCount, sha256)])
    ensures Execution(clock, es) && id in State(clock, es).attempts
    ensures var s, t := State(clock, es), State(clock, es + [ResumeStop(at, later, id, stored, byteCount, sha256)]);
            && (t.ctl.machine.status.phase == Ready <==>
                  s.attempts[id].stopSlot == Won(StopSucceeded) && stored && 1 <= byteCount <= 524_288_000)
            && (t.ctl.machine.status.phase == Ready ==>
                  && Describes(t.ctl.machine, id, byteCount, sha256)
                  && t.ctl.machine.captureStartedAt == s.ctl.machine.captureStartedAt
                  && t.ctl.machine.stopRequestedAt == s.ctl.machine.stopRequestedAt
                  && t.ctl.activeID == Some(id) && t.ctl.activeURL == Some(Final(id)))
  {
    LastTurn(clock, es, ResumeStop(at, later, id, stored, byteCount, sha256));
    StopDescribes(State(clock, es), id, later, stored, byteCount, sha256);
  }

  // ---------------------------------------------------------------- failure codes

  lemma FailedStartCode(s: Sys, id: Id, at: int, later: int)
    requires Inv(s) && id in s.attempts && s.attempts[id].startSlot.Won? && IsCurrent(s.ctl.machine, at)
    requires s.attempts[id].startSlot.result != StartSucceeded
    ensures var t := StartResumed(s, id, at, later);
            && t.ctl.machine.status.phase == Failed && Cleared(t.ctl)
            && t.ctl.machine.status.failureCode
               == Some(if s.attempts[id].startSlot.result == PermissionDeadline
                       then "recording_permission_timeout" else "recording_not_available")
  {
    assert AttemptInv(ViewOf(s.ctl, id), s.attempts[id]);
  }

  lemma FailedStopCode(s: Sys, id: Id, at: int, stored: bool, byteCount: int, sha256: string)
    requires Inv(s) && id in s.attempts && s.attempts[id].stopSlot.Won? && IsCurrent(s.ctl.machine, at)
    requires s.attempts[id].stopSlot.result != StopSucceeded || !stored || !(1 <= byteCount <= 524_288_000)
    ensures var t := StopResumed(s, id, at, stored, byteCount, sha256);
            && t.ctl.machine.status.phase == Failed && Cleared(t.ctl)
            && t.ctl.machine.status.failureCode
               == Some(if s.attempts[id].stopSlot.result == StopDeadline then "request_timeout"
                   else "recording_not_available")
  {
    assert AttemptInv(ViewOf(s.ctl, id), s.attempts[id]);
  }

  /** The code of a failure names the deadline that passed, and no deadline when none did. */
  lemma FailureCodes(clock: int, es: seq<Turn>, e: Turn)
    requires Execution(clock, es + [e]) && Execution(clock, es) && Enabled(State(clock, es), e)
    ensures e.ResumeStart? && State(clock, es).attempts[e.id].startSlot.result != StartSucceeded
            && IsCurrent(State(clock, es).ctl.machine, e.at) ==>
              && State(clock, es + [e]).ctl.machine.status.phase == Failed
              && State(clock, es + [e]).ctl.machine.status.failureCode
                 == Some(if State(clock, es).attempts[e.id].startSlot.result == PermissionDeadline
                         then "recording_permission_timeout" else "recording_not_available")
    ensures e.ResumeStop? && IsCurrent(State(clock, es).ctl.machine, e.later)
            && (State(clock, es).attempts[e.id].stopSlot.result != StopSucceeded
                || !e.stored || !(1 <= e.byteCount <= 524_288_000)) ==>
              && State(clock, es + [e]).ctl.machine.status.phase == Failed
              && State(clock, es + [e]).ctl.machine.status.failureCode
                 == Some(if State(clock, es).attempts[e.id].stopSlot.result == StopDeadline
                         then "request_timeout" else "recording_not_available")
  {
    LastTurn(clock, es, e);
    var s := State(clock, es);
    if e.ResumeStart? && s.attempts[e.id].startSlot.result != StartSucceeded && IsCurrent(s.ctl.machine, e.at) {
      FailedStartCode(s, e.id, e.at, e.later);
    }
    if e.ResumeStop? && IsCurrent(s.ctl.machine, e.later)
       && (s.attempts[e.id].stopSlot.result != StopSucceeded || !e.stored || !(1 <= e.byteCount <= 524_288_000)) {
      FailedStopCode(s, e.id, e.later, e.stored, e.byteCount, e.sha256);
    }
  }

  // -------------------------------------------------------------------- deletion

  /** The machine is new, the fields are cleared, and the attempt takes no more samples. */
  ghost predicate IdleAfter(t: Sys, id: Id) {
    t.ctl.machine == INITIAL && Cleared(t.ctl) && id in t.attempts && !t.attempts[id].intake.accepting
  }

  ghost predicate IsReady(s: Sys, id: Id) {
    && s.ctl.machine.status.phase == Ready
    && s.ctl.machine.status.recording.Some? && s.ctl.machine.status.recording.value.id == id
  }

  /** Deleting brings the controller back to idle when the ready recording was removed or is the one found. */
  lemma DeletedIsIdle(clock: int, es: seq<Turn>, id: Id, removed: set<Id>, found: bool)
    requires Execution(clock, es) && Execution(clock, es + [CallDelete(id, removed, found)])
    ensures var s, t := State(clock, es), State(clock, es + [CallDelete(id, removed, found)]);
            && (forall ready :: IsReady(s, ready) && (ready in removed || (found && ready == id)) ==> IdleAfter(t, ready))
            && ((forall ready :: IsReady(s, ready) ==> ready !in removed && !(found && ready == id)) ==> t == s)
  {
    LastTurn(clock, es, CallDelete(id, removed, found));
    var s := State(clock, es);
    if ready :| IsReady(s, ready) { assert AttemptInv(ViewOf(s.ctl, ready), s.attempts[ready]); }
  }

  /** A cleanup does so when it removed the ready recording, and else changes nothing. */
  lemma CleanedIsIdle(clock: int, es: seq<Turn>, removed: set<Id>)
    requires Execution(clock, es) && Execution(clock, es + [CallCleanup(removed)])
    ensures var s, t := State(clock, es), State(clock, es + [CallCleanup(removed)]);
            && (forall ready :: IsReady(s, ready) && ready in removed ==> IdleAfter(t, ready))
            && ((forall ready :: IsReady(s, ready) ==> ready !in removed) ==> t == s)
  {
    LastTurn(clock, es, CallCleanup(removed));
    var s := State(clock, es);
    if ready :| IsReady(s, ready) { assert AttemptInv(ViewOf(s.ctl, ready), s.attempts[ready]); }
  }

  // -------------------------------------------------------- the course of a recording

  /** The turn that published the start of this capture read this instant. */
  ghost predicate PublishedAt(es: seq<Turn>, id: Id, at: int) {
    exists e :: e in es && Publishes(e, id, at)
  }

  predicate Publishes(e: Turn, id: Id, at: int) { e.ResumeStart? && e.id == id && e.at == at }

  /** A caller, a timer or the callback of a failure asked for the stop at this instant. */
  ghost predicate AskedAt(es: seq<Turn>, id: Id, at: int) {
    exists e :: e in es && Asks(e, id, at)
  }

  predicate Asks(e: Turn, id: Id, at: int) {
    (e.CallStop? && e.at == at) || ((e.Wakeup? || e.Timer?) && e.id == id && e.at == at)
  }

  /** The store moved the file and read it back with this length and digest. */
  ghost predicate StoredAs(es: seq<Turn>, id: Id, byteCount: int, sha256: string) {
    exists e :: e in es && Stores(e, id, byteCount, sha256)
  }

  predicate Stores(e: Turn, id: Id, byteCount: int, sha256: string) {
    e.ResumeStop? && e.id == id && e.stored && e.byteCount == byteCount && e.sha256 == sha256
  }

  ghost predicate Stopped(es: seq<Turn>, id: Id) {
    StopReturns(id, true, false) in es && DrainReturns(id, false) in es && FinishReturns(id, true) in es
  }

  predicate Runs(c: Fields, id: Id) {
    c.activeID == Some(id) && (c.machine.status.phase == Recording || c.machine.status.phase == Stopping
        || c.machine.status.phase == Ready)
  }

  /** What must have happened for an attempt to be where its operations are. */
  ghost predicate OperationsHappened(es: seq<Turn>, id: Id, a: Attempt) {
    && (a.startSlot == Won(StartSucceeded) ==> StartReturns(id, true) in es)
    && (a.startSlot == Won(PermissionDeadline) ==> StartDeadline(id, PermissionDeadline) in es)
    && (a.stopOp.Draining? || a.stopOp.Finishing? ==> StopReturns(id, true, false) in es)
    && (a.stopOp.Finishing? ==> DrainReturns(id, false) in es)
    && (a.stopSlot == Won(StopSucceeded) ==> Stopped(es, id))
    && (a.stopSlot == Won(StopDeadline) ==> StopDeadlinePasses(id, StopDeadline) in es)
  }

  /** What must have happened for the fields to show an attempt in its phase; only the current one accepts samples. */
  ghost predicate PhaseHappened(es: seq<Turn>, c: Fields, id: Id, a: Attempt) {
    && (a.intake.accepting ==> c.activeID == Some(id))
    && (Runs(c, id) ==>
          && StartReturns(id, true) in es
          && c.machine.captureStartedAt.Some? && PublishedAt(es, id, c.machine.captureStartedAt.value))
    && (Runs(c, id) && c.machine.status.phase != Recording && !a.stopFromStart ==>
          c.machine.stopRequestedAt.Some? && AskedAt(es, id, c.machine.stopRequestedAt.value))
    && (Runs(c, id) && c.machine.status.phase == Ready ==>
          && Stopped(es, id) && !a.stopFromStart && c.machine.status.recording.Some?
          && StoredAs(es, id, c.machine.status.recording.value.byteCount, c.machine.status.recording.value.sha256)
          && Describes(c.machine, id, c.machine.status.recording.value.byteCount, c.machine.status.recording.value.sha256))
  }

  ghost predicate Happened(es: seq<Turn>, s: Sys) {
    forall id :: id in s.attempts ==>
      OperationsHappened(es, id, s.attempts[id]) && PhaseHappened(es, s.ctl, id, s.attempts[id])
  }

  /** What another attempt can see of the fields did not change, but that it may no longer be the current one. */
  ghost predicate Elsewhere(c: Fields, d: Fields, id: Id) {
    d.activeID.None? || d.activeID.value == id || (d.activeID == c.activeID && d.machine == c.machine)
  }

  lemma OneHappened(es: seq<Turn>, e: Turn, s: Sys, t: Sys, id: Id, a: Attempt)
    requires Happened(es, s) && t.attempts == s.attempts[id := a] && Elsewhere(s.ctl, t.ctl, id)
    requires forall j :: j in s.attempts && j != id && s.attempts[j].intake.accepting ==> t.ctl.activeID == s.ctl.activeID
    requires OperationsHappened(es + [e], id, a) && PhaseHappened(es + [e], t.ctl, id, a)
    ensures Happened(es + [e], t)
  {
    forall j | j in t.attempts
      ensures OperationsHappened(es + [e], j, t.attempts[j]) && PhaseHappened(es + [e], t.ctl, j, t.attempts[j])
    {
      if j != id {
        OperationsLater(es, e, j, s.attempts[j]);
        PhaseLater(es, e, s.ctl, t.ctl, j, s.attempts[j]);
      }
    }
  }

  lemma OperationsLater(es: seq<Turn>, e: Turn, id: Id, a: Attempt)
    requires OperationsHappened(es, id, a)
    ensures OperationsHappened(es + [e], id, a)
  {
  }

  lemma InLater(es: seq<Turn>, e: Turn, id: Id, at: int)
    ensures PublishedAt(es, id, at) ==> PublishedAt(es + [e], id, at)
    ensures AskedAt(es, id, at) ==> AskedAt(es + [e], id, at)
    ensures Publishes(e, id, at) ==> PublishedAt(es + [e], id, at)
    ensures Asks(e, id, at) ==> AskedAt(es + [e], id, at)
  {
    assert e in es + [e];
    if PublishedAt(es, id, at) { var f :| f in es && Publishes(f, id, at); assert f in es + [e]; }
    if AskedAt(es, id, at) { var f :| f in es && Asks(f, id, at); assert f in es + [e]; }
  }

  lemma StoredLater(es: seq<Turn>, e: Turn, id: Id, byteCount: int, sha256: string)
    ensures StoredAs(es, id, byteCount, sha256) ==> StoredAs(es + [e], id, byteCount, sha256)
    ensures Stores(e, id, byteCount, sha256) ==> StoredAs(es + [e], id, byteCount, sha256)
  {
    assert e in es + [e];
    if StoredAs(es, id, byteCount, sha256) {
      var f :| f in es && Stores(f, id, byteCount, sha256);
      assert f in es + [e];
    }
  }

  /** An attempt whose fields did not change, or that is no longer current. */
  lemma PhaseLater(es: seq<Turn>, e: Turn, c: Fields, d: Fields, id: Id, a: Attempt)
    requires PhaseHappened(es, c, id, a)
    requires d.activeID != Some(id) || (d.activeID == c.activeID && d.machine == c.machine)
    requires a.intake.accepting ==> d.activeID == c.activeID
    ensures PhaseHappened(es + [e], d, id, a)
  {
    if Runs(d, id) {
      InLater(es, e, id, c.machine.captureStartedAt.value);
      if c.machine.stopRequestedAt.Some? { InLater(es, e, id, c.machine.stopRequestedAt.value); }
      if c.machine.status.recording.Some? {
        StoredLater(es, e, id, c.machine.status.recording.value.byteCount, c.machine.status.recording.value.sha256);
      }
    }
  }

  /** A turn of one attempt that leaves the current attempt and the machine alone. */
  lemma TurnOf(es: seq<Turn>, e: Turn, s: Sys, t: Sys, id: Id, a: Attempt)
    requires Happened(es, s) && id in s.attempts && t.attempts == s.attempts[id := a]
    requires t.ctl.activeID == s.ctl.activeID && t.ctl.machine == s.ctl.machine
    requires OperationsHappened(es, id, s.attempts[id]) ==> OperationsHappened(es + [e], id, a)
    requires (a.intake.accepting ==> s.attempts[id].intake.accepting) && a.stopFromStart == s.attempts[id].stopFromStart
    ensures Happened(es + [e], t)
  {
    assert OperationsHappened(es, id, s.attempts[id]) && PhaseHappened(es, s.ctl, id, s.attempts[id]);
    PhaseLater(es, e, s.ctl, t.ctl, id, s.attempts[id]);
    OneHappened(es, e, s, t, id, a);
  }

  lemma StartReturnHappens(es: seq<Turn>, s: Sys, e: Turn)
    requires Happened(es, s) && Enabled(s, e) && e.StartReturns?
    ensures Happened(es + [e], CaptureStartReturned(s, e.id, e.ok))
  {
    var a, t := s.attempts[e.id], CaptureStartReturned(s, e.id, e.ok);
    OperationsLaterIf(es, e, e.id, a);
    var b := a.(startOp := t.attempts[e.id].startOp, startSlot := t.attempts[e.id].startSlot);
    assert t.attempts == s.attempts[e.id := b];
    TurnOf(es, e, s, t, e.id, b);
  }

  lemma StartOperationHappens(es: seq<Turn>, s: Sys, e: Turn)
    requires Happened(es, s) && Enabled(s, e)
    requires e.IssueStart? || e.DiscardReturns? || e.AbortReturns? || e.StartDeadline?
    ensures Happened(es + [e], Step(s, e))
  {
    OperationsLaterIf(es, e, e.id, s.attempts[e.id]);
    match e {
      case IssueStart(id) => TurnOf(es, e, s, StartIssued(s, id), id, StartIssued(s, id).attempts[id]);
      case DiscardReturns(id) => TurnOf(es, e, s, DiscardReturned(s, id), id, DiscardReturned(s, id).attempts[id]);
      case AbortReturns(id) => TurnOf(es, e, s, AbortReturned(s, id), id, AbortReturned(s, id).attempts[id]);
      case StartDeadline(id, r) => TurnOf(es, e, s, StartRaceLost(s, id, r), id, StartRaceLost(s, id, r).attempts[id]);
    }
  }

  lemma SourceStopHappens(es: seq<Turn>, s: Sys, e: Turn)
    requires Happened(es, s) && Enabled(s, e) && e.StopReturns?
    ensures Happened(es + [e], SourceStopReturned(s, e.id, e.ok, e.cancelled))
  {
    var t := SourceStopReturned(s, e.id, e.ok, e.cancelled);
    OperationsLaterIf(es, e, e.id, s.attempts[e.id]);
    TurnOf(es, e, s, t, e.id, t.attempts[e.id]);
  }

  lemma DrainHappens(es: seq<Turn>, s: Sys, e: Turn)
    requires Happened(es, s) && Enabled(s, e) && e.DrainReturns?
    ensures Happened(es + [e], DrainReturned(s, e.id, e.cancelled))
  {
    var t := DrainReturned(s, e.id, e.cancelled);
    OperationsLaterIf(es, e, e.id, s.attempts[e.id]);
    TurnOf(es, e, s, t, e.id, t.attempts[e.id]);
  }

  lemma StopOperationHappens(es: seq<Turn>, s: Sys, e: Turn)
    requires Inv(s) && Happened(es, s) && Enabled(s, e)
    requires e.IssueStop? || e.FinishReturns? || e.StopDeadlinePasses?
    ensures Happened(es + [e], Step(s, e))
  {
    OperationsLaterIf(es, e, e.id, s.attempts[e.id]);
    match e {
      case IssueStop(id) => TurnOf(es, e, s, StopIssued(s, id), id, StopIssued(s, id).attempts[id]);
      case FinishReturns(id, ok) => TurnOf(es, e, s, FinishReturned(s, id, ok), id, FinishReturned(s, id, ok).attempts[id]);
      case StopDeadlinePasses(id, r) => TurnOf(es, e, s, StopRaceLost(s, id, r), id, StopRaceLost(s, id, r).attempts[id]);
    }
  }

  lemma CaptureTurnHappens(es: seq<Turn>, s: Sys, e: Turn)
    requires Happened(es, s) && Enabled(s, e) && (e.CaptureFails? || e.CaptureSample? || e.WorkerRuns?)
    ensures Happened(es + [e], Do(s, e))
  {
    OperationsLaterIf(es, e, e.id, s.attempts[e.id]);
    TurnOf(es, e, s, Do(s, e), e.id, Do(s, e).attempts[e.id]);
  }

  lemma OperationsLaterIf(es: seq<Turn>, e: Turn, id: Id, a: Attempt)
    ensures OperationsHappened(es, id, a) ==> OperationsHappened(es + [e], id, a)
  {
  }

  lemma StartHappens(es: seq<Turn>, s: Sys, e: Turn)
    requires Inv(s) && Happened(es, s) && Enabled(s, e) && e.CallStart?
    ensures Happened(es + [e], Do(s, e))
  {
    var t := Do(s, e);
    if e.id in t.attempts {
      OneHappened(es, e, s, t, e.id, FRESH_ATTEMPT);
    } else {
      NothingHappens(es, e, s, t);
    }
  }

  /** No attempt changed; the fields are as they were or hold none. */
  lemma NothingHappens(es: seq<Turn>, e: Turn, s: Sys, t: Sys)
    requires Happened(es, s) && t.attempts == s.attempts && t.ctl.activeID == s.ctl.activeID
    requires t.ctl.activeID.None? || t.ctl.machine == s.ctl.machine
    ensures Happened(es + [e], t)
  {
    forall j | j in t.attempts
      ensures OperationsHappened(es + [e], j, t.attempts[j]) && PhaseHappened(es + [e], t.ctl, j, t.attempts[j])
    {
      OperationsLater(es, e, j, s.attempts[j]);
      PhaseLater(es, e, s.ctl, t.ctl, j, s.attempts[j]);
    }
  }

  lemma FailedStartHappens(es: seq<Turn>, s: Sys, e: Turn)
    requires Inv(s) && Happened(es, s) && Enabled(s, e) && e.ResumeStart?
    requires s.attempts[e.id].startSlot.result != StartSucceeded || !IsCurrent(s.ctl.machine, e.at)
    ensures Happened(es + [e], Do(s, e))
  {
    var a, t := s.attempts[e.id], Do(s, e);
    assert AttemptInv(ViewOf(s.ctl, e.id), a);
    assert OperationsHappened(es, e.id, a);
    OperationsLater(es, e, e.id, a);
    OneHappened(es, e, s, t, e.id, a.(startSlot := Delivered, intake := Intake.StopAccepting(a.intake)));
  }

  /** What publication leaves of the attempt and the fields: recording, stopping for a failure, or cleared. */
  ghost predicate Shows(a: Attempt, b: Attempt, c: Fields, id: Id, at: int) {
    && b.startOp == a.startOp && b.startSlot == Delivered && (b.stopOp.NoStop? || b.stopOp.StopQueued?)
    && (b.stopSlot == a.stopSlot || b.stopSlot.Open?) && (b.intake.accepting ==> c.activeID == Some(id))
    && (c.activeID.None? || c.activeID == Some(id))
    && (c.activeID == Some(id) ==>
          && c.machine.captureStartedAt == Some(at)
          && (c.machine.status.phase == Recording || (c.machine.status.phase == Stopping && b.stopFromStart)))
  }

  lemma PublishedShows(s: Sys, id: Id, at: int, later: int)
    requires Inv(s) && id in s.attempts && s.attempts[id].startSlot == Won(StartSucceeded) && IsCurrent(s.ctl.machine, at)
    requires s.attempts[id].intake.captureFailure.None?
    ensures var a, t := s.attempts[id], StartResumed(s, id, at, later);
            && s.ctl.activeID == Some(id) && t.attempts == s.attempts[id := t.attempts[id]]
            && Shows(a, t.attempts[id], t.ctl, id, at)
  {
    assert AttemptInv(ViewOf(s.ctl, id), s.attempts[id]);
  }

  lemma PublishedFailureShows(s: Sys, id: Id, at: int, later: int)
    requires Inv(s) && id in s.attempts && s.attempts[id].startSlot == Won(StartSucceeded) && IsCurrent(s.ctl.machine, at)
    requires s.attempts[id].intake.captureFailure.Some?
    ensures var a, t := s.attempts[id], StartResumed(s, id, at, later);
            && s.ctl.activeID == Some(id) && t.attempts == s.attempts[id := t.attempts[id]]
            && Shows(a, t.attempts[id], t.ctl, id, at)
  {
    var a := s.attempts[id];
    assert AttemptInv(ViewOf(s.ctl, id), a);
    var t := StartResumed(s, id, at, later);
    if at <= later {
      assert t.attempts[id] == a.(startSlot := Delivered, stopOp := StopQueued, stopSlot := Open, stopFromStart := true,
                                  startedAt := at, stoppedAt := later);
    } else {
      assert t.attempts[id] == a.(startSlot := Delivered, intake := Intake.StopAccepting(a.intake));
    }
  }

  lemma PublishedStartHappens(es: seq<Turn>, s: Sys, e: Turn)
    requires Inv(s) && Happened(es, s) && Enabled(s, e) && e.ResumeStart?
    requires s.attempts[e.id].startSlot == Won(StartSucceeded) && IsCurrent(s.ctl.machine, e.at)
    ensures Happened(es + [e], Do(s, e))
  {
    var a, t := s.attempts[e.id], Do(s, e);
    if a.intake.captureFailure.None? {
      PublishedShows(s, e.id, e.at, e.later);
    } else {
      PublishedFailureShows(s, e.id, e.at, e.later);
    }
    assert OperationsHappened(es, e.id, a);
    OperationsLater(es, e, e.id, a);
    InLater(es, e, e.id, e.at);
    OneHappened(es, e, s, t, e.id, t.attempts[e.id]);
  }

  /** A stop that begins, or does not, on the turn of a caller or a callback; `u` has that callback consumed. */
  lemma StopHappens(es: seq<Turn>, s: Sys, u: Sys, e: Turn, id: Id)
    requires Inv(s) && Happened(es, s) && Clocked(e) && !e.CallStart? && !e.ResumeStart? && !e.ResumeStop?
    requires u.ctl == s.ctl && s.ctl.activeID == Some(id) && id in s.attempts && (e.CallStop? || e.id == id)
    requires exists w: nat, n: nat :: u.attempts == s.attempts[id := s.attempts[id].(wakeups := w, timers := n)]
    requires s.ctl.machine.status.phase == Recording && IsCurrent(s.ctl.machine, e.at)
    ensures Happened(es + [e], StopCall(u, e.at, e.later))
  {
    var a, t := s.attempts[id], StopCall(u, e.at, e.later);
    assert AttemptInv(ViewOf(s.ctl, id), a);
    assert OperationsHappened(es, id, a) && PhaseHappened(es, s.ctl, id, a);
    OperationsLater(es, e, id, a);
    InLater(es, e, id, e.at);
    InLater(es, e, id, s.ctl.machine.captureStartedAt.value);
    OneHappened(es, e, s, t, id, t.attempts[id]);
  }

  lemma CallStopHappens(es: seq<Turn>, s: Sys, e: Turn)
    requires Inv(s) && Happened(es, s) && Enabled(s, e) && e.CallStop?
    ensures Happened(es + [e], Step(s, e))
  {
    var c := s.ctl;
    if c.activeID.Some? && c.machine.status.phase == Recording && IsCurrent(c.machine, e.at) {
      var id := c.activeID.value;
      var a := s.attempts[id];
      assert s.attempts == s.attempts[id := a.(wakeups := a.wakeups, timers := a.timers)];
      StopHappens(es, s, s, e, id);
    } else {
      NothingHappens(es, e, s, Step(s, e));
    }
  }

  lemma CallbackTurnHappens(es: seq<Turn>, s: Sys, u: Sys, e: Turn, wakeups: nat, timers: nat)
    requires Inv(s) && Happened(es, s) && (e.Wakeup? || e.Timer?) && e.id in s.attempts
    requires u == Update(s, e.id, s.attempts[e.id].(wakeups := wakeups, timers := timers))
    ensures Happened(es + [e], StopIfCurrent(u, e.id, e.at, e.later))
  {
    if s.ctl.activeID == Some(e.id) && s.ctl.machine.status.phase == Recording && IsCurrent(s.ctl.machine, e.at) {
      StopHappens(es, s, u, e, e.id);
    } else {
      CallbackHappens(es, s, u, e);
    }
  }

  lemma WakeupHappens(es: seq<Turn>, s: Sys, e: Turn)
    requires Inv(s) && Happened(es, s) && Enabled(s, e) && e.Wakeup?
    ensures Happened(es + [e], WakeupRan(s, e.id, e.at, e.later))
  {
    var a := s.attempts[e.id];
    assert a.(wakeups := a.wakeups - 1) == a.(wakeups := a.wakeups - 1, timers := a.timers);
    CallbackTurnHappens(es, s, Update(s, e.id, a.(wakeups := a.wakeups - 1)), e, a.wakeups - 1, a.timers);
  }

  lemma TimerHappens(es: seq<Turn>, s: Sys, e: Turn)
    requires Inv(s) && Happened(es, s) && Enabled(s, e) && e.Timer?
    ensures Happened(es + [e], TimerFired(s, e.id, e.at, e.later))
  {
    var a := s.attempts[e.id];
    assert a.(timers := a.timers - 1) == a.(wakeups := a.wakeups, timers := a.timers - 1);
    CallbackTurnHappens(es, s, Update(s, e.id, a.(timers := a.timers - 1)), e, a.wakeups, a.timers - 1);
  }

  lemma StopTurnHappens(es: seq<Turn>, s: Sys, e: Turn)
    requires Inv(s) && Happened(es, s) && Enabled(s, e) && (e.CallStop? || e.Wakeup? || e.Timer?)
    ensures Happened(es + [e], Step(s, e))
  {
    match e {
      case CallStop(_, _) => CallStopHappens(es, s, e);
      case Wakeup(_, _, id) => WakeupHappens(es, s, e);
      case Timer(_, _, id) => TimerHappens(es, s, e);
    }
  }

  lemma CallbackHappens(es: seq<Turn>, s: Sys, u: Sys, e: Turn)
    requires Inv(s) && Happened(es, s) && (e.Wakeup? || e.Timer?) && e.id in s.attempts && u.ctl == s.ctl
    requires exists w: nat, n: nat :: u.attempts == s.attempts[e.id := s.attempts[e.id].(wakeups := w, timers := n)]
    requires !(s.ctl.activeID == Some(e.id) && s.ctl.machine.status.phase == Recording && IsCurrent(s.ctl.machine, e.at))
    ensures Happened(es + [e], StopIfCurrent(u, e.id, e.at, e.later))
  {
    var a, b := s.attempts[e.id], u.attempts[e.id];
    assert StopIfCurrent(u, e.id, e.at, e.later) == u;
    assert OperationsHappened(es, e.id, a) && PhaseHappened(es, s.ctl, e.id, a);
    OperationsLater(es, e, e.id, a);
    PhaseLater(es, e, s.ctl, s.ctl, e.id, a);
    OneHappened(es, e, s, u, e.id, b);
  }

  lemma FailedStopClears(s: Sys, id: Id, at: int, stored: bool, byteCount: int, sha256: string)
    requires Inv(s) && id in s.attempts && s.attempts[id].stopSlot.Won?
    requires s.attempts[id].stopSlot.result != StopSucceeded || !stored || !(1 <= byteCount <= MAXIMUM_MP4_BYTES)
    ensures var a, t := s.attempts[id], StopResumed(s, id, at, stored, byteCount, sha256);
            && s.ctl.activeID == Some(id) && t.ctl.activeID.None?
            && t.attempts == s.attempts[id := a.(stopSlot := Delivered, intake := Intake.StopAccepting(a.intake))]
  {
    assert AttemptInv(ViewOf(s.ctl, id), s.attempts[id]);
  }

  lemma FailedStopHappens(es: seq<Turn>, s: Sys, e: Turn)
    requires Inv(s) && Happened(es, s) && Enabled(s, e) && e.ResumeStop?
    requires s.attempts[e.id].stopSlot.result != StopSucceeded || !e.stored || !(1 <= e.byteCount <= MAXIMUM_MP4_BYTES)
    ensures Happened(es + [e], StopResumed(s, e.id, e.later, e.stored, e.byteCount, e.sha256))
  {
    var a, t := s.attempts[e.id], StopResumed(s, e.id, e.later, e.stored, e.byteCount, e.sha256);
    FailedStopClears(s, e.id, e.later, e.stored, e.byteCount, e.sha256);
    OperationsLaterIf(es, e, e.id, a);
    OneHappened(es, e, s, t, e.id, a.(stopSlot := Delivered, intake := Intake.StopAccepting(a.intake)));
  }

  lemma FinishedStopHappens(es: seq<Turn>, s: Sys, e: Turn)
    requires Inv(s) && Happened(es, s) && Enabled(s, e) && e.ResumeStop?
    requires s.attempts[e.id].stopSlot == Won(StopSucceeded) && e.stored && 1 <= e.byteCount <= MAXIMUM_MP4_BYTES
    ensures Happened(es + [e], StopResumed(s, e.id, e.later, e.stored, e.byteCount, e.sha256))
  {
    var a, t := s.attempts[e.id], StopResumed(s, e.id, e.later, e.stored, e.byteCount, e.sha256);
    assert AttemptInv(ViewOf(s.ctl, e.id), a);
    assert OperationsHappened(es, e.id, a) && PhaseHappened(es, s.ctl, e.id, a);
    OperationsLater(es, e, e.id, a);
    PhaseLater(es, e, s.ctl, s.ctl, e.id, a);
    StoredLater(es, e, e.id, e.byteCount, e.sha256);
    StopDescribes(s, e.id, e.later, e.stored, e.byteCount, e.sha256);
    OneHappened(es, e, s, t, e.id, a.(stopSlot := Delivered));
  }

  lemma ResumedStopHappens(es: seq<Turn>, s: Sys, e: Turn)
    requires Inv(s) && Happened(es, s) && Enabled(s, e) && e.ResumeStop?
    ensures Happened(es + [e], StopResumed(s, e.id, e.later, e.stored, e.byteCount, e.sha256))
  {
    if s.attempts[e.id].stopSlot == Won(StopSucceeded) && e.stored && 1 <= e.byteCount <= MAXIMUM_MP4_BYTES {
      FinishedStopHappens(es, s, e);
    } else {
      FailedStopHappens(es, s, e);
    }
  }

  lemma StoreHappens(es: seq<Turn>, s: Sys, e: Turn)
    requires Inv(s) && Happened(es, s) && Enabled(s, e) && (e.CallCleanup? || e.CallDelete?)
    ensures Happened(es + [e], Do(s, e))
  {
    var t := Do(s, e);
    if t == s {
      NothingHappens(es, e, s, t);
    } else {
      var id := s.ctl.activeID.value;
      var a := s.attempts[id];
      assert OperationsHappened(es, id, a);
      OperationsLater(es, e, id, a);
      OneHappened(es, e, s, t, id, a.(intake := Intake.StopAccepting(a.intake)));
    }
  }

  lemma SameButClock(es: seq<Turn>, s: Sys, later: int)
    requires Happened(es, s)
    ensures Happened(es, s.(clock := later))
  {
  }

  lemma OperationTurnHappens(es: seq<Turn>, s: Sys, e: Turn)
    requires Inv(s) && Happened(es, s) && Enabled(s, e) && !Clocked(e) && !e.CallCleanup? && !e.CallDelete?
    ensures Happened(es + [e], Do(s, e))
  {
    if e.CaptureFails? || e.CaptureSample? || e.WorkerRuns? { CaptureTurnHappens(es, s, e); }
    else if e.StartReturns? { StartReturnHappens(es, s, e); }
    else if e.StopReturns? { SourceStopHappens(es, s, e); }
    else if e.DrainReturns? { DrainHappens(es, s, e); }
    else if e.IssueStop? || e.FinishReturns? || e.StopDeadlinePasses? { StopOperationHappens(es, s, e); }
    else { StartOperationHappens(es, s, e); }
  }

  lemma TurnHappens(es: seq<Turn>, s: Sys, e: Turn)
    requires Inv(s) && Happened(es, s) && Enabled(s, e)
    ensures Happened(es + [e], Do(s, e))
  {
    if e.CallStart? { StartHappens(es, s, e); }
    else if e.ResumeStart? {
      if s.attempts[e.id].startSlot == Won(StartSucceeded) && IsCurrent(s.ctl.machine, e.at) {
        PublishedStartHappens(es, s, e);
      }
      else { FailedStartHappens(es, s, e); }
    }
    else if e.CallStop? || e.Wakeup? || e.Timer? { StopTurnHappens(es, s, e); SameButClock(es + [e], Step(s, e), e.later); }
    else if e.ResumeStop? { ResumedStopHappens(es, s, e); SameButClock(es + [e], Step(s, e), e.later); }
    else if e.CallCleanup? || e.CallDelete? { StoreHappens(es, s, e); }
    else { OperationTurnHappens(es, s, e); }
  }

  lemma {:induction false} RunHappened(clock: int, es: seq<Turn>)
    requires Execution(clock, es)
    ensures Happened(es, State(clock, es))
  {
    if es != [] {
      var init, e := es[..|es| - 1], es[|es| - 1];
      assert es == init + [e];
      LastTurn(clock, init, e);
      RunHappened(clock, init);
      TurnHappens(init, State(clock, init), e);
    }
  }

  /**
   A ready recording ran its course: its capture started and was published, somebody asked for the stop,
   the source stopped, the drain and the writer finished, and the store read back what the metadata says.
   Its duration is the time between publication and that request.
   */
  lemma ReadyRanItsCourse(clock: int, es: seq<Turn>)
    requires Execution(clock, es) && State(clock, es).ctl.machine.status.phase == Ready
    ensures State(clock, es).ctl.machine.status.recording.Some?
    ensures var r := State(clock, es).ctl.machine.status.recording.value;
            && StartReturns(r.id, true) in es && StopReturns(r.id, true, false) in es
            && DrainReturns(r.id, false) in es && FinishReturns(r.id, true) in es
            && StoredAs(es, r.id, r.byteCount, r.sha256)
            && AskedAt(es, r.id, r.createdAt) && PublishedAt(es, r.id, r.createdAt - r.durationMilliseconds)
  {
    RunHappened(clock, es);
    StateInv(clock, es);
    ReadyWasDrained(State(clock, es));
  }

  /** A race is lost to a deadline only when that deadline passed. */
  lemma DeadlinesPassed(clock: int, es: seq<Turn>, id: Id)
    requires Execution(clock, es) && id in State(clock, es).attempts
    ensures State(clock, es).attempts[id].startSlot == Won(PermissionDeadline) ==>
            StartDeadline(id, PermissionDeadline) in es
    ensures State(clock, es).attempts[id].stopSlot == Won(StopDeadline) ==> StopDeadlinePasses(id, StopDeadline) in es
  {
    RunHappened(clock, es);
  }

  /** Only the current attempt takes samples. */
  lemma OnlyTheCurrentAccepts(clock: int, es: seq<Turn>, id: Id)
    requires Execution(clock, es) && id in State(clock, es).attempts && State(clock, es).attempts[id].intake.accepting
    ensures State(clock, es).ctl.activeID == Some(id)
  {
    RunHappened(clock, es);
  }

  // --------------------------------------------------- a failure before publication

  /** A failure was reported before the capture of this attempt had started; it never runs. */
  ghost predicate Lost(s: Sys, id: Id) {
    && id in s.attempts && s.attempts[id].intake.captureFailure.Some?
    && s.attempts[id].startSlot != Won(StartSucceeded) && !Runs(s.ctl, id)
  }

  lemma OperationKeepsLost(s: Sys, e: Turn, id: Id)
    requires Lost(s, id) && Enabled(s, e) && !Clocked(e) && !e.CallCleanup? && !e.CallDelete?
    ensures Lost(Do(s, e), id)
  {
  }

  lemma StartKeepsLost(s: Sys, e: Turn, id: Id)
    requires Lost(s, id) && Enabled(s, e) && e.CallStart?
    ensures Lost(Do(s, e), id)
  {
  }

  lemma ResumedStartKeepsLost(s: Sys, e: Turn, id: Id)
    requires Inv(s) && Lost(s, id) && Enabled(s, e) && e.ResumeStart?
    ensures Lost(Do(s, e), id)
  {
    var a := s.attempts[e.id];
    assert AttemptInv(ViewOf(s.ctl, e.id), a);
    if a.startSlot == Won(StartSucceeded) && IsCurrent(s.ctl.machine, e.at) {
      if a.intake.captureFailure.None? {
        PublishedShows(s, e.id, e.at, e.later);
      } else {
        PublishedFailureShows(s, e.id, e.at, e.later);
      }
    }
  }

  lemma StopTurnKeepsLost(s: Sys, e: Turn, id: Id)
    requires Lost(s, id) && Enabled(s, e) && (e.CallStop? || e.Wakeup? || e.Timer?)
    ensures Lost(Do(s, e), id)
  {
  }

  lemma ResumedStopKeepsLost(s: Sys, e: Turn, id: Id)
    requires Inv(s) && Lost(s, id) && Enabled(s, e) && e.ResumeStop?
    ensures Lost(Do(s, e), id)
  {
    assert AttemptInv(ViewOf(s.ctl, e.id), s.attempts[e.id]);
    if s.attempts[e.id].stopSlot == Won(StopSucceeded) && e.stored && 1 <= e.byteCount <= MAXIMUM_MP4_BYTES {
      StopDescribes(s, e.id, e.later, e.stored, e.byteCount, e.sha256);
    } else {
      FailedStopClears(s, e.id, e.later, e.stored, e.byteCount, e.sha256);
    }
  }

  lemma StoreKeepsLost(s: Sys, e: Turn, id: Id)
    requires Inv(s) && Lost(s, id) && Enabled(s, e) && (e.CallCleanup? || e.CallDelete?)
    ensures Lost(Do(s, e), id)
  {
  }

  lemma TurnKeepsLost(s: Sys, e: Turn, id: Id)
    requires Inv(s) && Lost(s, id) && Enabled(s, e)
    ensures Lost(Do(s, e), id)
  {
    if e.CallStart? { StartKeepsLost(s, e, id); }
    else if e.ResumeStart? { ResumedStartKeepsLost(s, e, id); }
    else if e.CallStop? || e.Wakeup? || e.Timer? { StopTurnKeepsLost(s, e, id); }
    else if e.ResumeStop? { ResumedStopKeepsLost(s, e, id); }
    else if e.CallCleanup? || e.CallDelete? { StoreKeepsLost(s, e, id); }
    else { OperationKeepsLost(s, e, id); }
  }

  lemma {:induction false} LostStays(s: Sys, es: seq<Turn>, id: Id)
    requires Inv(s) && Lost(s, id) && Legal(s, es)
    ensures Lost(After(s, es), id)
    decreases |es|
  {
    if es != [] {
      TurnKeepsLost(s, es[0], id);
      StepKeepsInv(s, es[0]);
      LostStays(Do(s, es[0]), es[1..], id);
    }
  }

  /** An attempt that failed before its capture start returned never comes to record, whatever else happens. */
  lemma FailureBarsPublication(clock: int, es: seq<Turn>, id: Id, error: Intake.CaptureError, fs: seq<Turn>)
    requires Execution(clock, es + [CaptureFails(id, error)] + fs) && StartReturns(id, true) !in es
    ensures !Runs(State(clock, es + [CaptureFails(id, error)] + fs).ctl, id)
  {
    var upTo := es + [CaptureFails(id, error)];
    Concatenated(Initial(clock), upTo, fs);
    LastTurn(clock, es, CaptureFails(id, error));
    RunHappened(clock, es);
    StateInv(clock, upTo);
    LostStays(State(clock, upTo), fs, id);
  }

  // ------------------------------------------------------ a recording left alone

  lemma {:induction false} Continued(s: Sys, es: seq<Turn>, fs: seq<Turn>)
    requires Legal(s, es) && Legal(After(s, es), fs)
    ensures Legal(s, es + fs) && After(s, es + fs) == After(After(s, es), fs)
    decreases |es|
  {
    if es == [] {
      assert es + fs == fs;
    } else {
      assert (es + fs)[1..] == es[1..] + fs;
      Continued(Do(s, es[0]), es[1..], fs);
    }
  }

  /** The fields and the attempt of a recording that has started and that nobody has disturbed. */
  ghost predicate Undisturbed(s: Sys, id: Id, startedAt: int, intake: Intake.Intake) {
    && id in s.attempts && s.ctl.activeID == Some(id) && s.ctl.writer.Some? && s.ctl.intake.Some?
    && s.ctl.activeURL.Some? && s.ctl.captureStartedAt == Some(startedAt)
    && s.ctl.machine.status.phase == Recording && s.ctl.machine.lastEventAt == Some(startedAt)
    && s.attempts[id].startOp == StartOver && s.attempts[id].stopOp == NoStop && s.attempts[id].intake == intake
  }

  function StartTurns(id: Id, duration: int, t0: int, t1: int): seq<Turn> {
    [CallStart(t0, t0, id, duration, true, true), IssueStart(id), StartReturns(id, true), ResumeStart(t1, t1, id)]
  }

  lemma TurnThen(s: Sys, e: Turn, es: seq<Turn>)
    requires Enabled(s, e) && Legal(Do(s, e), es)
    ensures Legal(s, [e] + es) && After(s, [e] + es) == After(Do(s, e), es)
  {
    assert ([e] + es)[0] == e && ([e] + es)[1..] == es;
  }

  /** A start is under way: its operation is at `op` and its race at `slot`. */
  ghost predicate StartUnderWay(s: Sys, id: Id, t0: int, op: StartOp, slot: Slot<StartResult>) {
    && s.ctl.activeID == Some(id) && s.ctl.writer.Some? && s.ctl.intake.Some? && s.ctl.activeURL.Some?
    && s.ctl.machine.status.phase == Starting && s.ctl.machine.lastEventAt == Some(t0)
    && s.ctl.unsettledStartID == (if op == StartOver then None else Some(id))
    && id in s.attempts && s.attempts[id] == FRESH_ATTEMPT.(startOp := op, startSlot := slot)
  }

  lemma StartIsCalled(s: Sys, id: Id, duration: int, t0: int)
    requires id !in s.attempts && s.ctl.machine.status.phase == Idle && s.ctl.unsettledStartID.None?
    requires 1_000 <= duration <= 600_000
    ensures StartUnderWay(Do(s, CallStart(t0, t0, id, duration, true, true)), id, t0, NotIssued, Open)
  {
  }

  lemma StartIsIssued(s: Sys, id: Id, t0: int)
    requires StartUnderWay(s, id, t0, NotIssued, Open)
    ensures StartUnderWay(Do(s, IssueStart(id)), id, t0, StartInFlight, Open)
  {
  }

  lemma StartIsWon(s: Sys, id: Id, t0: int)
    requires StartUnderWay(s, id, t0, StartInFlight, Open)
    ensures StartUnderWay(Do(s, StartReturns(id, true)), id, t0, StartOver, Won(StartSucceeded))
  {
  }

  lemma StartIsPublished(s: Sys, id: Id, t0: int, t1: int)
    requires StartUnderWay(s, id, t0, StartOver, Won(StartSucceeded)) && t0 <= t1
    ensures Undisturbed(Do(s, ResumeStart(t1, t1, id)), id, t1, Intake.FRESH)
  {
  }

  lemma Starts(s: Sys, id: Id, duration: int, t0: int, t1: int)
    requires id !in s.attempts && s.ctl.machine.status.phase == Idle && s.ctl.unsettledStartID.None?
    requires 1_000 <= duration <= 600_000 && t0 <= t1
    ensures Legal(s, StartTurns(id, duration, t0, t1))
    ensures Undisturbed(After(s, StartTurns(id, duration, t0, t1)), id, t1, Intake.FRESH)
  {
    var called := CallStart(t0, t0, id, duration, true, true);
    StartIsCalled(s, id, duration, t0);
    var s1 := Do(s, called);
    StartIsIssued(s1, id, t0);
    var s2 := Do(s1, IssueStart(id));
    StartIsWon(s2, id, t0);
    var s3 := Do(s2, StartReturns(id, true));
    StartIsPublished(s3, id, t0, t1);
    var es := [] + [ResumeStart(t1, t1, id)];
    TurnThen(s3, ResumeStart(t1, t1, id), []);
    TurnThen(s2, StartReturns(id, true), es);
    TurnThen(s1, IssueStart(id), [StartReturns(id, true)] + es);
    TurnThen(s, called, [IssueStart(id)] + ([StartReturns(id, true)] + es));
    assert [called] + ([IssueStart(id)] + ([StartReturns(id, true)] + es)) == StartTurns(id, duration, t0, t1);
  }

  function Captures(id: Id, samples: seq<Intake.Sample>): seq<Turn> {
    seq(|samples|, i requires 0 <= i < |samples| => CaptureSample(id, samples[i]))
  }

  lemma {:induction false} SamplesArrive(s: Sys, id: Id, startedAt: int, samples: seq<Intake.Sample>, intake: Intake.Intake)
    requires Undisturbed(s, id, startedAt, intake) && intake.accepting
    ensures Legal(s, Captures(id, samples))
    ensures Undisturbed(After(s, Captures(id, samples)), id, startedAt,
                        intake.(buffered := intake.buffered + samples, accepted := intake.accepted + samples))
    decreases |samples|
  {
    var es := Captures(id, samples);
    if samples == [] {
      assert intake.buffered + samples == intake.buffered && intake.accepted + samples == intake.accepted;
    } else {
      var next := Intake.Enqueue(intake, samples[0]);
      SamplesArrive(Do(s, es[0]), id, startedAt, samples[1..], next);
      assert es[1..] == Captures(id, samples[1..]);
      assert next.buffered + samples[1..] == intake.buffered + samples;
      assert next.accepted + samples[1..] == intake.accepted + samples;
    }
  }

  /** The worker takes `turns` samples from the buffer, the writer accepting each. */
  lemma {:induction false} WorkerWorks(s: Sys, id: Id, turns: nat)
    requires id in s.attempts
    ensures Legal(s, seq(turns, _ => WorkerRuns(id, true)))
    ensures var t := After(s, seq(turns, _ => WorkerRuns(id, true)));
            t == Update(s, id, s.attempts[id].(intake :=
                          Intake.Run(s.attempts[id].intake, seq(turns, _ => Intake.WorkerRan(true)))))
    decreases turns
  {
    if turns > 0 {
      var es, steps := seq(turns, _ => WorkerRuns(id, true)), seq(turns, _ => Intake.WorkerRan(true));
      assert es[1..] == seq(turns - 1, _ => WorkerRuns(id, true));
      assert steps[1..] == seq(turns - 1, _ => Intake.WorkerRan(true));
      assert es[0] == WorkerRuns(id, true) && steps[0] == Intake.WorkerRan(true);
      WorkerWorks(WorkerRan(s, id, true), id, turns - 1);
    } else {
      assert Update(s, id, s.attempts[id]) == s;
    }
  }

  /** A stop has been asked for, its operation is at `op`, and its race is open. */
  ghost predicate StopUnderWay(s: Sys, id: Id, startedAt: int, stoppedAt: int, op: StopOp, intake: Intake.Intake) {
    && id in s.attempts && s.ctl.machine.status.phase == Stopping && s.ctl.machine.lastEventAt == Some(stoppedAt)
    && s.attempts[id].stopOp == op && s.attempts[id].stopSlot == Open && !s.attempts[id].stopFromStart
    && s.attempts[id].startedAt == startedAt && s.attempts[id].stoppedAt == stoppedAt
    && s.attempts[id].intake == intake
  }

  lemma StopBegins(s: Sys, id: Id, startedAt: int, at: int, intake: Intake.Intake)
    requires Undisturbed(s, id, startedAt, intake) && startedAt <= at
    ensures StopUnderWay(Do(s, CallStop(at, at)), id, startedAt, at, StopQueued, intake)
  {
  }

  lemma StopIsIssued(s: Sys, id: Id, startedAt: int, at: int, intake: Intake.Intake)
    requires StopUnderWay(s, id, startedAt, at, StopQueued, intake)
    ensures StopUnderWay(Do(s, IssueStop(id)), id, startedAt, at, SourceStopping, intake)
  {
  }

  lemma SourceStops(s: Sys, id: Id, startedAt: int, at: int, intake: Intake.Intake)
    requires StopUnderWay(s, id, startedAt, at, SourceStopping, intake)
    ensures StopUnderWay(Do(s, StopReturns(id, true, false)), id, startedAt, at, Draining, Intake.StopAccepting(intake))
  {
  }

  lemma StopIsAsked(s: Sys, id: Id, startedAt: int, at: int, intake: Intake.Intake)
    requires Undisturbed(s, id, startedAt, intake) && startedAt <= at
    ensures Legal(s, [CallStop(at, at), IssueStop(id), StopReturns(id, true, false)])
    ensures StopUnderWay(After(s, [CallStop(at, at), IssueStop(id), StopReturns(id, true, false)]), id, startedAt, at,
                         Draining, Intake.StopAccepting(intake))
  {
    StopBegins(s, id, startedAt, at, intake);
    var s1 := Do(s, CallStop(at, at));
    StopIsIssued(s1, id, startedAt, at, intake);
    var s2 := Do(s1, IssueStop(id));
    SourceStops(s2, id, startedAt, at, intake);
    var es := [] + [StopReturns(id, true, false)];
    TurnThen(s2, StopReturns(id, true, false), []);
    TurnThen(s1, IssueStop(id), es);
    TurnThen(s, CallStop(at, at), [IssueStop(id)] + es);
    assert [CallStop(at, at)] + ([IssueStop(id)] + es)
        == [CallStop(at, at), IssueStop(id), StopReturns(id, true, false)];
  }

  function EndTurns(id: Id, at: int, byteCount: int, sha256: string): seq<Turn> {
    [DrainReturns(id, false), FinishReturns(id, true), ResumeStop(at, at, id, true, byteCount, sha256)]
  }

  lemma DrainEnds(s: Sys, id: Id, startedAt: int, at: int, intake: Intake.Intake)
    requires StopUnderWay(s, id, startedAt, at, Draining, intake) && Intake.DrainsCleanly(intake)
    ensures StopUnderWay(Do(s, DrainReturns(id, false)), id, startedAt, at, Finishing, intake)
  {
  }

  /** The last two turns: the operation wins the race of the stop, and the stop describes the file. */
  lemma StopFinishes(s: Sys, id: Id, startedAt: int, stoppedAt: int, at: int, byteCount: int, sha256: string,
                     intake: Intake.Intake)
    requires StopUnderWay(s, id, startedAt, stoppedAt, Finishing, intake)
    requires startedAt <= stoppedAt && 1 <= byteCount <= 524_288_000
    ensures Enabled(Do(s, FinishReturns(id, true)), ResumeStop(at, at, id, true, byteCount, sha256))
    ensures var t := Do(Do(s, FinishReturns(id, true)), ResumeStop(at, at, id, true, byteCount, sha256));
            && t.ctl.machine.status.phase == Ready && id in t.attempts && t.attempts[id].intake == intake
            && t.ctl.machine.status.recording == Some(Metadata(id, byteCount, stoppedAt - startedAt, sha256, stoppedAt))
  {
    assert Do(s, FinishReturns(id, true)).attempts[id].stopSlot == Won(StopSucceeded);
  }

  lemma StopEnds(s: Sys, id: Id, startedAt: int, stoppedAt: int, at: int, byteCount: int, sha256: string,
                 intake: Intake.Intake)
    requires StopUnderWay(s, id, startedAt, stoppedAt, Draining, intake) && Intake.DrainsCleanly(intake)
    requires startedAt <= stoppedAt && 1 <= byteCount <= 524_288_000
    ensures Legal(s, EndTurns(id, at, byteCount, sha256))
    ensures var t := After(s, EndTurns(id, at, byteCount, sha256));
            && t.ctl.machine.status.phase == Ready && id in t.attempts && t.attempts[id].intake == intake
            && t.ctl.machine.status.recording == Some(Metadata(id, byteCount, stoppedAt - startedAt, sha256, stoppedAt))
  {
    DrainEnds(s, id, startedAt, stoppedAt, intake);
    var s1 := Do(s, DrainReturns(id, false));
    StopFinishes(s1, id, startedAt, stoppedAt, at, byteCount, sha256, intake);
    var s2 := Do(s1, FinishReturns(id, true));
    var es := [] + [ResumeStop(at, at, id, true, byteCount, sha256)];
    TurnThen(s2, ResumeStop(at, at, id, true, byteCount, sha256), []);
    TurnThen(s1, FinishReturns(id, true), es);
    TurnThen(s, DrainReturns(id, false), [FinishReturns(id, true)] + es);
    assert [DrainReturns(id, false)] + ([FinishReturns(id, true)] + es) == EndTurns(id, at, byteCount, sha256);
  }

  function UndisturbedTurns(id: Id, duration: int, t0: int, t1: int, samples: seq<Intake.Sample>, t2: int, t3: int,
                            byteCount: int, sha256: string): seq<Turn> {
    StartTurns(id, duration, t0, t1)
    + (Captures(id, samples)
       + ([CallStop(t2, t2), IssueStop(id), StopReturns(id, true, false)]
          + (seq(|samples| + 1, _ => WorkerRuns(id, true)) + EndTurns(id, t3, byteCount, sha256))))
  }

  /**
   From any idle state with no start outstanding: a recording that is started, fed any samples and stopped, with
   no call failing and no deadline passing, becomes ready with exactly those samples and the metadata they got.
   */
  lemma UndisturbedRecordingIsReady(s: Sys, id: Id, duration: int, t0: int, t1: int, samples: seq<Intake.Sample>, t2: int,
                                    t3: int, byteCount: int, sha256: string)
    requires id !in s.attempts && s.ctl.machine.status.phase == Idle && s.ctl.unsettledStartID.None?
    requires 1_000 <= duration <= 600_000 && t0 <= t1 <= t2 && 1 <= byteCount <= 524_288_000
    ensures Legal(s, UndisturbedTurns(id, duration, t0, t1, samples, t2, t3, byteCount, sha256))
    ensures var t := After(s, UndisturbedTurns(id, duration, t0, t1, samples, t2, t3, byteCount, sha256));
            && t.ctl.machine.status.phase == Ready
            && t.ctl.machine.status.recording == Some(Metadata(id, byteCount, t2 - t1, sha256, t2))
            && id in t.attempts && t.attempts[id].intake.appended == samples
  {
    var stopTurns := [CallStop(t2, t2), IssueStop(id), StopReturns(id, true, false)];
    var workTurns := seq(|samples| + 1, _ => WorkerRuns(id, true));
    var endTurns := EndTurns(id, t3, byteCount, sha256);
    Starts(s, id, duration, t0, t1);
    var s1 := After(s, StartTurns(id, duration, t0, t1));
    SamplesArrive(s1, id, t1, samples, Intake.FRESH);
    var s2 := After(s1, Captures(id, samples));
    StopIsAsked(s2, id, t1, t2, s2.attempts[id].intake);
    var s3 := After(s2, stopTurns);
    var closed := s3.attempts[id].intake;
    assert closed.buffered == samples && closed.accepted == samples;
    Intake.DrainTerminates(closed);
    WorkerWorks(s3, id, |samples| + 1);
    var s4 := After(s3, workTurns);
    StopEnds(s4, id, t1, t2, t3, byteCount, sha256, s4.attempts[id].intake);
    Continued(s3, workTurns, endTurns);
    Continued(s2, stopTurns, workTurns + endTurns);
    Continued(s1, Captures(id, samples), stopTurns + (workTurns + endTurns));
    Continued(s, StartTurns(id, duration, t0, t1), Captures(id, samples) + (stopTurns + (workTurns + endTurns)));
  }

  // ------------------------------------------------------------- starts that are refused

  /** A capture start that may still be running, or a late one being stopped. */
  ghost predicate Outstanding(s: Sys, id: Id) {
    id in s.attempts && s.attempts[id].startOp in {NotIssued, StartInFlight, DiscardInFlight}
  }

  /** A start is taken up exactly when its duration is in bounds, no earlier start is outstanding, and the machine is
      at rest. */
  lemma StartIsTakenUpIff(clock: int, es: seq<Turn>, at: int, later: int, id: Id, duration: int, storeOk: bool,
      available: bool)
    requires Execution(clock, es + [CallStart(at, later, id, duration, storeOk, available)]) && Execution(clock, es)
    ensures var s, t := State(clock, es), State(clock, es + [CallStart(at, later, id, duration, storeOk, available)]);
            && (id in t.attempts <==>
                  && 1_000 <= duration <= 600_000 && (forall j :: !Outstanding(s, j))
                  && s.ctl.machine.status.phase in {Idle, Failed} && storeOk && available)
            && (id in t.attempts ==>
                  && t.ctl.machine.status.phase == Starting && t.ctl.activeID == Some(id)
                  && t.ctl.machine.startRequestedAt == Some(at) && t.ctl.machine.maximumDuration == Some(duration))
            && (id !in t.attempts ==> t.attempts == s.attempts)
  {
    LastTurn(clock, es, CallStart(at, later, id, duration, storeOk, available));
    var s := State(clock, es);
    if s.ctl.unsettledStartID.Some? {
      var j := s.ctl.unsettledStartID.value;
      assert AttemptInv(ViewOf(s.ctl, j), s.attempts[j]);
      assert Outstanding(s, j);
    } else {
      forall j ensures !Outstanding(s, j) {
        if j in s.attempts { assert AttemptInv(ViewOf(s.ctl, j), s.attempts[j]); }
      }
    }
  }
}
