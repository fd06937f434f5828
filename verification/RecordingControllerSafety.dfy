/**
 What the invariant says about whole runs of the recording controller: capture starts
 never overlap, a late start is stopped before the next one, a failure bars the attempt
 from becoming ready, a finished recording holds every accepted sample, and a stale
 callback stops nothing. None of this depends on the clock; what does, namely that the
 fields agree with the phase and that no failure is left without a pending wake-up, is
 stated with the exact readings it needs.
 */
module RecordingControllerSafety {
  import opened Prelude
  import opened RecordingStateMachine
  import opened RecordingController
  import opened RecordingControllerInvariant
  import Intake = RecordingSampleIntake
  import Gate = TimeoutRaceGate

  /** A run of the controller from its initial state, whatever its clock reads. */
  ghost predicate Execution(clock: int, es: seq<Turn>) {
    Legal(Initial(clock), es)
  }

  ghost function State(clock: int, es: seq<Turn>): Sys
    requires Execution(clock, es)
  {
    After(Initial(clock), es)
  }

  lemma StateInv(clock: int, es: seq<Turn>)
    requires Execution(clock, es)
    ensures Inv(State(clock, es))
  {
    InitialInv(clock);
    RunKeepsInv(Initial(clock), es);
  }

  // ------------------------------------------------------------------- the races

  /** A slot to which the steps of a gate are offered in turn. */
  function SlotAfter<R>(steps: seq<Gate.Step<R>>): Slot<R> {
    if steps == [] then Open
    else
      var last := steps[|steps| - 1];
      var before := SlotAfter(steps[..|steps| - 1]);
      if last.Resolved? then Offer(before, last.result) else before
  }

  /** The slot of an attempt is what the race gate does: open while it waits, then the one result it resumed with. */
  lemma {:induction false} SlotIsTheGate<R>(steps: seq<Gate.Step<R>>)
    ensures var g := Gate.Run(steps);
            if g.waiting then SlotAfter(steps) == Open && g.resumed == []
            else |g.resumed| == 1 && SlotAfter(steps) == Won(g.resumed[0])
  {
    if steps != [] { SlotIsTheGate(steps[..|steps| - 1]); }
  }

  // ------------------------------------------------------------- capture starts

  /** While source.start may be called, no other source.start, and no stop of a late one, is outstanding. */
  lemma StartsNeverOverlap(clock: int, es: seq<Turn>, id: Id)
    requires Execution(clock, es) && Enabled(State(clock, es), IssueStart(id))
    ensures NoOtherStart(State(clock, es), id)
  {
    StateInv(clock, es);
    OnlyOneStart(State(clock, es), id);
  }

  /** A late start stays on record until its stop returns, a recorded failure for good. */
  ghost predicate Kept(s: Sys, t: Sys, id: Id)
    requires id in s.attempts
  {
    && id in t.attempts
    && (s.attempts[id].startOp == DiscardInFlight ==> t.attempts[id].startOp == DiscardInFlight)
    && (s.attempts[id].failedBeforeDrain ==> t.attempts[id].failedBeforeDrain)
  }

  lemma StopBeginKeeps(s: Sys, at: int, later: int, fromStart: bool, id: Id)
    requires id in s.attempts
    ensures StopBegin(s, at, later, fromStart).Some? ==> Kept(s, StopBegin(s, at, later, fromStart).value, id)
  {
  }

  lemma StartCatchKeeps(s: Sys, code: string, at: int, id: Id)
    requires id in s.attempts
    ensures Kept(s, StartCatch(s, code, at), id)
  {
  }

  lemma UpdateKeeps(s: Sys, at: Id, a: Attempt, id: Id)
    requires id in s.attempts && at in s.attempts
    requires a.startOp == s.attempts[at].startOp && a.failedBeforeDrain == s.attempts[at].failedBeforeDrain
    ensures Kept(s, Update(s, at, a), id)
  {
  }

  /** A start that saw its race succeed goes on: publication, then a timer or, after a failure, its stop. */
  lemma PublishedStartKeeps(s: Sys, starting: Id, at: int, later: int, id: Id)
    requires id in s.attempts && starting in s.attempts
    ensures var stopping := StopBegin(s, later, later, true);
            && (stopping.Some? ==> Kept(s, stopping.value, id))
            && Kept(s, StartCatch(s, NOT_AVAILABLE_CODE, later), id)
            && Kept(s, Update(s, starting, s.attempts[starting].(timers := s.attempts[starting].timers + 1)), id)
  {
    StopBeginKeeps(s, later, later, true, id);
    StartCatchKeeps(s, NOT_AVAILABLE_CODE, later, id);
    UpdateKeeps(s, starting, s.attempts[starting].(timers := s.attempts[starting].timers + 1), id);
  }

  lemma ResumedStartKeeps(s: Sys, e: Turn, id: Id)
    requires Enabled(s, e) && id in s.attempts && e.ResumeStart?
    ensures Kept(s, StartResumed(s, e.id, e.at, e.later), id)
  {
    var result := s.attempts[e.id].startSlot.result;
    var s1 := Update(s, e.id, s.attempts[e.id].(startSlot := Delivered));
    UpdateKeeps(s, e.id, s.attempts[e.id].(startSlot := Delivered), id);
    if result != StartSucceeded {
      StartCatchKeeps(s1, StartErrorCode(result), e.at, id);
    } else {
      var s2 := s1.(ctl := s1.ctl.(captureStartedAt := Some(e.at)));
      var published := Apply(s2.ctl.machine, CaptureStarted(e.at));
      if published.None? { StartCatchKeeps(s2, NOT_AVAILABLE_CODE, e.later, id); }
      else { PublishedStartKeeps(WithMachine(s2, published.value), e.id, e.at, e.later, id); }
    }
  }

  lemma StarterTurnKeeps(s: Sys, e: Turn, id: Id)
    requires Enabled(s, e) && id in s.attempts && (e.CallStart? || e.ResumeStart?)
    ensures Kept(s, Do(s, e), id)
  {
    if e.ResumeStart? { ResumedStartKeeps(s, e, id); }
  }

  lemma StopperTurnKeeps(s: Sys, e: Turn, id: Id)
    requires Enabled(s, e) && id in s.attempts && (e.CallStop? || e.Wakeup? || e.Timer?)
    ensures Kept(s, Do(s, e), id)
  {
    if e.Wakeup? || e.Timer? {
      var a := s.attempts[e.id];
      var b := if e.Wakeup? then a.(wakeups := a.wakeups - 1) else a.(timers := a.timers - 1);
      StopBeginKeeps(Update(s, e.id, b), e.at, e.later, false, id);
    } else {
      StopBeginKeeps(s, e.at, e.later, false, id);
    }
  }

  lemma ResumeStopKeeps(s: Sys, e: Turn, id: Id)
    requires Enabled(s, e) && id in s.attempts && e.ResumeStop?
    ensures Kept(s, Do(s, e), id)
  {
  }

  lemma StoreKeeps(s: Sys, e: Turn, id: Id)
    requires Enabled(s, e) && id in s.attempts && (e.CallCleanup? || e.CallDelete?)
    ensures Kept(s, Do(s, e), id)
  {
  }

  lemma StepKeeps(s: Sys, e: Turn, id: Id)
    requires Enabled(s, e) && id in s.attempts && e != DiscardReturns(id)
    ensures Kept(s, Do(s, e), id)
  {
    if e.CallStart? || e.ResumeStart? { StarterTurnKeeps(s, e, id); }
    else if e.CallStop? || e.Wakeup? || e.Timer? { StopperTurnKeeps(s, e, id); }
    else if e.ResumeStop? { ResumeStopKeeps(s, e, id); }
    else if e.CallCleanup? || e.CallDelete? { StoreKeeps(s, e, id); }
  }

  lemma {:induction false} DiscardLasts(s: Sys, es: seq<Turn>, id: Id)
    requires Legal(s, es) && id in s.attempts && s.attempts[id].startOp == DiscardInFlight
    requires DiscardReturns(id) !in es
    ensures id in After(s, es).attempts && After(s, es).attempts[id].startOp == DiscardInFlight
    decreases |es|
  {
    if es != [] {
      StepKeeps(s, es[0], id);
      DiscardLasts(Do(s, es[0]), es[1..], id);
    }
  }

  lemma {:induction false} Concatenated(s: Sys, es: seq<Turn>, fs: seq<Turn>)
    requires Legal(s, es + fs)
    ensures Legal(s, es) && Legal(After(s, es), fs) && After(s, es + fs) == After(After(s, es), fs)
    decreases |es|
  {
    if es == [] {
      assert es + fs == fs;
    } else {
      assert (es + fs)[1..] == es[1..] + fs;
      Concatenated(Do(s, es[0]), es[1..], fs);
    }
  }

  /**
   A start that succeeds after its attempt stopped being current is stopped again, and that
   stop has returned, before any other source.start is issued.
   */
  lemma LateStartIsStoppedFirst(clock: int, es: seq<Turn>, id: Id, fs: seq<Turn>, next: Id)
    requires Execution(clock, es + [StartReturns(id, true)] + fs)
    requires Legal(Initial(clock), es) && !BelongsToCurrentStart(After(Initial(clock), es).ctl, id)
    requires Enabled(State(clock, es + [StartReturns(id, true)] + fs), IssueStart(next))
    ensures DiscardReturns(id) in fs
  {
    var upTo := es + [StartReturns(id, true)];
    Concatenated(Initial(clock), upTo, fs);
    Concatenated(Initial(clock), es, [StartReturns(id, true)]);
    var s := After(Initial(clock), es);
    var t := After(Initial(clock), upTo);
    assert t == Do(s, StartReturns(id, true)) by {
      assert After(s, [StartReturns(id, true)]) == Do(s, StartReturns(id, true));
    }
    if DiscardReturns(id) !in fs {
      DiscardLasts(t, fs, id);
      StartsNeverOverlap(clock, upTo + fs, next);
      assert false;
    }
  }

  // ------------------------------------------------------------ capture failures

  lemma {:induction false} FailureLasts(s: Sys, es: seq<Turn>, id: Id)
    requires Legal(s, es) && id in s.attempts && s.attempts[id].failedBeforeDrain
    ensures id in After(s, es).attempts && After(s, es).attempts[id].failedBeforeDrain
    decreases |es|
  {
    if es != [] {
      if es[0] != DiscardReturns(id) { StepKeeps(s, es[0], id); }
      FailureLasts(Do(s, es[0]), es[1..], id);
    }
  }

  /** A failure reported before the drain reads it keeps the attempt from ever becoming ready. */
  lemma FailureBarsReady(clock: int, es: seq<Turn>, id: Id, error: Intake.CaptureError, fs: seq<Turn>)
    requires Execution(clock, es + [CaptureFails(id, error)] + fs)
    requires Legal(Initial(clock), es) && id in After(Initial(clock), es).attempts
    requires !After(Initial(clock), es).attempts[id].drainPassed
    ensures var s := State(clock, es + [CaptureFails(id, error)] + fs);
            s.ctl.machine.status.phase == Ready ==>
              s.ctl.machine.status.recording.Some? && s.ctl.machine.status.recording.value.id != id
  {
    var upTo := es + [CaptureFails(id, error)];
    Concatenated(Initial(clock), upTo, fs);
    Concatenated(Initial(clock), es, [CaptureFails(id, error)]);
    var s0 := After(Initial(clock), es);
    assert After(s0, [CaptureFails(id, error)]) == Do(s0, CaptureFails(id, error));
    FailureLasts(After(Initial(clock), upTo), fs, id);
    StateInv(clock, upTo + fs);
    var s := State(clock, upTo + fs);
    assert AttemptInv(ViewOf(s.ctl, id), s.attempts[id]);
  }

  /** A finished recording was drained without a failure, and its writer holds every accepted sample. */
  lemma ReadyHoldsEverySample(clock: int, es: seq<Turn>)
    requires Execution(clock, es)
    ensures ReadyIsComplete(State(clock, es))
  {
    StateInv(clock, es);
    ReadyWasDrained(State(clock, es));
  }

  /** At every moment the writer of an attempt holds a prefix of what its intake accepted. */
  lemma SamplesInOrder(clock: int, es: seq<Turn>, id: Id)
    requires Execution(clock, es) && id in State(clock, es).attempts
    ensures State(clock, es).attempts[id].intake.appended <= State(clock, es).attempts[id].intake.accepted
  {
    StateInv(clock, es);
    var s := State(clock, es);
    assert AttemptInv(ViewOf(s.ctl, id), s.attempts[id]);
  }

  /** A stop begun by the start that saw the failure at publication never succeeds. */
  lemma StopFromStartFails(clock: int, es: seq<Turn>, id: Id)
    requires Execution(clock, es) && id in State(clock, es).attempts && State(clock, es).attempts[id].stopFromStart
    ensures State(clock, es).attempts[id].stopSlot != Won(StopSucceeded)
  {
    StateInv(clock, es);
    var s := State(clock, es);
    assert AttemptInv(ViewOf(s.ctl, id), s.attempts[id]);
  }

  // ------------------------------------------------------------- stale callbacks

  /** A timer or failure callback of another attempt changes no field and no other attempt. */
  lemma StaleCallbackStopsNothing(s: Sys, e: Turn)
    requires Enabled(s, e) && (e.Wakeup? || e.Timer?) && s.ctl.activeID != Some(e.id)
    ensures Do(s, e).ctl == s.ctl
    ensures forall j :: j in s.attempts && j != e.id ==> j in Do(s, e).attempts && Do(s, e).attempts[j] == s.attempts[j]
  {
  }

  // -------------------------------------------------------- what depends on the clock

  /** Exactly the readings whose rejection would leave the fields and the phase apart. */
  ghost predicate ReadingsCurrent(s: Sys, e: Turn)
    requires Enabled(s, e)
  {
    match e
    case CallStart(at, later, _, duration, storeOk, available) =>
      (&& 1_000 <= duration <= 600_000 && s.ctl.unsettledStartID.None? && (!storeOk || !available)
       && (s.ctl.machine.status.phase == Idle || s.ctl.machine.status.phase == Failed))
      ==> at <= later
    case ResumeStart(at, later, id) =>
      var a := s.attempts[id];
      if a.startSlot.result != StartSucceeded then IsCurrent(s.ctl.machine, at)
      else if !IsCurrent(s.ctl.machine, at) then IsCurrent(s.ctl.machine, later)
      else a.intake.captureFailure.Some? ==> at <= later
    case ResumeStop(_, later, id, stored, byteCount, _) =>
      (s.attempts[id].stopSlot.result != StopSucceeded || !stored || !(1 <= byteCount <= MAXIMUM_MP4_BYTES))
      ==> IsCurrent(s.ctl.machine, later)
    case _ => true
  }

  lemma FailedStartFieldsAgreeIff(s: Sys, id: Id, at: int, later: int)
    requires Inv(s) && FieldsAgree(s.ctl) && id in s.attempts && s.attempts[id].startSlot.Won?
    requires s.attempts[id].startSlot.result != StartSucceeded
    ensures FieldsAgree(StartResumed(s, id, at, later).ctl) <==> IsCurrent(s.ctl.machine, at)
  {
    assert AttemptInv(ViewOf(s.ctl, id), s.attempts[id]);
  }

  lemma PublishedFieldsAgreeIff(s: Sys, id: Id, at: int, later: int)
    requires Inv(s) && FieldsAgree(s.ctl) && id in s.attempts && s.attempts[id].startSlot == Won(StartSucceeded)
    requires IsCurrent(s.ctl.machine, at)
    ensures FieldsAgree(StartResumed(s, id, at, later).ctl)
            <==> (s.attempts[id].intake.captureFailure.Some? ==> at <= later)
  {
    assert AttemptInv(ViewOf(s.ctl, id), s.attempts[id]);
  }

  lemma RejectedPublicationFieldsAgreeIff(s: Sys, id: Id, at: int, later: int)
    requires Inv(s) && FieldsAgree(s.ctl) && id in s.attempts && s.attempts[id].startSlot == Won(StartSucceeded)
    requires !IsCurrent(s.ctl.machine, at)
    ensures FieldsAgree(StartResumed(s, id, at, later).ctl) <==> IsCurrent(s.ctl.machine, later)
  {
    assert AttemptInv(ViewOf(s.ctl, id), s.attempts[id]);
  }

  lemma StopFieldsAgreeIff(s: Sys, e: Turn)
    requires Inv(s) && FieldsAgree(s.ctl) && Enabled(s, e) && e.ResumeStop?
    ensures FieldsAgree(Do(s, e).ctl) <==> ReadingsCurrent(s, e)
  {
    assert AttemptInv(ViewOf(s.ctl, e.id), s.attempts[e.id]);
    assert s.ctl.machine.status.phase == Stopping && s.ctl.activeID == Some(e.id);
  }

  lemma StopCallFieldsAgree(s: Sys, t: Sys, at: int, later: int)
    requires Inv(s) && FieldsAgree(s.ctl) && t.ctl == s.ctl && t.attempts.Keys == s.attempts.Keys
    ensures FieldsAgree(StopCall(t, at, later).ctl)
  {
  }

  lemma CallStartFieldsAgreeIff(s: Sys, e: Turn)
    requires Inv(s) && FieldsAgree(s.ctl) && Enabled(s, e) && e.CallStart?
    ensures FieldsAgree(Do(s, e).ctl) <==> ReadingsCurrent(s, e)
  {
  }

  lemma ResumeStartFieldsAgreeIff(s: Sys, e: Turn)
    requires Inv(s) && FieldsAgree(s.ctl) && Enabled(s, e) && e.ResumeStart?
    ensures FieldsAgree(Do(s, e).ctl) <==> ReadingsCurrent(s, e)
  {
    if s.attempts[e.id].startSlot.result != StartSucceeded { FailedStartFieldsAgreeIff(s, e.id, e.at, e.later); }
    else if IsCurrent(s.ctl.machine, e.at) { PublishedFieldsAgreeIff(s, e.id, e.at, e.later); }
    else { RejectedPublicationFieldsAgreeIff(s, e.id, e.at, e.later); }
  }

  lemma StopRequestFieldsAgree(s: Sys, e: Turn)
    requires Inv(s) && FieldsAgree(s.ctl) && Enabled(s, e) && (e.CallStop? || e.Wakeup? || e.Timer?)
    ensures FieldsAgree(Do(s, e).ctl)
  {
    if e.CallStop? { StopCallFieldsAgree(s, s, e.at, e.later); }
    else if e.Wakeup? {
      StopCallFieldsAgree(s, Update(s, e.id, s.attempts[e.id].(wakeups := s.attempts[e.id].wakeups - 1)), e.at, e.later);
    } else {
      StopCallFieldsAgree(s, Update(s, e.id, s.attempts[e.id].(timers := s.attempts[e.id].timers - 1)), e.at, e.later);
    }
  }

  lemma StoreFieldsAgree(s: Sys, e: Turn)
    requires Inv(s) && FieldsAgree(s.ctl) && Enabled(s, e) && (e.CallCleanup? || e.CallDelete?)
    ensures FieldsAgree(Do(s, e).ctl)
  {
    if e.CallCleanup? { CleanupFieldsAgree(s, e); } else { DeleteFieldsAgree(s, e); }
  }

  lemma CleanupFieldsAgree(s: Sys, e: Turn)
    requires Inv(s) && FieldsAgree(s.ctl) && Enabled(s, e) && e.CallCleanup?
    ensures FieldsAgree(Do(s, e).ctl)
  {
  }

  lemma DeleteFieldsAgree(s: Sys, e: Turn)
    requires Inv(s) && FieldsAgree(s.ctl) && Enabled(s, e) && e.CallDelete?
    ensures FieldsAgree(Do(s, e).ctl)
  {
  }

  lemma OperationFieldsAgree(s: Sys, e: Turn)
    requires Inv(s) && FieldsAgree(s.ctl) && Enabled(s, e) && !Clocked(e) && !e.CallCleanup? && !e.CallDelete?
    ensures FieldsAgree(Do(s, e).ctl)
  {
  }

  /** Whatever the clock does, one turn keeps fields and phase in agreement exactly when those readings are current. */
  lemma TurnKeepsFieldsAgreeIff(s: Sys, e: Turn)
    requires Inv(s) && FieldsAgree(s.ctl) && Enabled(s, e)
    ensures FieldsAgree(Do(s, e).ctl) <==> ReadingsCurrent(s, e)
  {
    if e.CallStart? { CallStartFieldsAgreeIff(s, e); }
    else if e.ResumeStart? { ResumeStartFieldsAgreeIff(s, e); }
    else if e.ResumeStop? { StopFieldsAgreeIff(s, e); }
    else if Clocked(e) { StopRequestFieldsAgree(s, e); }
    else if e.CallCleanup? || e.CallDelete? { StoreFieldsAgree(s, e); }
    else { OperationFieldsAgree(s, e); }
  }

  ghost predicate AllReadingsCurrent(s: Sys, es: seq<Turn>)
    requires Legal(s, es)
    decreases |es|
  {
    es != [] ==> ReadingsCurrent(s, es[0]) && AllReadingsCurrent(Do(s, es[0]), es[1..])
  }

  /** The fields agree with the phase in every state of the run. */
  ghost predicate AlwaysAgree(s: Sys, es: seq<Turn>)
    requires Legal(s, es)
    decreases |es|
  {
    FieldsAgree(s.ctl) && (es != [] ==> AlwaysAgree(Do(s, es[0]), es[1..]))
  }

  lemma {:induction false} AgreeIffFrom(s: Sys, es: seq<Turn>)
    requires Inv(s) && FieldsAgree(s.ctl) && Legal(s, es)
    ensures AlwaysAgree(s, es) <==> AllReadingsCurrent(s, es)
    decreases |es|
  {
    if es != [] {
      TurnKeepsFieldsAgreeIff(s, es[0]);
      StepKeepsInv(s, es[0]);
      if FieldsAgree(Do(s, es[0]).ctl) { AgreeIffFrom(Do(s, es[0]), es[1..]); }
    }
  }

  /** In any run the fields always agree with the phase if and only if every such reading is current. */
  lemma FieldsAgreeIff(clock: int, es: seq<Turn>)
    requires Execution(clock, es)
    ensures AlwaysAgree(Initial(clock), es) <==> AllReadingsCurrent(Initial(clock), es)
  {
    InitialInv(clock);
    AgreeIffFrom(Initial(clock), es);
  }

  /** While the machine records, the guard in `stop` on missing fields fails exactly when the fields do not agree. */
  lemma StopGuardFailsIff(clock: int, es: seq<Turn>)
    requires Execution(clock, es) && State(clock, es).ctl.machine.status.phase == Recording
    ensures var s := State(clock, es);
            (&& s.ctl.writer.Some? && s.ctl.intake.Some? && s.ctl.activeURL.Some? && s.ctl.captureStartedAt.Some?
             && s.ctl.activeID.Some? && s.ctl.activeID.value in s.attempts) <==> FieldsAgree(s.ctl)
  {
    StateInv(clock, es);
  }

  // ---------------------------------------------------------------- pending failures

  /** No failure is lost and no recording is endless: while one runs, its timer and the wake-up of its failure are
      pending. */
  ghost predicate StopsPending(s: Sys) {
    forall id :: id in s.attempts ==> StopPending(s.ctl, id, s.attempts[id])
  }

  ghost predicate StopPending(c: Fields, id: Id, a: Attempt) {
    c.activeID == Some(id) && c.machine.status.phase == Recording ==>
      a.timers > 0 && (a.intake.captureFailure.Some? ==> a.wakeups > 0)
  }

  /** The timer of the attempt that records, and its last pending wake-up, run with a reading the machine accepts. */
  predicate LastCallbackCurrent(s: Sys, e: Turn)
    requires Enabled(s, e)
  {
    (&& (e.Wakeup? || e.Timer?) && s.ctl.activeID == Some(e.id) && s.ctl.machine.status.phase == Recording
     && (if e.Wakeup? then s.attempts[e.id].wakeups else s.attempts[e.id].timers) == 1)
    ==> IsCurrent(s.ctl.machine, e.at)
  }

  /** A turn of one attempt that leaves the active attempt and the phase alone. */
  lemma PendingElsewhere(s: Sys, t: Sys, id: Id, a: Attempt)
    requires StopsPending(s) && t.attempts == s.attempts[id := a]
    requires t.ctl.activeID == s.ctl.activeID && t.ctl.machine.status.phase == s.ctl.machine.status.phase
    ensures StopsPending(t) <==> StopPending(t.ctl, id, a)
  {
    forall j | j in t.attempts && j != id ensures StopPending(t.ctl, j, t.attempts[j]) {
      assert StopPending(s.ctl, j, s.attempts[j]);
    }
    assert t.attempts[id] == a;
  }

  /** An operation, a deadline or a callback of one attempt. */
  lemma OperationKeepsPending(s: Sys, e: Turn)
    requires StopsPending(s) && Enabled(s, e) && !Clocked(e) && !e.CallCleanup? && !e.CallDelete?
    ensures StopsPending(Do(s, e))
  {
    assert StopPending(s.ctl, e.id, s.attempts[e.id]);
    PendingElsewhere(s, Do(s, e), e.id, Do(s, e).attempts[e.id]);
  }

  lemma CallKeepsPending(s: Sys, e: Turn)
    requires Inv(s) && StopsPending(s) && Enabled(s, e) && (e.CallStart? || e.CallStop?)
    ensures StopsPending(Do(s, e))
  {
    var t := Do(s, e);
    if t.ctl.machine.status.phase == Recording {
      assert t.ctl == s.ctl && t.attempts == s.attempts;
      forall j | j in t.attempts ensures StopPending(t.ctl, j, t.attempts[j]) {
        assert StopPending(s.ctl, j, s.attempts[j]);
      }
    }
  }

  lemma StoreKeepsPending(s: Sys, e: Turn)
    requires Inv(s) && StopsPending(s) && Enabled(s, e) && (e.CallCleanup? || e.CallDelete?)
    ensures StopsPending(Do(s, e))
  {
    if s.ctl.machine.status.phase == Recording { assert Do(s, e) == s; }
    else { assert Do(s, e).ctl.machine.status.phase != Recording; }
  }

  /** Publication comes to rest in phase recording only when it saw no failure. */
  lemma ResumedStartKeepsPending(s: Sys, e: Turn)
    requires Inv(s) && Enabled(s, e) && e.ResumeStart?
    ensures StopsPending(Do(s, e))
  {
    assert AttemptInv(ViewOf(s.ctl, e.id), s.attempts[e.id]);
    assert s.ctl.machine.status.phase == Starting && s.ctl.activeID == Some(e.id);
    var t := StartResumed(s, e.id, e.at, e.later);
    if t.ctl.machine.status.phase == Recording && t.ctl.activeID.Some? {
      assert t.ctl.activeID == Some(e.id) && t.attempts[e.id].intake.captureFailure.None?;
    }
  }

  lemma ResumedStopKeepsPending(s: Sys, e: Turn)
    requires Inv(s) && Enabled(s, e) && e.ResumeStop?
    ensures StopsPending(Do(s, e))
  {
    assert AttemptInv(ViewOf(s.ctl, e.id), s.attempts[e.id]);
    assert s.ctl.machine.status.phase == Stopping;
    assert Do(s, e).ctl.machine.status.phase != Recording;
  }

  lemma CallbackKeepsPendingIff(s: Sys, e: Turn)
    requires Inv(s) && StopsPending(s) && Enabled(s, e) && (e.Wakeup? || e.Timer?)
    ensures StopsPending(Do(s, e)) <==> LastCallbackCurrent(s, e)
  {
    var a := s.attempts[e.id];
    assert AttemptInv(ViewOf(s.ctl, e.id), a) && StopPending(s.ctl, e.id, a);
    if s.ctl.activeID == Some(e.id) && s.ctl.machine.status.phase == Recording && IsCurrent(s.ctl.machine, e.at) {
      WakeupStopsTheRecordingIff(s, e);
    } else {
      PendingElsewhere(s, Do(s, e), e.id, Do(s, e).attempts[e.id]);
    }
  }

  lemma TurnKeepsPendingIff(s: Sys, e: Turn)
    requires Inv(s) && StopsPending(s) && Enabled(s, e)
    ensures StopsPending(Do(s, e)) <==> LastCallbackCurrent(s, e)
  {
    if e.Wakeup? || e.Timer? { CallbackKeepsPendingIff(s, e); }
    else if e.CallStart? || e.CallStop? { CallKeepsPending(s, e); }
    else if e.CallCleanup? || e.CallDelete? { StoreKeepsPending(s, e); }
    else if e.ResumeStart? { ResumedStartKeepsPending(s, e); }
    else if e.ResumeStop? { ResumedStopKeepsPending(s, e); }
    else { OperationKeepsPending(s, e); }
  }

  ghost predicate AllLastCallbacksCurrent(s: Sys, es: seq<Turn>)
    requires Legal(s, es)
    decreases |es|
  {
    es != [] ==> LastCallbackCurrent(s, es[0]) && AllLastCallbacksCurrent(Do(s, es[0]), es[1..])
  }

  ghost predicate AlwaysPending(s: Sys, es: seq<Turn>)
    requires Legal(s, es)
    decreases |es|
  {
    StopsPending(s) && (es != [] ==> AlwaysPending(Do(s, es[0]), es[1..]))
  }

  lemma {:induction false} PendingIffFrom(s: Sys, es: seq<Turn>)
    requires Inv(s) && StopsPending(s) && Legal(s, es)
    ensures AlwaysPending(s, es) <==> AllLastCallbacksCurrent(s, es)
    decreases |es|
  {
    if es != [] {
      TurnKeepsPendingIff(s, es[0]);
      StepKeepsInv(s, es[0]);
      if StopsPending(Do(s, es[0])) { PendingIffFrom(Do(s, es[0]), es[1..]); }
    }
  }

  /**
   In any run no failure is lost, and no recording left without its timer, if and only if no timer of the
   attempt that records and no last pending wake-up of it is consumed with a stale reading.
   */
  lemma NoFailureIsLostIff(clock: int, es: seq<Turn>)
    requires Execution(clock, es)
    ensures AlwaysPending(Initial(clock), es) <==> AllLastCallbacksCurrent(Initial(clock), es)
  {
    InitialInv(clock);
    PendingIffFrom(Initial(clock), es);
  }

  /** A pending wake-up or timer, when it runs, takes the recording to phase stopping exactly when its reading is current. */
  lemma WakeupStopsTheRecordingIff(s: Sys, e: Turn)
    requires Inv(s) && Enabled(s, e) && (e.Wakeup? || e.Timer?)
    requires s.ctl.activeID == Some(e.id) && s.ctl.machine.status.phase == Recording
    ensures Do(s, e).ctl.machine.status.phase == Stopping <==> IsCurrent(s.ctl.machine, e.at)
    ensures IsCurrent(s.ctl.machine, e.at) ==>
              Do(s, e).attempts[e.id].stopOp == StopQueued && Do(s, e).attempts[e.id].stopSlot == Open
  {
  }

  // ------------------------------------------------------- a clock that never goes back

  /** The last event is not newer than the last reading of the clock. */
  predicate Settled(s: Sys) {
    s.ctl.machine.lastEventAt.Some? ==> s.ctl.machine.lastEventAt.value <= s.clock
  }

  lemma CallStartKeepsSettled(s: Sys, e: Turn)
    requires Inv(s) && Settled(s) && Enabled(s, e) && Monotone(s, e) && e.CallStart?
    ensures Settled(Do(s, e))
  {
  }

  lemma ResumeStartKeepsSettled(s: Sys, e: Turn)
    requires Inv(s) && Settled(s) && Enabled(s, e) && Monotone(s, e) && e.ResumeStart?
    ensures Settled(Do(s, e))
  {
  }

  lemma StopTurnKeepsSettled(s: Sys, e: Turn)
    requires Inv(s) && Settled(s) && Enabled(s, e) && Monotone(s, e) && (e.CallStop? || e.Wakeup? || e.Timer?)
    ensures Settled(Do(s, e))
  {
  }

  lemma ResumedStopKeepsSettled(s: Sys, e: Turn)
    requires Inv(s) && Settled(s) && Enabled(s, e) && Monotone(s, e) && e.ResumeStop?
    ensures Settled(Do(s, e))
  {
    assert AttemptInv(ViewOf(s.ctl, e.id), s.attempts[e.id]);
    assert s.ctl.machine.lastEventAt == Some(s.attempts[e.id].stoppedAt);
  }

  lemma TurnKeepsSettled(s: Sys, e: Turn)
    requires Inv(s) && Settled(s) && Enabled(s, e) && Monotone(s, e)
    ensures Settled(Do(s, e))
  {
    if e.CallStart? { CallStartKeepsSettled(s, e); }
    else if e.ResumeStart? { ResumeStartKeepsSettled(s, e); }
    else if e.CallStop? || e.Wakeup? || e.Timer? { StopTurnKeepsSettled(s, e); }
    else if e.ResumeStop? { ResumedStopKeepsSettled(s, e); }
  }

  lemma {:induction false} MonotoneFrom(s: Sys, es: seq<Turn>)
    requires Inv(s) && Settled(s) && Legal(s, es) && MonotoneClock(s, es)
    ensures AllReadingsCurrent(s, es) && AllLastCallbacksCurrent(s, es)
    decreases |es|
  {
    if es != [] {
      StepKeepsInv(s, es[0]);
      TurnKeepsSettled(s, es[0]);
      MonotoneFrom(Do(s, es[0]), es[1..]);
    }
  }

  /** Under such a clock the fields always agree with the phase and no failure is lost. */
  lemma MonotoneClockSuffices(clock: int, es: seq<Turn>)
    requires Execution(clock, es) && MonotoneClock(Initial(clock), es)
    ensures AlwaysAgree(Initial(clock), es) && AlwaysPending(Initial(clock), es)
  {
    InitialInv(clock);
    MonotoneFrom(Initial(clock), es);
    FieldsAgreeIff(clock, es);
    NoFailureIsLostIff(clock, es);
  }

  // ------------------------------------------------------------ a clock that goes back

  lemma {:induction false} OneMore(s: Sys, es: seq<Turn>, e: Turn)
    requires Legal(s, es) && Enabled(After(s, es), e)
    ensures Legal(s, es + [e]) && After(s, es + [e]) == Do(After(s, es), e)
    decreases |es|
  {
    if es == [] {
      assert es + [e] == [e] && [e][1..] == [];
    } else {
      assert (es + [e])[1..] == es[1..] + [e];
      OneMore(Do(s, es[0]), es[1..], e);
    }
  }

  /** A run to the point where the capture has started. */
  lemma CaptureHasStarted() returns (es: seq<Turn>)
    ensures Legal(Initial(0), es)
    ensures var s := After(Initial(0), es);
            && "a" in s.attempts && s.attempts["a"].startSlot == Won(StartSucceeded)
            && s.attempts["a"].intake.captureFailure.None? && s.attempts["a"].startOp == StartOver
            && s.attempts["a"].wakeups == 0 && s.ctl.activeID == Some("a")
            && s.ctl.machine.status.phase == Starting && s.ctl.machine.lastEventAt == Some(0)
  {
    es := [];
    OneMore(Initial(0), es, CallStart(0, 0, "a", 120_000, true, true));
    es := es + [CallStart(0, 0, "a", 120_000, true, true)];
    assert After(Initial(0), es).attempts["a"] == FRESH_ATTEMPT;
    OneMore(Initial(0), es, IssueStart("a"));
    es := es + [IssueStart("a")];
    assert After(Initial(0), es).attempts["a"].startOp == StartInFlight;
    OneMore(Initial(0), es, StartReturns("a", true));
    es := es + [StartReturns("a", true)];
  }

  /** A clock stepping back between publication and the stop it begins leaves phase recording with no attempt. */
  lemma BackwardClockWedges()
    ensures exists es :: Legal(Initial(0), es)
              && var c := After(Initial(0), es).ctl;
                 c.machine.status.phase == Recording && c.activeID.None? && !FieldsAgree(c)
  {
    var es := CaptureHasStarted();
    OneMore(Initial(0), es, CaptureFails("a", "capture"));
    es := es + [CaptureFails("a", "capture")];
    var s := After(Initial(0), es);
    OneMore(Initial(0), es, ResumeStart(5, 4, "a"));
    var c := StartResumed(s, "a", 5, 4).ctl;
    assert c.machine.status.phase == Recording && c.activeID.None?;
    assert After(Initial(0), es + [ResumeStart(5, 4, "a")]).ctl == c;
  }

  /** A run to phase recording with one failure reported since. */
  lemma FailedWhileRecording() returns (es: seq<Turn>)
    ensures Legal(Initial(0), es)
    ensures var s := After(Initial(0), es);
            && "a" in s.attempts && s.attempts["a"].intake.captureFailure.Some? && s.attempts["a"].wakeups == 1
            && s.ctl.activeID == Some("a") && s.ctl.machine.status.phase == Recording && s.ctl.machine.lastEventAt == Some(5)
  {
    es := CaptureHasStarted();
    OneMore(Initial(0), es, ResumeStart(5, 5, "a"));
    es := es + [ResumeStart(5, 5, "a")];
    OneMore(Initial(0), es, CaptureFails("a", "capture"));
    es := es + [CaptureFails("a", "capture")];
  }

  /** A clock stepping back before the wake-up of a failure runs leaves the attempt recording and the failure unheeded. */
  lemma BackwardClockLosesAFailure()
    ensures exists es :: Legal(Initial(0), es) && !StopsPending(After(Initial(0), es))
  {
    var es := FailedWhileRecording();
    var s := After(Initial(0), es);
    OneMore(Initial(0), es, Wakeup(4, 4, "a"));
    var t := Do(s, Wakeup(4, 4, "a"));
    assert After(Initial(0), es + [Wakeup(4, 4, "a")]) == t;
    assert !StopPending(t.ctl, "a", t.attempts["a"]);
  }
}
