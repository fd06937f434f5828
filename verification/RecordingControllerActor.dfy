/**
 The recording controller as the actor it is: its fields, and one method per
 stretch of code between two suspension points. Every method is one turn of the
 controller, whenever that turn can happen and whatever the clock reads, and keeps
 the invariant; so every run of the methods is a run of the turns.

 `attempts` stands for what the methods spawn: operation and timer tasks, race
 gates and sample intakes. `later` is the second clock reading of a stretch, the
 one a catch block or a nested stop takes.
 */
module RecordingControllerActor {
  import opened Prelude
  import opened RecordingStateMachine
  import opened RecordingController
  import opened RecordingControllerInvariant
  import Intake = RecordingSampleIntake

  class Controller {
    const machine: StateMachine
    var writer: Option<Id>
    var intake: Option<Id>
    var activeID: Option<Id>
    var activeURL: Option<Url>
    var captureStartedAt: Option<int>
    var unsettledStartID: Option<Id>
    var automaticStop: Option<Id>
    var attempts: map<Id, Attempt>
    ghost var clock: int

    ghost function View(): Sys
      reads this, machine
    {
      Sys(Fields(machine.View(), writer, intake, activeID, activeURL, captureStartedAt, unsettledStartID, automaticStop),
          attempts, clock)
    }

    ghost predicate Valid()
      reads this, machine
    {
      Inv(View())
    }

    constructor (ghost now: int)
      ensures fresh(machine) && Valid() && View() == Initial(now)
    {
      machine := new StateMachine();
      writer, intake, activeID, activeURL := None, None, None, None;
      captureStartedAt, unsettledStartID, automaticStop := None, None, None;
      attempts := map[];
      clock := now;
      new;
      InitialInv(now);
    }

    method ClearFields()
      modifies this
      ensures View() == ClearActive(old(View()))
    {
      automaticStop := None;
      if intake.Some? && intake.value in attempts {
        var a := attempts[intake.value];
        attempts := attempts[intake.value := a.(intake := Intake.StopAccepting(a.intake))];
      }
      intake := None;
      writer := None;
      activeID := None;
      activeURL := None;
      captureStartedAt := None;
    }

    method SettleStartOperation(id: Id)
      modifies this`unsettledStartID
      ensures View() == old(View()).(ctl := SettleStart(old(View()).ctl, id))
    {
      if unsettledStartID == Some(id) { unsettledStartID := None; }
    }

    method CatchStart(code: string, at: int)
      modifies this, machine
      ensures View() == StartCatch(old(View()), code, at)
    {
      if machine.status.phase == Starting { var _ := machine.ApplyEvent(Failure(code, at)); }
      ClearFields();
    }

    method CatchStop(code: string, at: int)
      modifies this, machine
      ensures View() == StopCatch(old(View()), code, at)
    {
      var _ := machine.ApplyEvent(Failure(code, at));
      ClearFields();
    }

    /** `start` up to the race with the permission deadline; false when it throws instead of suspending. */
    method Start(at: int, later: int, id: Id, duration: int, storeOk: bool, available: bool) returns (suspended: bool)
      requires Valid() && Enabled(View(), CallStart(at, later, id, duration, storeOk, available))
      modifies this, machine
      ensures Valid() && View() == Do(old(View()), CallStart(at, later, id, duration, storeOk, available))
      ensures suspended ==> id in attempts && unsettledStartID == Some(id) && old(unsettledStartID) == None
    {
      StepKeepsInv(View(), CallStart(at, later, id, duration, storeOk, available));
      suspended := BeginStart(at, later, id, duration, storeOk, available);
      clock := later;
    }

    method BeginStart(at: int, later: int, id: Id, duration: int, storeOk: bool, available: bool) returns (suspended: bool)
      modifies this, machine
      ensures View() == StartCall(old(View()), at, later, id, duration, storeOk, available)
      ensures suspended ==> id in attempts && unsettledStartID == Some(id) && old(unsettledStartID) == None
    {
      if duration < 1_000 || duration > 600_000 { return false; }
      if unsettledStartID.Some? { return false; }
      if machine.status.phase == Failed { var _ := machine.ApplyEvent(Reset); }
      var accepted := machine.ApplyEvent(StartRequested(at, duration));
      if !accepted { return false; }
      if !storeOk || !available {
        CatchStart(NOT_AVAILABLE_CODE, later);
        return false;
      }
      activeID := Some(id);
      activeURL := Some(Partial(id));
      writer := Some(id);
      intake := Some(id);
      unsettledStartID := Some(id);
      attempts := attempts[id := FRESH_ATTEMPT];
      suspended := true;
    }

    /** The capture operation runs: it calls source.start and waits. No other start is outstanding. */
    method StartCapture(id: Id)
      requires Valid() && Enabled(View(), IssueStart(id))
      modifies this`attempts
      ensures Valid() && View() == Do(old(View()), IssueStart(id))
      ensures NoOtherStart(View(), id)
    {
      OnlyOneStart(View(), id);
      StepKeepsInv(View(), IssueStart(id));
      attempts := attempts[id := attempts[id].(startOp := StartInFlight)];
    }

    /** The timeout task of a start resolves its race; the operation may have won it already. */
    method StartRaceTimedOut(id: Id, result: StartResult)
      requires Valid() && Enabled(View(), StartDeadline(id, result))
      modifies this`attempts
      ensures Valid() && View() == Do(old(View()), StartDeadline(id, result))
    {
      StepKeepsInv(View(), StartDeadline(id, result));
      attempts := attempts[id := attempts[id].(startSlot := Offer(attempts[id].startSlot, result))];
    }

    /** `startCapture` when source.start has returned or thrown. */
    method StartCaptureReturned(id: Id, ok: bool)
      requires Valid() && Enabled(View(), StartReturns(id, ok))
      modifies this
      ensures Valid() && View() == Do(old(View()), StartReturns(id, ok))
    {
      StepKeepsInv(View(), StartReturns(id, ok));
      var a := attempts[id];
      if !ok {
        SettleStartOperation(id);
        attempts := attempts[id := a.(startOp := StartOver, startSlot := Offer(a.startSlot, StartFailed))];
        return;
      }
      var belongsToCurrentStart :=
        unsettledStartID == Some(id) && activeID == Some(id) && machine.status.phase == Starting;
      if !belongsToCurrentStart {
        attempts := attempts[id := a.(startOp := DiscardInFlight)];
        return;
      }
      SettleStartOperation(id);
      if a.intake.captureFailure.Some? {
        attempts := attempts[id := a.(startOp := AbortInFlight)];
      } else {
        attempts := attempts[id := a.(startOp := StartOver, startSlot := Offer(a.startSlot, StartSucceeded))];
      }
    }

    /** The source.stop of a start that came too late has returned. */
    method DiscardedStartStopped(id: Id)
      requires Valid() && Enabled(View(), DiscardReturns(id))
      modifies this
      ensures Valid() && View() == Do(old(View()), DiscardReturns(id))
    {
      StepKeepsInv(View(), DiscardReturns(id));
      var a := attempts[id];
      SettleStartOperation(id);
      attempts := attempts[id := a.(startOp := StartOver, startSlot := Offer(a.startSlot, StartFailed))];
    }

    /** The source.stop of a start that saw a capture failure has returned. */
    method AbortedStartStopped(id: Id)
      requires Valid() && Enabled(View(), AbortReturns(id))
      modifies this`attempts
      ensures Valid() && View() == Do(old(View()), AbortReturns(id))
    {
      StepKeepsInv(View(), AbortReturns(id));
      var a := attempts[id];
      attempts := attempts[id := a.(startOp := StartOver, startSlot := Offer(a.startSlot, StartFailed))];
    }

    /** `start` after its race: publish and record, or go straight into `stop`, or catch. */
    method ResumeStart(id: Id, at: int, later: int)
      requires Valid() && Enabled(View(), RecordingController.ResumeStart(at, later, id))
      modifies this, machine
      ensures Valid() && View() == Do(old(View()), RecordingController.ResumeStart(at, later, id))
    {
      StepKeepsInv(View(), RecordingController.ResumeStart(at, later, id));
      FinishStart(id, at, later);
      clock := later;
    }

    method FinishStart(id: Id, at: int, later: int)
      requires id in attempts && attempts[id].startSlot.Won?
      modifies this, machine
      ensures View() == StartResumed(old(View()), id, at, later)
    {
      var a := attempts[id];
      attempts := attempts[id := a.(startSlot := Delivered)];
      if a.startSlot.result != StartSucceeded {
        CatchStart(StartErrorCode(a.startSlot.result), at);
        return;
      }
      captureStartedAt := Some(at);
      var published := machine.ApplyEvent(CaptureStarted(at));
      if !published {
        CatchStart(NOT_AVAILABLE_CODE, later);
        return;
      }
      if a.intake.captureFailure.Some? {
        var stopping := Stop(later, later, true);
        if !stopping { CatchStart(NOT_AVAILABLE_CODE, later); }
        return;
      }
      automaticStop := Some(id);
      attempts := attempts[id := attempts[id].(timers := a.timers + 1)];
    }

    /** `stop` up to its race; false when the state machine rejects the request and nothing changes. */
    method Stop(at: int, later: int, fromStart: bool) returns (accepted: bool)
      modifies this, machine
      ensures accepted <==> StopBegin(old(View()), at, later, fromStart).Some?
      ensures View() == (if accepted then StopBegin(old(View()), at, later, fromStart).value else old(View()))
    {
      accepted := machine.ApplyEvent(StopRequested(at));
      if !accepted { return; }
      automaticStop := None;
      if writer.None? || intake.None? || activeID.None? || activeURL.None? || captureStartedAt.None?
         || activeID.value !in attempts {
        CatchStop(NOT_AVAILABLE_CODE, later);
        return;
      }
      var a := attempts[activeID.value];
      attempts := attempts[activeID.value :=
        a.(stopOp := StopQueued, stopSlot := Open, stopFromStart := fromStart,
           startedAt := captureStartedAt.value, stoppedAt := at)];
    }

    /** A caller's `stop` up to its race; false when it throws at once. */
    method StopNow(at: int, later: int) returns (accepted: bool)
      requires Valid() && Enabled(View(), CallStop(at, later))
      modifies this, machine
      ensures Valid() && View() == Do(old(View()), CallStop(at, later))
    {
      StepKeepsInv(View(), CallStop(at, later));
      accepted := Stop(at, later, false);
      clock := later;
    }

    method StopIfCurrentRecording(id: Id, at: int, later: int)
      modifies this, machine
      ensures View() == StopIfCurrent(old(View()), id, at, later)
    {
      if activeID != Some(id) || machine.status.phase != Recording { return; }
      var _ := Stop(at, later, false);
    }

    /** The task of a failure callback runs. */
    method FailureTaskRan(id: Id, at: int, later: int)
      requires Valid() && Enabled(View(), Wakeup(at, later, id))
      modifies this, machine
      ensures Valid() && View() == Do(old(View()), Wakeup(at, later, id))
    {
      StepKeepsInv(View(), Wakeup(at, later, id));
      attempts := attempts[id := attempts[id].(wakeups := attempts[id].wakeups - 1)];
      StopIfCurrentRecording(id, at, later);
      clock := later;
    }

    /** An automatic stop task has slept for the maximum duration. */
    method TimerTaskRan(id: Id, at: int, later: int)
      requires Valid() && Enabled(View(), Timer(at, later, id))
      modifies this, machine
      ensures Valid() && View() == Do(old(View()), Timer(at, later, id))
    {
      StepKeepsInv(View(), Timer(at, later, id));
      attempts := attempts[id := attempts[id].(timers := attempts[id].timers - 1)];
      StopIfCurrentRecording(id, at, later);
      clock := later;
    }

    /** The stop operation runs: it calls source.stop and waits. */
    method StopSource(id: Id)
      requires Valid() && Enabled(View(), IssueStop(id))
      modifies this`attempts
      ensures Valid() && View() == Do(old(View()), IssueStop(id))
    {
      StepKeepsInv(View(), IssueStop(id));
      attempts := attempts[id := attempts[id].(stopOp := SourceStopping)];
    }

    /** The timeout task of a stop resolves its race; the operation may have won it already. */
    method StopRaceTimedOut(id: Id, result: StopResult)
      requires Valid() && Enabled(View(), StopDeadlinePasses(id, result))
      modifies this`attempts
      ensures Valid() && View() == Do(old(View()), StopDeadlinePasses(id, result))
    {
      StepKeepsInv(View(), StopDeadlinePasses(id, result));
      attempts := attempts[id := attempts[id].(stopSlot := Offer(attempts[id].stopSlot, result))];
    }

    /** The stop operation when source.stop has returned or thrown: check for cancellation, close the intake. */
    method SourceStopped(id: Id, ok: bool, cancelled: bool)
      requires Valid() && Enabled(View(), StopReturns(id, ok, cancelled))
      modifies this`attempts
      ensures Valid() && View() == Do(old(View()), StopReturns(id, ok, cancelled))
    {
      StepKeepsInv(View(), StopReturns(id, ok, cancelled));
      var a := attempts[id];
      if ok && !cancelled {
        attempts := attempts[id := a.(stopOp := Draining, intake := Intake.StopAccepting(a.intake))];
      } else {
        attempts := attempts[id := a.(stopOp := StopOver, stopSlot := Offer(a.stopSlot, StopFailed))];
      }
    }

    /** The stop operation when the worker has ended: the worker's error, then the recorded failure, then cancellation. */
    method Drained(id: Id, cancelled: bool)
      requires Valid() && Enabled(View(), DrainReturns(id, cancelled))
      modifies this`attempts
      ensures Valid() && View() == Do(old(View()), DrainReturns(id, cancelled))
    {
      StepKeepsInv(View(), DrainReturns(id, cancelled));
      var a := attempts[id];
      var over := a.(stopOp := StopOver, stopSlot := Offer(a.stopSlot, StopFailed));
      if a.intake.worker == Intake.Threw {
        attempts := attempts[id := over];
      } else if a.intake.captureFailure.Some? {
        attempts := attempts[id := over];
      } else if cancelled {
        attempts := attempts[id := over.(drainPassed := true)];
      } else {
        attempts := attempts[id := a.(stopOp := Finishing, drainPassed := true)];
      }
    }

    /** The stop operation when writer.finish has returned or thrown. */
    method WriterFinishReturned(id: Id, ok: bool)
      requires Valid() && Enabled(View(), FinishReturns(id, ok))
      modifies this`attempts
      ensures Valid() && View() == Do(old(View()), FinishReturns(id, ok))
    {
      StepKeepsInv(View(), FinishReturns(id, ok));
      var a := attempts[id];
      attempts := attempts[id :=
        a.(stopOp := StopOver, stopSlot := Offer(a.stopSlot, if ok then StopSucceeded else StopFailed))];
    }

    /** `stop` after its race: move, read, describe and finish, or catch at the instant `later`. What is ready is
        complete. */
    method ResumeStop(id: Id, at: int, later: int, stored: bool, byteCount: int, sha256: string)
      requires Valid() && Enabled(View(), RecordingController.ResumeStop(at, later, id, stored, byteCount, sha256))
      modifies this, machine
      ensures Valid()
      ensures View() == Do(old(View()), RecordingController.ResumeStop(at, later, id, stored, byteCount, sha256))
      ensures ReadyIsComplete(View())
    {
      ghost var turn := RecordingController.ResumeStop(at, later, id, stored, byteCount, sha256);
      StepKeepsInv(View(), turn);
      ReadyWasDrained(Do(View(), turn));
      FinishStop(id, later, stored, byteCount, sha256);
      clock := later;
    }

    method FinishStop(id: Id, at: int, stored: bool, byteCount: int, sha256: string)
      requires id in attempts && attempts[id].stopSlot.Won?
      modifies this, machine
      ensures View() == StopResumed(old(View()), id, at, stored, byteCount, sha256)
    {
      var a := attempts[id];
      attempts := attempts[id := a.(stopSlot := Delivered)];
      var code := StopErrorCode(a.stopSlot.result);
      if a.stopSlot.result == StopSucceeded && stored && 1 <= byteCount <= MAXIMUM_MP4_BYTES {
        activeURL := Some(Final(id));
        var duration := if a.stoppedAt - a.startedAt > 0 then a.stoppedAt - a.startedAt else 0;
        var finished := machine.ApplyEvent(WriterFinished(Metadata(id, byteCount, duration, sha256, a.stoppedAt)));
        if finished {
          if a.stopFromStart {
            automaticStop := Some(id);
            attempts := attempts[id := attempts[id].(timers := a.timers + 1)];
          }
          return;
        }
        code := NOT_AVAILABLE_CODE;
      }
      CatchStop(code, at);
      if a.stopFromStart { CatchStart(NOT_AVAILABLE_CODE, at); }
    }

    /** `removed` is what the retention policy deletes from the store. */
    method CleanUp(removed: set<Id>)
      requires Valid()
      modifies this, machine
      ensures Valid() && View() == Do(old(View()), CallCleanup(removed))
    {
      StepKeepsInv(View(), CallCleanup(removed));
      if machine.status.phase == Ready && machine.status.recording.Some? {
        var current := machine.status.recording.value.id;
        if current in removed {
          var _ := machine.ApplyEvent(DownloadedAndDeleted(current));
          ClearFields();
        }
      }
    }

    method DeleteRecording(id: Id, removed: set<Id>, found: bool)
      requires Valid()
      modifies this, machine
      ensures Valid() && View() == Do(old(View()), CallDelete(id, removed, found))
    {
      StepKeepsInv(View(), CallDelete(id, removed, found));
      CleanUp(removed);
      if !found { return; }
      if machine.status.phase == Ready && machine.status.recording.Some? && machine.status.recording.value.id == id {
        var _ := machine.ApplyEvent(DownloadedAndDeleted(id));
        ClearFields();
      }
    }

    /** The failure handler of the capture source: record the failure, spawn a task that stops the recording. */
    method CaptureFailureReported(id: Id, error: Intake.CaptureError)
      requires Valid() && Enabled(View(), CaptureFails(id, error))
      modifies this`attempts
      ensures Valid() && View() == Do(old(View()), CaptureFails(id, error))
    {
      StepKeepsInv(View(), CaptureFails(id, error));
      ghost var after := CaptureFailed(View(), id, error);
      var a := attempts[id];
      a := a.(intake := Intake.Fail(a.intake, error), wakeups := a.wakeups + 1,
              failedBeforeDrain := a.failedBeforeDrain || !a.drainPassed);
      attempts := attempts[id := a];
      assert attempts == after.attempts;
    }

    /** The sample handler of the capture source. */
    method SampleArrived(id: Id, sample: Intake.Sample)
      requires Valid() && Enabled(View(), CaptureSample(id, sample))
      modifies this`attempts
      ensures Valid() && View() == Do(old(View()), CaptureSample(id, sample))
    {
      StepKeepsInv(View(), CaptureSample(id, sample));
      attempts := attempts[id := attempts[id].(intake := Intake.Enqueue(attempts[id].intake, sample))];
    }

    /** One pass of the worker of an attempt. */
    method WorkerAdvanced(id: Id, ok: bool)
      requires Valid() && Enabled(View(), WorkerRuns(id, ok))
      modifies this`attempts
      ensures Valid() && View() == Do(old(View()), WorkerRuns(id, ok))
    {
      StepKeepsInv(View(), WorkerRuns(id, ok));
      attempts := attempts[id := attempts[id].(intake := Intake.WorkerTurn(attempts[id].intake, ok))];
    }

    /** The executor runs one enabled turn: whatever its order, a sequence of these is a run of the turns. */
    method Perform(e: Turn)
      requires Valid() && Enabled(View(), e)
      modifies this, machine
      ensures Valid() && View() == Do(old(View()), e)
    {
      match e {
        case CallStart(at, later, id, duration, storeOk, available) =>
          var _ := Start(at, later, id, duration, storeOk, available);
        case ResumeStart(at, later, id) => ResumeStart(id, at, later);
        case CallStop(at, later) => var _ := StopNow(at, later);
        case Wakeup(at, later, id) => FailureTaskRan(id, at, later);
        case Timer(at, later, id) => TimerTaskRan(id, at, later);
        case ResumeStop(at, later, id, stored, byteCount, sha256) => ResumeStop(id, at, later, stored, byteCount, sha256);
        case CallCleanup(removed) => CleanUp(removed);
        case CallDelete(id, removed, found) => DeleteRecording(id, removed, found);
        case IssueStart(id) => StartCapture(id);
        case StartReturns(id, ok) => StartCaptureReturned(id, ok);
        case DiscardReturns(id) => DiscardedStartStopped(id);
        case AbortReturns(id) => AbortedStartStopped(id);
        case StartDeadline(id, result) => StartRaceTimedOut(id, result);
        case IssueStop(id) => StopSource(id);
        case StopReturns(id, ok, cancelled) => SourceStopped(id, ok, cancelled);
        case DrainReturns(id, cancelled) => Drained(id, cancelled);
        case FinishReturns(id, ok) => WriterFinishReturned(id, ok);
        case StopDeadlinePasses(id, result) => StopRaceTimedOut(id, result);
        case CaptureFails(id, error) => CaptureFailureReported(id, error);
        case CaptureSample(id, sample) => SampleArrived(id, sample);
        case WorkerRuns(id, ok) => WorkerAdvanced(id, ok);
      }
    }
  }
}
