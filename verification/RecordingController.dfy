/**
 The recording controller: one re-entrant actor, any number of callers, capture
 callbacks from other threads, timers, and two races against a deadline.

 A step is what runs between two suspension points. `Fields` are the actor's own
 fields; an `Attempt` holds what belongs to one accepted start: where its capture
 operation and its stop operation are suspended, what their race gates hold, and
 its sample intake. The functions below say what each step does; the class in
 RecordingControllerActor updates the fields as the source does.

 The screen capture source, the file store and the clock are environment: their
 answers are the parameters of the steps.
 */
module RecordingController {
  import opened Prelude
  import opened RecordingStateMachine
  import Intake = RecordingSampleIntake

  const NOT_AVAILABLE_CODE := "recording_not_available"
  const MAXIMUM_MP4_BYTES := 500 * 1024 * 1024

  datatype Url = Partial(id: Id) | Final(id: Id)

  datatype Fields = Fields(
    machine: Machine,
    writer: Option<Id>,            // the attempt whose writer the field holds
    intake: Option<Id>,            // the attempt whose intake the field holds
    activeID: Option<Id>,
    activeURL: Option<Url>,
    captureStartedAt: Option<int>,
    unsettledStartID: Option<Id>,
    automaticStop: Option<Id>)     // the attempt the timer task would stop

  datatype StartResult = StartSucceeded | StartFailed | PermissionDeadline
  datatype StopResult = StopSucceeded | StopFailed | StopDeadline

  /** What a race gate holds for its caller; `Unused` before the race, `Delivered` after the caller ran on. */
  datatype Slot<R> = Unused | Open | Won(result: R) | Delivered

  /** Where the capture operation of a start is. */
  datatype StartOp =
    | NotIssued         // spawned, source.start not called yet
    | StartInFlight     // awaiting source.start
    | DiscardInFlight   // start came too late: awaiting source.stop
    | AbortInFlight     // a capture failure was seen at start: awaiting source.stop
    | StartOver

  /** Where the operation of a stop is. */
  datatype StopOp =
    | NoStop
    | StopQueued        // spawned, source.stop not called yet
    | SourceStopping    // awaiting source.stop
    | Draining          // intake closed, awaiting the worker
    | Finishing         // awaiting writer.finish
    | StopOver

  datatype Attempt = Attempt(
    startOp: StartOp,
    startSlot: Slot<StartResult>,
    stopOp: StopOp,
    stopSlot: Slot<StopResult>,
    stopFromStart: bool,       // this stop was begun by the start that saw a failure at publication
    startedAt: int,            // captured by the stop: when the capture started
    stoppedAt: int,            // captured by the stop: when it was requested
    intake: Intake.Intake,
    wakeups: nat,              // failure callbacks whose stopIfCurrent has not run yet
    timers: nat,               // automatic stop tasks whose stopIfCurrent has not run yet
    drainPassed: bool,         // history: the drain of this attempt returned normally
    failedBeforeDrain: bool)   // history: a capture failure was reported before that

  datatype Sys = Sys(ctl: Fields, attempts: map<Id, Attempt>, clock: int)

  const NO_FIELDS := Fields(INITIAL, None, None, None, None, None, None, None)
  const FRESH_ATTEMPT := Attempt(NotIssued, Open, NoStop, Unused, false, 0, 0, Intake.FRESH, 0, 0, false, false)

  function Initial(clock: int): Sys { Sys(NO_FIELDS, map[], clock) }

  function Offer<R>(slot: Slot<R>, result: R): Slot<R> {
    if slot.Open? then Won(result) else slot
  }

  function Update(s: Sys, id: Id, a: Attempt): Sys {
    s.(attempts := s.attempts[id := a])
  }

  function WithMachine(s: Sys, m: Machine): Sys {
    s.(ctl := s.ctl.(machine := m))
  }

  // ------------------------------------------------------------ shared endings

  function CloseIntakeOf(attempts: map<Id, Attempt>, id: Option<Id>): map<Id, Attempt> {
    if id.Some? && id.value in attempts then
      var a := attempts[id.value];
      attempts[id.value := a.(intake := Intake.StopAccepting(a.intake))]
    else attempts
  }

  function ClearActive(s: Sys): Sys {
    s.(ctl := Fields(s.ctl.machine, None, None, None, None, None, s.ctl.unsettledStartID, None),
       attempts := CloseIntakeOf(s.attempts, s.ctl.intake))
  }

  function SettleStart(c: Fields, id: Id): Fields {
    if c.unsettledStartID == Some(id) then c.(unsettledStartID := None) else c
  }

  /** The catch block of `start`. */
  function StartCatch(s: Sys, code: string, at: int): Sys {
    ClearActive(if s.ctl.machine.status.phase == Starting
                then WithMachine(s, Next(s.ctl.machine, Failure(code, at))) else s)
  }

  /** The catch block of `stop`. */
  function StopCatch(s: Sys, code: string, at: int): Sys {
    ClearActive(WithMachine(s, Next(s.ctl.machine, Failure(code, at))))
  }

  // ------------------------------------------------------------------- starting

  /** `start` up to its first suspension. */
  function StartCall(s: Sys, at: int, later: int, id: Id, duration: int, storeOk: bool, available: bool): Sys {
    if !(1_000 <= duration <= 600_000) || s.ctl.unsettledStartID.Some? then s
    else
      var m := if s.ctl.machine.status.phase == Failed then Next(s.ctl.machine, Reset) else s.ctl.machine;
      var requested := Apply(m, StartRequested(at, duration));
      if requested.None? then WithMachine(s, m)
      else if !storeOk || !available then StartCatch(WithMachine(s, requested.value), NOT_AVAILABLE_CODE, later)
      else
        s.(ctl := s.ctl.(machine := requested.value, writer := Some(id), intake := Some(id), activeID := Some(id),
                         activeURL := Some(Partial(id)), unsettledStartID := Some(id)),
           attempts := s.attempts[id := FRESH_ATTEMPT])
  }

  function BelongsToCurrentStart(c: Fields, id: Id): bool {
    c.unsettledStartID == Some(id) && c.activeID == Some(id) && c.machine.status.phase == Starting
  }

  /** The capture operation runs and calls source.start. */
  function StartIssued(s: Sys, id: Id): Sys
    requires id in s.attempts
  {
    Update(s, id, s.attempts[id].(startOp := StartInFlight))
  }

  /** The race of a start is decided by its timeout task, if it is still open. */
  function StartRaceLost(s: Sys, id: Id, result: StartResult): Sys
    requires id in s.attempts
  {
    Update(s, id, s.attempts[id].(startSlot := Offer(s.attempts[id].startSlot, result)))
  }

  /** `startCapture` after source.start returned (`ok`) or threw. */
  function CaptureStartReturned(s: Sys, id: Id, ok: bool): Sys
    requires id in s.attempts
  {
    var a := s.attempts[id];
    if !ok then
      Update(s, id, a.(startOp := StartOver, startSlot := Offer(a.startSlot, StartFailed)))
        .(ctl := SettleStart(s.ctl, id))
    else if !BelongsToCurrentStart(s.ctl, id) then
      Update(s, id, a.(startOp := DiscardInFlight))
    else if a.intake.captureFailure.Some? then
      Update(s, id, a.(startOp := AbortInFlight)).(ctl := SettleStart(s.ctl, id))
    else
      Update(s, id, a.(startOp := StartOver, startSlot := Offer(a.startSlot, StartSucceeded)))
        .(ctl := SettleStart(s.ctl, id))
  }

  /** The late start has been stopped again: only now may another start be issued. */
  function DiscardReturned(s: Sys, id: Id): Sys
    requires id in s.attempts
  {
    var a := s.attempts[id];
    Update(s, id, a.(startOp := StartOver, startSlot := Offer(a.startSlot, StartFailed)))
      .(ctl := SettleStart(s.ctl, id))
  }

  function AbortReturned(s: Sys, id: Id): Sys
    requires id in s.attempts
  {
    var a := s.attempts[id];
    Update(s, id, a.(startOp := StartOver, startSlot := Offer(a.startSlot, StartFailed)))
  }

  function StartErrorCode(r: StartResult): string {
    if r == PermissionDeadline then PERMISSION_TIMEOUT_CODE else NOT_AVAILABLE_CODE
  }

  /** `start` after its race was decided, up to its end or to its suspension inside `stop`. */
  function StartResumed(s: Sys, id: Id, at: int, later: int): Sys
    requires id in s.attempts && s.attempts[id].startSlot.Won?
  {
    var result := s.attempts[id].startSlot.result;
    var s1 := Update(s, id, s.attempts[id].(startSlot := Delivered));
    if result != StartSucceeded then StartCatch(s1, StartErrorCode(result), at)
    else
      var s2 := s1.(ctl := s1.ctl.(captureStartedAt := Some(at)));
      var published := Apply(s2.ctl.machine, CaptureStarted(at));
      if published.None? then StartCatch(s2, NOT_AVAILABLE_CODE, later)
      else
        var s3 := WithMachine(s2, published.value);
        if s3.attempts[id].intake.captureFailure.Some? then
          var stopping := StopBegin(s3, later, later, true);
          if stopping.None? then StartCatch(s3, NOT_AVAILABLE_CODE, later) else stopping.value
        else
          var a := s3.attempts[id];
          Update(s3, id, a.(timers := a.timers + 1)).(ctl := s3.ctl.(automaticStop := Some(id)))
  }

  // ------------------------------------------------------------------- stopping

  /** `stop` up to its suspension; None when the state machine rejects the request. */
  function StopBegin(s: Sys, at: int, later: int, fromStart: bool): Option<Sys> {
    var requested := Apply(s.ctl.machine, StopRequested(at));
    if requested.None? then None
    else
      var s1 := s.(ctl := s.ctl.(machine := requested.value, automaticStop := None));
      var c := s1.ctl;
      if c.writer.None? || c.intake.None? || c.activeID.None? || c.activeURL.None? || c.captureStartedAt.None?
         || c.activeID.value !in s.attempts
      then Some(StopCatch(s1, NOT_AVAILABLE_CODE, later))
      else
        var id := c.activeID.value;
        Some(Update(s1, id, s1.attempts[id].(stopOp := StopQueued, stopSlot := Open, stopFromStart := fromStart,
                                             startedAt := c.captureStartedAt.value, stoppedAt := at)))
  }

  function StopCall(s: Sys, at: int, later: int): Sys {
    var r := StopBegin(s, at, later, false);
    if r.Some? then r.value else s
  }

  function StopIfCurrent(s: Sys, id: Id, at: int, later: int): Sys {
    if s.ctl.activeID == Some(id) && s.ctl.machine.status.phase == Recording then StopCall(s, at, later) else s
  }

  /** A failure callback's task runs. */
  function WakeupRan(s: Sys, id: Id, at: int, later: int): Sys
    requires id in s.attempts && s.attempts[id].wakeups > 0
  {
    StopIfCurrent(Update(s, id, s.attempts[id].(wakeups := s.attempts[id].wakeups - 1)), id, at, later)
  }

  /** An automatic stop task wakes up, cancelled too late or not at all. */
  function TimerFired(s: Sys, id: Id, at: int, later: int): Sys
    requires id in s.attempts && s.attempts[id].timers > 0
  {
    StopIfCurrent(Update(s, id, s.attempts[id].(timers := s.attempts[id].timers - 1)), id, at, later)
  }

  /** The stop operation runs and calls source.stop. */
  function StopIssued(s: Sys, id: Id): Sys
    requires id in s.attempts
  {
    Update(s, id, s.attempts[id].(stopOp := SourceStopping))
  }

  /** The race of a stop is decided by its timeout task, if it is still open. */
  function StopRaceLost(s: Sys, id: Id, result: StopResult): Sys
    requires id in s.attempts
  {
    Update(s, id, s.attempts[id].(stopSlot := Offer(s.attempts[id].stopSlot, result)))
  }

  /** source.stop returned or threw; `cancelled` is what Task.checkCancellation finds. */
  function SourceStopReturned(s: Sys, id: Id, ok: bool, cancelled: bool): Sys
    requires id in s.attempts
  {
    var a := s.attempts[id];
    if !ok || cancelled then Update(s, id, a.(stopOp := StopOver, stopSlot := Offer(a.stopSlot, StopFailed)))
    else Update(s, id, a.(stopOp := Draining, intake := Intake.StopAccepting(a.intake)))
  }

  /** The worker has ended: the drain reads the recorded failure and returns or throws. */
  function DrainReturned(s: Sys, id: Id, cancelled: bool): Sys
    requires id in s.attempts
  {
    var a := s.attempts[id];
    if !Intake.DrainsCleanly(a.intake) then
      Update(s, id, a.(stopOp := StopOver, stopSlot := Offer(a.stopSlot, StopFailed)))
    else if cancelled then
      Update(s, id, a.(stopOp := StopOver, stopSlot := Offer(a.stopSlot, StopFailed), drainPassed := true))
    else Update(s, id, a.(stopOp := Finishing, drainPassed := true))
  }

  function FinishReturned(s: Sys, id: Id, ok: bool): Sys
    requires id in s.attempts
  {
    var a := s.attempts[id];
    Update(s, id, a.(stopOp := StopOver, stopSlot := Offer(a.stopSlot, if ok then StopSucceeded else StopFailed)))
  }

  function StopErrorCode(r: StopResult): string {
    if r == StopDeadline then REQUEST_TIMEOUT_CODE else NOT_AVAILABLE_CODE
  }

  /** `stop` after its race was decided; `stored` says whether the file could be moved, read and described. */
  function StopResumed(s: Sys, id: Id, at: int, stored: bool, byteCount: int, sha256: string): Sys
    requires id in s.attempts && s.attempts[id].stopSlot.Won?
  {
    var a := s.attempts[id];
    var s1 := Update(s, id, a.(stopSlot := Delivered));
    if a.stopSlot.result != StopSucceeded || !stored || !(1 <= byteCount <= MAXIMUM_MP4_BYTES) then
      StopFailedEnding(s1, id, StopErrorCode(a.stopSlot.result), at)
    else
      var s2 := s1.(ctl := s1.ctl.(activeURL := Some(Final(id))));
      var duration := if a.stoppedAt < a.startedAt then 0 else a.stoppedAt - a.startedAt;
      var metadata := Metadata(id, byteCount, duration, sha256, a.stoppedAt);
      var finished := Apply(s2.ctl.machine, WriterFinished(metadata));
      if finished.None? then StopFailedEnding(s2, id, NOT_AVAILABLE_CODE, at)
      else if a.stopFromStart then
        var b := s2.attempts[id];
        Update(WithMachine(s2, finished.value), id, b.(timers := b.timers + 1))
          .(ctl := s2.ctl.(machine := finished.value, automaticStop := Some(id)))
      else WithMachine(s2, finished.value)
  }

  /** The failed stop rethrows; a start that was waiting for it runs its own catch block in the same step. */
  function StopFailedEnding(s: Sys, id: Id, code: string, at: int): Sys
    requires id in s.attempts
  {
    var caught := StopCatch(s, code, at);
    if s.attempts[id].stopFromStart then StartCatch(caught, NOT_AVAILABLE_CODE, at) else caught
  }

  // ------------------------------------------------------------------- the store

  /** `removed`: the identifiers the retention policy deletes. */
  function Cleanup(s: Sys, removed: set<Id>): Sys {
    var status := s.ctl.machine.status;
    if status.phase == Ready && status.recording.Some? && status.recording.value.id in removed then
      ClearActive(WithMachine(s, Next(s.ctl.machine, DownloadedAndDeleted(status.recording.value.id))))
    else s
  }

  /** `found`: whether the recording and its metadata are still in the store after the cleanup. */
  function Delete(s: Sys, id: Id, removed: set<Id>, found: bool): Sys {
    var s1 := Cleanup(s, removed);
    var status := s1.ctl.machine.status;
    if found && status.phase == Ready && status.recording.Some? && status.recording.value.id == id then
      ClearActive(WithMachine(s1, Next(s1.ctl.machine, DownloadedAndDeleted(id))))
    else s1
  }

  // ----------------------------------------------------------------- the callbacks

  /** The failure handler: record the failure, then spawn a task that will stop the recording. */
  function CaptureFailed(s: Sys, id: Id, error: Intake.CaptureError): Sys
    requires id in s.attempts
  {
    var a := s.attempts[id];
    Update(s, id, a.(intake := Intake.Fail(a.intake, error), wakeups := a.wakeups + 1,
                     failedBeforeDrain := a.failedBeforeDrain || !a.drainPassed))
  }

  function SampleCaptured(s: Sys, id: Id, sample: Intake.Sample): Sys
    requires id in s.attempts
  {
    Update(s, id, s.attempts[id].(intake := Intake.Enqueue(s.attempts[id].intake, sample)))
  }

  function WorkerRan(s: Sys, id: Id, ok: bool): Sys
    requires id in s.attempts
  {
    Update(s, id, s.attempts[id].(intake := Intake.WorkerTurn(s.attempts[id].intake, ok)))
  }

  // ------------------------------------------------------------------- all steps

  datatype Turn =
    | CallStart(at: int, later: int, id: Id, duration: int, storeOk: bool, available: bool)
    | IssueStart(id: Id)
    | StartReturns(id: Id, ok: bool)
    | DiscardReturns(id: Id)
    | AbortReturns(id: Id)
    | StartDeadline(id: Id, startResult: StartResult)
    | ResumeStart(at: int, later: int, id: Id)
    | CallStop(at: int, later: int)
    | Wakeup(at: int, later: int, id: Id)
    | Timer(at: int, later: int, id: Id)
    | IssueStop(id: Id)
    | StopReturns(id: Id, ok: bool, cancelled: bool)
    | DrainReturns(id: Id, cancelled: bool)
    | FinishReturns(id: Id, ok: bool)
    | StopDeadlinePasses(id: Id, stopResult: StopResult)
    | ResumeStop(at: int, later: int, id: Id, stored: bool, byteCount: int, sha256: string)
    | CallCleanup(removed: set<Id>)
    | CallDelete(id: Id, removed: set<Id>, found: bool)
    | CaptureFails(id: Id, error: Intake.CaptureError)
    | CaptureSample(id: Id, sample: Intake.Sample)
    | WorkerRuns(id: Id, ok: bool)

  predicate Clocked(e: Turn) {
    e.CallStart? || e.ResumeStart? || e.CallStop? || e.Wakeup? || e.Timer? || e.ResumeStop?
  }

  /** The clock readings of the step are not older than any earlier reading. */
  predicate Monotone(s: Sys, e: Turn) {
    Clocked(e) ==> s.clock <= e.at <= e.later
  }

  predicate Enabled(s: Sys, e: Turn) {
    match e
    case CallStart(_, _, id, _, _, _) => id !in s.attempts   // UUIDs are fresh
    case CallStop(_, _) => true
    case CallCleanup(_) => true
    case CallDelete(_, _, _) => true
    case IssueStart(id) => id in s.attempts && s.attempts[id].startOp == NotIssued
    case StartReturns(id, _) => id in s.attempts && s.attempts[id].startOp == StartInFlight
    case DiscardReturns(id) => id in s.attempts && s.attempts[id].startOp == DiscardInFlight
    case AbortReturns(id) => id in s.attempts && s.attempts[id].startOp == AbortInFlight
    case StartDeadline(id, r) => id in s.attempts && r != StartSucceeded
    case ResumeStart(_, _, id) => id in s.attempts && s.attempts[id].startSlot.Won?
    case Wakeup(_, _, id) => id in s.attempts && s.attempts[id].wakeups > 0
    case Timer(_, _, id) => id in s.attempts && s.attempts[id].timers > 0
    case IssueStop(id) => id in s.attempts && s.attempts[id].stopOp == StopQueued
    case StopReturns(id, _, cancelled) =>
      id in s.attempts && s.attempts[id].stopOp == SourceStopping && (cancelled ==> !s.attempts[id].stopSlot.Open?)
    case DrainReturns(id, cancelled) =>
      && id in s.attempts && s.attempts[id].stopOp == Draining
      && s.attempts[id].intake.worker != Intake.Consuming && (cancelled ==> !s.attempts[id].stopSlot.Open?)
    case FinishReturns(id, _) => id in s.attempts && s.attempts[id].stopOp == Finishing
    case StopDeadlinePasses(id, r) => id in s.attempts && r != StopSucceeded
    case ResumeStop(_, _, id, _, _, _) => id in s.attempts && s.attempts[id].stopSlot.Won?
    case CaptureFails(id, _) => id in s.attempts && s.attempts[id].startOp != NotIssued
    case CaptureSample(id, _) => id in s.attempts && s.attempts[id].startOp != NotIssued
    case WorkerRuns(id, _) => id in s.attempts
  }

  function Step(s: Sys, e: Turn): Sys
    requires Enabled(s, e)
  {
    match e
    case CallStart(at, later, id, duration, storeOk, available) =>
      StartCall(s, at, later, id, duration, storeOk, available)
    case IssueStart(id) => StartIssued(s, id)
    case StartReturns(id, ok) => CaptureStartReturned(s, id, ok)
    case DiscardReturns(id) => DiscardReturned(s, id)
    case AbortReturns(id) => AbortReturned(s, id)
    case StartDeadline(id, r) => StartRaceLost(s, id, r)
    case ResumeStart(at, later, id) => StartResumed(s, id, at, later)
    case CallStop(at, later) => StopCall(s, at, later)
    case Wakeup(at, later, id) => WakeupRan(s, id, at, later)
    case Timer(at, later, id) => TimerFired(s, id, at, later)
    case IssueStop(id) => StopIssued(s, id)
    case StopReturns(id, ok, cancelled) => SourceStopReturned(s, id, ok, cancelled)
    case DrainReturns(id, cancelled) => DrainReturned(s, id, cancelled)
    case FinishReturns(id, ok) => FinishReturned(s, id, ok)
    case StopDeadlinePasses(id, r) => StopRaceLost(s, id, r)
    case ResumeStop(at, later, id, stored, byteCount, sha256) => StopResumed(s, id, later, stored, byteCount, sha256)
    case CallCleanup(removed) => Cleanup(s, removed)
    case CallDelete(id, removed, found) => Delete(s, id, removed, found)
    case CaptureFails(id, error) => CaptureFailed(s, id, error)
    case CaptureSample(id, sample) => SampleCaptured(s, id, sample)
    case WorkerRuns(id, ok) => WorkerRan(s, id, ok)
  }

  function Do(s: Sys, e: Turn): Sys
    requires Enabled(s, e)
  {
    var t := Step(s, e);
    if Clocked(e) then t.(clock := e.later) else t
  }

  /** A run from `s`: every turn is enabled when it happens. */
  ghost predicate Legal(s: Sys, es: seq<Turn>)
    decreases |es|
  {
    es != [] ==> Enabled(s, es[0]) && Legal(Do(s, es[0]), es[1..])
  }

  ghost predicate MonotoneClock(s: Sys, es: seq<Turn>)
    requires Legal(s, es)
    decreases |es|
  {
    es != [] ==> Monotone(s, es[0]) && MonotoneClock(Do(s, es[0]), es[1..])
  }

  ghost function After(s: Sys, es: seq<Turn>): Sys
    requires Legal(s, es)
    decreases |es|
  {
    if es == [] then s else After(Do(s, es[0]), es[1..])
  }
}
