/**
 The recording state machine of APIOSDebugCore: a status, five optional instants,
 and ten events. `Apply` is the specification of the mutating method; the class
 `StateMachine` updates the fields one by one, as the struct does.

 Instants are unbounded integers of milliseconds; the 64-bit subtraction of two
 instants is assumed not to overflow.
 */
module RecordingStateMachine {
  import opened Prelude

  datatype Phase = Idle | Starting | Recording | Stopping | Ready | Failed

  datatype Metadata = Metadata(
    id: Id, byteCount: int, durationMilliseconds: int, sha256: string, createdAt: int)

  datatype Status = Status(
    phase: Phase, elapsedMilliseconds: int, recording: Option<Metadata>, failureCode: Option<string>)

  datatype Event =
    | StartRequested(at: int, maximumDuration: int)
    | CaptureStarted(at: int)
    | StopRequested(at: int)
    | WriterFinished(metadata: Metadata)
    | Failure(code: string, at: int)
    | PermissionTimedOut(at: int)
    | StopTimedOut(at: int)
    | MaximumDurationReached(at: int)
    | DownloadedAndDeleted(id: Id)
    | Reset

  datatype Machine = Machine(
    status: Status,
    startRequestedAt: Option<int>,
    captureStartedAt: Option<int>,
    stopRequestedAt: Option<int>,
    maximumDuration: Option<int>,
    lastEventAt: Option<int>)

  const IDLE_STATUS := Status(Idle, 0, None, None)
  const INITIAL := Machine(IDLE_STATUS, None, None, None, None, None)
  const PERMISSION_TIMEOUT_CODE := "recording_permission_timeout"
  const REQUEST_TIMEOUT_CODE := "request_timeout"

  predicate IsCurrent(m: Machine, instant: int) {
    m.lastEventAt.Some? ==> instant >= m.lastEventAt.value
  }

  function Elapsed(m: Machine, instant: int): int {
    if m.captureStartedAt.None? || instant < m.captureStartedAt.value then 0
    else instant - m.captureStartedAt.value
  }

  function BeginStopping(m: Machine, at: int): Machine {
    m.(stopRequestedAt := Some(at), lastEventAt := Some(at),
       status := Status(Stopping, Elapsed(m, at), None, None))
  }

  function Fail(m: Machine, code: string, at: int): Machine {
    m.(lastEventAt := Some(at), status := Status(Failed, Elapsed(m, at), None, Some(code)))
  }

  /** The machine after an accepted event; None when the event is rejected. */
  function Apply(m: Machine, e: Event): Option<Machine> {
    match e
    case StartRequested(at, duration) =>
      if m.status.phase == Idle && duration > 0 then
        Some(m.(startRequestedAt := Some(at), maximumDuration := Some(duration), lastEventAt := Some(at),
                status := Status(Starting, 0, None, None)))
      else None
    case CaptureStarted(at) =>
      if m.status.phase == Starting && IsCurrent(m, at) then
        Some(m.(captureStartedAt := Some(at), lastEventAt := Some(at),
                status := Status(Recording, 0, None, None)))
      else None
    case StopRequested(at) =>
      if m.status.phase == Recording && IsCurrent(m, at) then Some(BeginStopping(m, at)) else None
    case WriterFinished(metadata) =>
      if m.status.phase == Stopping && IsCurrent(m, metadata.createdAt) then
        Some(m.(lastEventAt := Some(metadata.createdAt),
                status := Status(Ready, metadata.durationMilliseconds, Some(metadata), None)))
      else None
    case Failure(code, at) =>
      if m.status.phase in {Starting, Recording, Stopping} && IsCurrent(m, at)
      then Some(Fail(m, code, at)) else None
    case PermissionTimedOut(at) =>
      if && m.status.phase == Starting && IsCurrent(m, at)
         && m.startRequestedAt.Some? && at - m.startRequestedAt.value >= 60_000
      then Some(Fail(m, PERMISSION_TIMEOUT_CODE, at)) else None
    case StopTimedOut(at) =>
      if && m.status.phase == Stopping && IsCurrent(m, at)
         && m.stopRequestedAt.Some? && at - m.stopRequestedAt.value >= 90_000
      then Some(Fail(m, REQUEST_TIMEOUT_CODE, at)) else None
    case MaximumDurationReached(at) =>
      if && m.status.phase == Recording && IsCurrent(m, at)
         && m.captureStartedAt.Some? && m.maximumDuration.Some?
         && at - m.captureStartedAt.value >= m.maximumDuration.value
      then Some(BeginStopping(m, at)) else None
    case DownloadedAndDeleted(id) =>
      if m.status.phase == Ready && m.status.recording.Some? && m.status.recording.value.id == id
      then Some(INITIAL) else None
    case Reset =>
      if m.status.phase == Failed then Some(INITIAL) else None
  }

  /** A rejected event throws and leaves the machine as it was. */
  function Next(m: Machine, e: Event): Machine {
    var r := Apply(m, e);
    if r.Some? then r.value else m
  }

  class StateMachine {
    var status: Status
    var startRequestedAt: Option<int>
    var captureStartedAt: Option<int>
    var stopRequestedAt: Option<int>
    var maximumDuration: Option<int>
    var lastEventAt: Option<int>

    ghost function View(): Machine
      reads this
    {
      Machine(status, startRequestedAt, captureStartedAt, stopRequestedAt, maximumDuration, lastEventAt)
    }

    constructor ()
      ensures View() == INITIAL
    {
      status := IDLE_STATUS;
      startRequestedAt, captureStartedAt, stopRequestedAt := None, None, None;
      maximumDuration, lastEventAt := None, None;
    }

    predicate Current(instant: int)
      reads this
    {
      lastEventAt.None? || instant >= lastEventAt.value
    }

    function ElapsedAt(instant: int): int
      reads this
    {
      if captureStartedAt.None? then 0
      else
        var difference := instant - captureStartedAt.value;
        if difference > 0 then difference else 0
    }

    method Stopping(at: int)
      modifies this
      ensures View() == BeginStopping(old(View()), at)
    {
      stopRequestedAt := Some(at);
      lastEventAt := Some(at);
      status := Status.Status(Phase.Stopping, ElapsedAt(at), None, None);
    }

    method FailWith(code: string, at: int)
      modifies this
      ensures View() == Fail(old(View()), code, at)
    {
      lastEventAt := Some(at);
      status := Status.Status(Failed, ElapsedAt(at), None, Some(code));
    }

    method ClearToIdle()
      modifies this
      ensures View() == INITIAL
    {
      status := IDLE_STATUS;
      startRequestedAt := None;
      captureStartedAt := None;
      stopRequestedAt := None;
      maximumDuration := None;
      lastEventAt := None;
    }

    /** Accepts exactly the events the specification accepts; a rejected event changes no field. */
    method ApplyEvent(e: Event) returns (accepted: bool)
      modifies this
      ensures accepted <==> Apply(old(View()), e).Some?
      ensures View() == Next(old(View()), e)
    {
      accepted := true;
      match e {
        case StartRequested(at, duration) =>
          if status.phase != Idle || duration <= 0 { return false; }
          startRequestedAt := Some(at);
          maximumDuration := Some(duration);
          lastEventAt := Some(at);
          status := Status.Status(Starting, 0, None, None);
        case CaptureStarted(at) =>
          if status.phase != Starting || !Current(at) { return false; }
          captureStartedAt := Some(at);
          lastEventAt := Some(at);
          status := Status.Status(Recording, 0, None, None);
        case StopRequested(at) =>
          if status.phase != Recording || !Current(at) { return false; }
          Stopping(at);
        case WriterFinished(metadata) =>
          if status.phase != Phase.Stopping || !Current(metadata.createdAt) { return false; }
          lastEventAt := Some(metadata.createdAt);
          status := Status.Status(Ready, metadata.durationMilliseconds, Some(metadata), None);
        case Failure(code, at) =>
          if status.phase !in {Starting, Recording, Phase.Stopping} || !Current(at) { return false; }
          FailWith(code, at);
        case PermissionTimedOut(at) =>
          if status.phase != Starting || !Current(at) || startRequestedAt.None? { return false; }
          if at - startRequestedAt.value < 60_000 { return false; }
          FailWith(PERMISSION_TIMEOUT_CODE, at);
        case StopTimedOut(at) =>
          if status.phase != Phase.Stopping || !Current(at) || stopRequestedAt.None? { return false; }
          if at - stopRequestedAt.value < 90_000 { return false; }
          FailWith(REQUEST_TIMEOUT_CODE, at);
        case MaximumDurationReached(at) =>
          if status.phase != Recording || !Current(at) { return false; }
          if captureStartedAt.None? || maximumDuration.None? { return false; }
          if at - captureStartedAt.value < maximumDuration.value { return false; }
          Stopping(at);
        case DownloadedAndDeleted(id) =>
          if status.phase != Ready || status.recording.None? || status.recording.value.id != id { return false; }
          ClearToIdle();
        case Reset =>
          if status.phase != Failed { return false; }
          ClearToIdle();
      }
    }
  }

  // ---------------------------------------------------------------- whole runs

  function Run(es: seq<Event>): Machine {
    if es == [] then INITIAL else Next(Run(es[..|es| - 1]), es[|es| - 1])
  }

  /** How many events of a run satisfied `p` and were accepted. */
  ghost function Accepted(es: seq<Event>, p: Event -> bool): nat {
    if es == [] then 0
    else
      var init, e := es[..|es| - 1], es[|es| - 1];
      Accepted(init, p) + if p(e) && Apply(Run(init), e).Some? then 1 else 0
  }

  ghost function Starts(es: seq<Event>): nat { Accepted(es, (e: Event) => e.StartRequested?) }
  ghost function Finishes(es: seq<Event>): nat { Accepted(es, (e: Event) => e.WriterFinished?) }
  ghost function Failures(es: seq<Event>): nat {
    Accepted(es, (e: Event) => e.Failure? || e.PermissionTimedOut? || e.StopTimedOut?)
  }
  ghost function Deletions(es: seq<Event>): nat { Accepted(es, (e: Event) => e.DownloadedAndDeleted?) }
  ghost function Resets(es: seq<Event>): nat { Accepted(es, (e: Event) => e.Reset?) }

  /** Which instants a phase has, and in what order they lie. */
  ghost predicate WellFormed(m: Machine) {
    var p := m.status.phase;
    && (p == Idle <==> m == INITIAL)
    && (p != Idle ==> m.startRequestedAt.Some? && m.lastEventAt.Some? && m.maximumDuration.Some?)
    && (p == Starting ==> m.captureStartedAt.None? && m.stopRequestedAt.None?)
    && (p == Recording ==> m.captureStartedAt.Some? && m.stopRequestedAt.None?)
    && (p == Stopping || p == Ready ==> m.captureStartedAt.Some? && m.stopRequestedAt.Some?)
    && (m.stopRequestedAt.Some? ==> m.captureStartedAt.Some?)
    && (p == Ready <==> m.status.recording.Some?)
    && (p == Failed <==> m.status.failureCode.Some?)
    && (p != Ready ==> m.status.elapsedMilliseconds >= 0)
    && (p == Stopping ==> m.stopRequestedAt == m.lastEventAt)
    && InstantsOrdered(m)
  }

  /** start <= capture <= stop <= last, for those that are present. */
  ghost predicate InstantsOrdered(m: Machine) {
    && (m.captureStartedAt.Some? ==> m.startRequestedAt.Some? && m.startRequestedAt.value <= m.captureStartedAt.value)
    && (m.stopRequestedAt.Some? ==> m.captureStartedAt.Some? && m.captureStartedAt.value <= m.stopRequestedAt.value)
    && (m.startRequestedAt.Some? ==> m.lastEventAt.Some? && m.startRequestedAt.value <= m.lastEventAt.value)
    && (m.captureStartedAt.Some? ==> m.captureStartedAt.value <= m.lastEventAt.value)
    && (m.stopRequestedAt.Some? ==> m.stopRequestedAt.value <= m.lastEventAt.value)
  }

  lemma ApplyKeepsWellFormed(m: Machine, e: Event)
    requires WellFormed(m) && Apply(m, e).Some?
    ensures WellFormed(Apply(m, e).value)
  {
  }

  lemma {:induction false} RunWellFormed(es: seq<Event>)
    ensures WellFormed(Run(es))
  {
    if es != [] {
      var init, e := es[..|es| - 1], es[|es| - 1];
      RunWellFormed(init);
      if Apply(Run(init), e).Some? { ApplyKeepsWellFormed(Run(init), e); }
    }
  }

  // ------------------------------------------------- a machine told from its events

  /** The events accepted since the machine was last idle. */
  ghost function Session(es: seq<Event>): seq<Event> {
    if es == [] then []
    else
      var init, e := es[..|es| - 1], es[|es| - 1];
      var r := Apply(Run(init), e);
      if r.None? then Session(init) else if r.value.status.phase == Idle then [] else Session(init) + [e]
  }

  function Instant(e: Event): int {
    match e
    case StartRequested(at, _) => at
    case CaptureStarted(at) => at
    case StopRequested(at) => at
    case WriterFinished(metadata) => metadata.createdAt
    case Failure(_, at) => at
    case PermissionTimedOut(at) => at
    case StopTimedOut(at) => at
    case MaximumDurationReached(at) => at
    case DownloadedAndDeleted(_) => 0
    case Reset => 0
  }

  function PhaseAfter(e: Event): Phase {
    match e
    case StartRequested(_, _) => Starting
    case CaptureStarted(_) => Recording
    case StopRequested(_) => Stopping
    case MaximumDurationReached(_) => Stopping
    case WriterFinished(_) => Ready
    case Failure(_, _) => Failed
    case PermissionTimedOut(_) => Failed
    case StopTimedOut(_) => Failed
    case DownloadedAndDeleted(_) => Idle
    case Reset => Idle
  }

  function CodeOf(e: Event): Option<string> {
    match e
    case Failure(code, _) => Some(code)
    case PermissionTimedOut(_) => Some("recording_permission_timeout")
    case StopTimedOut(_) => Some("request_timeout")
    case _ => None
  }

  predicate Captured(s: seq<Event>) { |s| >= 2 && s[1].CaptureStarted? }

  predicate StopAsked(s: seq<Event>) { |s| >= 3 && (s[2].StopRequested? || s[2].MaximumDurationReached?) }

  /** What a session shows: nothing of it is in the machine but what its own events said. */
  function StatusOf(s: seq<Event>): Status {
    if s == [] then Status(Idle, 0, None, None)
    else
      var last := s[|s| - 1];
      var elapsed :=
        if last.WriterFinished? then last.metadata.durationMilliseconds
        else if Captured(s) then Instant(last) - Instant(s[1]) else 0;
      Status(PhaseAfter(last), elapsed, if last.WriterFinished? then Some(last.metadata) else None, CodeOf(last))
  }

  function MachineOf(s: seq<Event>): Machine {
    if s == [] then Machine(StatusOf(s), None, None, None, None, None)
    else
      Machine(StatusOf(s), Some(Instant(s[0])), if Captured(s) then Some(Instant(s[1])) else None,
              if StopAsked(s) then Some(Instant(s[2])) else None,
              if s[0].StartRequested? then Some(s[0].maximumDuration) else None, Some(Instant(s[|s| - 1])))
  }

  /** The events that can come next in a session, by what it holds so far. */
  predicate CanFollow(s: seq<Event>, e: Event) {
    var late := s != [] && Instant(e) >= Instant(s[|s| - 1]);
    match e
    case StartRequested(_, duration) => s == [] && duration > 0
    case CaptureStarted(_) => |s| == 1 && late
    case StopRequested(_) => |s| == 2 && Captured(s) && late
    case MaximumDurationReached(at) =>
      |s| == 2 && Captured(s) && late && s[0].StartRequested? && at - Instant(s[1]) >= s[0].maximumDuration
    case WriterFinished(_) => |s| == 3 && StopAsked(s) && late
    case StopTimedOut(at) => |s| == 3 && StopAsked(s) && late && at - Instant(s[2]) >= 90_000
    case PermissionTimedOut(at) => |s| == 1 && late && at - Instant(s[0]) >= 60_000
    case Failure(_, _) => (|s| == 1 || (|s| == 2 && Captured(s)) || (|s| == 3 && StopAsked(s))) && late
    case DownloadedAndDeleted(id) => |s| == 4 && s[3].WriterFinished? && s[3].metadata.id == id
    case Reset => s != [] && PhaseAfter(s[|s| - 1]) == Failed
  }

  /** A session is a start, its capture, a request to stop, and an ending, or stops short with a failure. */
  ghost predicate IsSession(s: seq<Event>) {
    && |s| <= 4
    && (|s| >= 1 ==> s[0].StartRequested? && (|s| == 1 || Instant(s[0]) <= Instant(s[1])))
    && (|s| == 2 ==> s[1].CaptureStarted? || s[1].Failure? || s[1].PermissionTimedOut?)
    && (|s| >= 3 ==> s[1].CaptureStarted? && Instant(s[1]) <= Instant(s[2]))
    && (|s| == 3 ==> s[2].StopRequested? || s[2].MaximumDurationReached? || s[2].Failure?)
    && (|s| == 4 ==> && StopAsked(s) && Instant(s[2]) <= Instant(s[3])
                     && (s[3].WriterFinished? || s[3].Failure? || s[3].StopTimedOut?))
  }

  lemma SessionStep(s: seq<Event>, e: Event)
    requires IsSession(s)
    ensures Apply(MachineOf(s), e).Some? <==> CanFollow(s, e)
    ensures CanFollow(s, e) ==>
              var t := if PhaseAfter(e) == Idle then [] else s + [e];
              Apply(MachineOf(s), e).value == MachineOf(t) && IsSession(t)
  {
  }

  /** In every run the machine is what its accepted events since idle say, and they form a session. */
  lemma {:induction false} RunIsItsSession(es: seq<Event>)
    ensures IsSession(Session(es)) && Run(es) == MachineOf(Session(es))
  {
    if es != [] {
      var init, e := es[..|es| - 1], es[|es| - 1];
      RunIsItsSession(init);
      SessionStep(Session(init), e);
    }
  }

  /** An event is accepted exactly when it can follow the session so far. */
  lemma AcceptedIff(es: seq<Event>, e: Event)
    ensures Apply(Run(es), e).Some? <==> CanFollow(Session(es), e)
  {
    RunIsItsSession(es);
    SessionStep(Session(es), e);
  }

  /** Nothing is lost and nothing is counted twice, over every sequence of events. */
  lemma {:induction false} Conservation(es: seq<Event>)
    ensures var phase := Run(es).status.phase;
            && Starts(es) == Finishes(es) + Failures(es) + (if phase in {Starting, Recording, Stopping} then 1 else 0)
            && Finishes(es) == Deletions(es) + (if phase == Ready then 1 else 0)
            && Failures(es) == Resets(es) + (if phase == Failed then 1 else 0)
  {
    if es != [] { Conservation(es[..|es| - 1]); }
  }

  function Rank(p: Phase): nat {
    match p
    case Idle => 0 case Starting => 1 case Recording => 2
    case Stopping => 3 case Ready => 4 case Failed => 4
  }

  /** Every accepted event climbs in rank, or completes the cycle from ready or failed. */
  lemma RankRises(m: Machine, e: Event)
    requires Apply(m, e).Some?
    ensures var before, after := m.status.phase, Apply(m, e).value.status.phase;
            Rank(before) < Rank(after) || (after == Idle && before in {Ready, Failed})
  {
  }

  ghost predicate AllAccepted(m: Machine, es: seq<Event>)
    decreases |es|
  {
    es != [] ==> Apply(m, es[0]).Some? && AllAccepted(Next(m, es[0]), es[1..])
  }

  ghost function Fold(m: Machine, es: seq<Event>): Machine
    decreases |es|
  {
    if es == [] then m else Fold(Next(m, es[0]), es[1..])
  }

  /** The number of accepted events after which a machine in this phase must have been idle again. */
  function StepsLeft(p: Phase): nat { 5 - Rank(p) }

  /** Any five accepted events in a row pass through idle: no recording session is longer. */
  lemma {:induction false} ReturnsToIdle(m: Machine, es: seq<Event>)
    requires AllAccepted(m, es) && |es| >= StepsLeft(m.status.phase)
    ensures exists k :: 1 <= k <= StepsLeft(m.status.phase) && Fold(m, es[..k]).status.phase == Idle
    decreases StepsLeft(m.status.phase)
  {
    RankRises(m, es[0]);
    var after := Next(m, es[0]);
    if after.status.phase == Idle {
      assert Fold(m, es[..1]) == after;
    } else {
      ReturnsToIdle(after, es[1..]);
      var k :| 1 <= k <= StepsLeft(after.status.phase) && Fold(after, es[1..][..k]).status.phase == Idle;
      assert es[..k + 1][1..] == es[1..][..k];
      assert Fold(m, es[..k + 1]).status.phase == Idle;
    }
  }
}
