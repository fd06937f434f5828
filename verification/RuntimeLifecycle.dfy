/**
 The lifecycle of the debug runtime: any number of concurrent start and stop callers
 share one start task and one stop task per generation.

 A step is what runs between two suspension points, of a caller or of a task. An `Op`
 is what one generation spawned. The runtime's server, its recording and its routes
 are environment: their answers are the parameters of the steps.
 */
module RuntimeLifecycle {
  import opened Prelude

  datatype StartTask =
    | Preparing       // routes, recording cleanup, server factory
    | ServerStarting  // awaiting server.start
    | RollingBack     // server.start threw: awaiting server.stop
    | Started
    | StartFailed

  datatype StopTask =
    | NotRequested
    | AwaitingStart      // stop was called during the start
    | ServerStopping     // awaiting server.stop
    | AskingStatus       // awaiting recording.status
    | RecordingStopping  // awaiting recording.stop
    | ShutDown

  /** `created` and `stops` are history: whether a server exists, and how often its stop was called. */
  datatype Op = Op(startTask: StartTask, stopTask: StopTask, created: bool, stops: nat)

  datatype Lifecycle = Stopped | Starting(gen: nat) | Running(gen: nat) | Stopping(gen: nat)

  datatype Sys = Sys(
    lifecycle: Lifecycle,
    nextGeneration: nat,
    ops: map<nat, Op>,
    starters: multiset<nat>,   // start callers awaiting the start task of a generation
    loopers: multiset<nat>,    // start callers awaiting a stop task, to try again afterwards
    stoppers: multiset<nat>)   // stop callers awaiting the stop task of a generation

  const INITIAL := Sys(Stopped, 0, map[], multiset{}, multiset{}, multiset{})
  const FRESH := Op(Preparing, NotRequested, false, 0)

  function WithOp(s: Sys, g: nat, op: Op): Sys { s.(ops := s.ops[g := op]) }

  // ---------------------------------------------------------------- the callers

  /** One pass of the loop in `start`, up to its suspension or its return. */
  function StartPass(s: Sys): Sys {
    match s.lifecycle
    case Stopped =>
      var g := Following(s.nextGeneration);
      WithOp(s, g, FRESH).(nextGeneration := g, lifecycle := Starting(g), starters := s.starters + multiset{g})
    case Starting(g) => s.(starters := s.starters + multiset{g})
    case Running(_) => s
    case Stopping(g) => s.(loopers := s.loopers + multiset{g})
  }

  /** `stop` up to its suspension or its return. */
  function StopPass(s: Sys): Sys {
    match s.lifecycle
    case Stopped => s
    case Starting(g) =>
      if g !in s.ops then s
      else WithOp(s, g, s.ops[g].(stopTask := AwaitingStart))
             .(lifecycle := Stopping(g), stoppers := s.stoppers + multiset{g})
    case Running(g) =>
      if g !in s.ops then s
      else WithOp(s, g, s.ops[g].(stopTask := ServerStopping, stops := s.ops[g].stops + 1))
             .(lifecycle := Stopping(g), stoppers := s.stoppers + multiset{g})
    case Stopping(g) => s.(stoppers := s.stoppers + multiset{g})
  }

  /** `finishStart` once the start task of generation g is over. */
  function FinishStart(s: Sys, g: nat): Sys
    requires g in s.ops
  {
    if s.lifecycle != Starting(g) then s
    else s.(lifecycle := if s.ops[g].startTask.Started? then Running(g) else Stopped)
  }

  function FinishStop(s: Sys, g: nat): Sys {
    if s.lifecycle != Stopping(g) then s else s.(lifecycle := Stopped)
  }

  // ------------------------------------------------------------------ the steps

  /** A step of one of the two tasks of a generation. */
  datatype TaskEvent =
    | Prepared(ok: bool)
    | ServerStarted(ok: bool)
    | RolledBack
    | StartAwaited            // the stop task sees how the start task ended
    | ServerStopped
    | StatusSeen(recording: bool)
    | RecordingStopped

  datatype Event =
    | StartCalled
    | StopCalled
    | TaskRan(gen: nat, step: TaskEvent)
    | StarterResumed(gen: nat)
    | LooperResumed(gen: nat)
    | StopperResumed(gen: nat)

  predicate IsCall(e: Event) { e.StartCalled? || e.StopCalled? }

  predicate StartOver(op: Op) { op.startTask.Started? || op.startTask.StartFailed? }

  predicate TaskReady(op: Op, e: TaskEvent) {
    match e
    case Prepared(_) => op.startTask.Preparing?
    case ServerStarted(_) => op.startTask.ServerStarting?
    case RolledBack => op.startTask.RollingBack?
    case StartAwaited => op.stopTask.AwaitingStart? && StartOver(op)
    case ServerStopped => op.stopTask.ServerStopping?
    case StatusSeen(_) => op.stopTask.AskingStatus?
    case RecordingStopped => op.stopTask.RecordingStopping?
  }

  function TaskStep(op: Op, e: TaskEvent): Op {
    match e
    case Prepared(ok) => if ok then op.(startTask := ServerStarting, created := true) else op.(startTask := StartFailed)
    case ServerStarted(ok) =>
      if ok then op.(startTask := Started) else op.(startTask := RollingBack, stops := op.stops + 1)
    case RolledBack => op.(startTask := StartFailed)
    case StartAwaited =>
      if op.startTask.Started? then op.(stopTask := ServerStopping, stops := op.stops + 1)
      else op.(stopTask := ShutDown)
    case ServerStopped => op.(stopTask := AskingStatus)
    case StatusSeen(recording) => op.(stopTask := if recording then RecordingStopping else ShutDown)
    case RecordingStopped => op.(stopTask := ShutDown)
  }

  predicate Enabled(s: Sys, e: Event) {
    if IsCall(e) then true
    else if e.gen !in s.ops then false
    else
      match e
      case TaskRan(g, step) => TaskReady(s.ops[g], step)
      case StarterResumed(g) => g in s.starters && StartOver(s.ops[g])
      case LooperResumed(g) => g in s.loopers && s.ops[g].stopTask.ShutDown?
      case StopperResumed(g) => g in s.stoppers && s.ops[g].stopTask.ShutDown?
  }

  /** A start caller that waited for a stop goes round its loop. */
  function RetriedLooper(s: Sys, g: nat): Sys {
    StartPass(FinishStop(s.(loopers := s.loopers - multiset{g}), g))
  }

  function Step(s: Sys, e: Event): Sys
    requires !IsCall(e) ==> e.gen in s.ops
  {
    match e
    case StartCalled => StartPass(s)
    case StopCalled => StopPass(s)
    case TaskRan(g, step) => WithOp(s, g, TaskStep(s.ops[g], step))
    case StarterResumed(g) => FinishStart(s.(starters := s.starters - multiset{g}), g)
    case LooperResumed(g) => RetriedLooper(s, g)
    case StopperResumed(g) => FinishStop(s.(stoppers := s.stoppers - multiset{g}), g)
  }

  ghost predicate Legal(s: Sys, events: seq<Event>)
    decreases |events|
  {
    events != [] ==> Enabled(s, events[0]) && Legal(Step(s, events[0]), events[1..])
  }

  ghost function After(s: Sys, events: seq<Event>): Sys
    requires Legal(s, events)
    decreases |events|
  {
    if events == [] then s else After(Step(s, events[0]), events[1..])
  }

  // -------------------------------------------------------------- the invariant

  /** The server of a generation: its stop is called once, and only when its start is over. */
  ghost predicate OpInv(op: Op) {
    && (op.startTask.Preparing? ==> !op.created)
    && (op.startTask.ServerStarting? || op.startTask.RollingBack? || op.startTask.Started? ==> op.created)
    && op.stops == (match op.startTask
                    case Preparing => 0
                    case ServerStarting => 0
                    case RollingBack => 1
                    case Started => if op.stopTask.NotRequested? || op.stopTask.AwaitingStart? then 0 else 1
                    case StartFailed => if op.created then 1 else 0)
    && (op.stopTask.ServerStopping? || op.stopTask.AskingStatus? || op.stopTask.RecordingStopping? ==> op.startTask.Started?)
    && (op.stopTask.ShutDown? ==> StartOver(op))
  }

  /** Both tasks of a generation are over and its server, if it had one, has been stopped. */
  predicate Over(op: Op) {
    || (op.startTask.StartFailed? && (op.stopTask.NotRequested? || op.stopTask.ShutDown?))
    || (op.startTask.Started? && op.stopTask.ShutDown?)
  }

  predicate IsCurrent(l: Lifecycle, g: nat) { !l.Stopped? && l.gen == g }

  /** The lifecycle names its generation's state, and somebody waits to move it on. */
  ghost predicate Current(s: Sys) {
    match s.lifecycle
    case Stopped => true
    case Starting(g) => g in s.ops && s.ops[g].stopTask.NotRequested? && g in s.starters
    case Running(g) => g in s.ops && s.ops[g].startTask.Started? && s.ops[g].stopTask.NotRequested?
    case Stopping(g) => g in s.ops && !s.ops[g].stopTask.NotRequested? && (g in s.stoppers || g in s.loopers)
  }

  /** Every generation but the current one is over. */
  ghost predicate OpsInv(lifecycle: Lifecycle, next: nat, ops: map<nat, Op>) {
    && (forall g :: g in ops ==> 1 <= g <= next && OpInv(ops[g]))
    && (forall g :: g in ops && !IsCurrent(lifecycle, g) ==> Over(ops[g]))
  }

  /** Whoever waits for a task waits for one that was spawned. */
  ghost predicate StartersInv(ops: map<nat, Op>, waiting: multiset<nat>) {
    forall g :: g in waiting ==> g in ops
  }

  ghost predicate StoppersInv(ops: map<nat, Op>, waiting: multiset<nat>) {
    forall g :: g in waiting ==> g in ops && !ops[g].stopTask.NotRequested?
  }

  ghost predicate Inv(s: Sys) {
    && Current(s)
    && OpsInv(s.lifecycle, s.nextGeneration, s.ops)
    && StartersInv(s.ops, s.starters)
    && StoppersInv(s.ops, s.loopers)
    && StoppersInv(s.ops, s.stoppers)
  }

  /** A task step is never taken for a generation that is over, and leaves it in order. */
  lemma TaskStepKeepsOp(op: Op, e: TaskEvent)
    requires OpInv(op) && TaskReady(op, e)
    ensures OpInv(TaskStep(op, e)) && !Over(op)
    ensures TaskStep(op, e).stopTask.NotRequested? <==> op.stopTask.NotRequested?
    ensures op.stopTask.NotRequested? ==> !op.startTask.Started?
    ensures StartRank(TaskStep(op, e).startTask) + StopRank(TaskStep(op, e).stopTask)
          < StartRank(op.startTask) + StopRank(op.stopTask)
  {
  }

  lemma TaskStepKeepsInv(s: Sys, e: Event)
    requires Inv(s) && Enabled(s, e) && e.TaskRan?
    ensures Inv(Step(s, e)) && IsCurrent(s.lifecycle, e.gen)
  {
    TaskStepKeepsOp(s.ops[e.gen], e.step);
  }

  lemma StartPassKeepsInv(s: Sys)
    requires Inv(s) && s.nextGeneration + 1 < TWO_64
    ensures Inv(StartPass(s))
  {
    match s.lifecycle {
      case Stopped => NewGenerationKeepsInv(s, StartPass(s));
      case _ =>
    }
  }

  lemma NewGenerationKeepsInv(s: Sys, t: Sys)
    requires Inv(s) && s.lifecycle.Stopped? && s.nextGeneration + 1 < TWO_64 && t == StartPass(s)
    ensures Inv(t)
  {
    var g := s.nextGeneration + 1;
    assert t.ops == s.ops[g := FRESH] && t.nextGeneration == g && t.lifecycle == Starting(g);
    assert g !in s.ops && g in t.starters;
  }

  lemma StopPassKeepsInv(s: Sys)
    requires Inv(s)
    ensures Inv(StopPass(s))
  {
    match s.lifecycle
    case Starting(g) => StopRequestKeepsInv(s, g, s.ops[g].(stopTask := AwaitingStart));
    case Running(g) => StopRequestKeepsInv(s, g, s.ops[g].(stopTask := ServerStopping, stops := s.ops[g].stops + 1));
    case _ =>
  }

  lemma StopRequestKeepsInv(s: Sys, g: nat, op: Op)
    requires Inv(s) && IsCurrent(s.lifecycle, g) && g in s.ops && OpInv(op) && !op.stopTask.NotRequested?
    ensures Inv(WithOp(s, g, op).(lifecycle := Stopping(g), stoppers := s.stoppers + multiset{g}))
  {
    var stoppers := s.stoppers + multiset{g};
    assert g in stoppers && forall h :: h in stoppers ==> h == g || h in s.stoppers;
  }

  lemma TakenOne(m: multiset<nat>, g: nat)
    ensures forall h :: h in m - multiset{g} ==> h in m
    ensures forall h :: h in m && h != g ==> h in m - multiset{g}
  {
  }

  lemma StarterKeepsInv(s: Sys, g: nat)
    requires Inv(s) && Enabled(s, StarterResumed(g))
    ensures Inv(Step(s, StarterResumed(g)))
  {
    StarterLeft(s, g, s.starters - multiset{g});
  }

  lemma StarterLeft(s: Sys, g: nat, left: multiset<nat>)
    requires Inv(s) && Enabled(s, StarterResumed(g)) && left == s.starters - multiset{g}
    ensures Inv(FinishStart(s.(starters := left), g))
  {
    TakenOne(s.starters, g);
    if s.lifecycle == Starting(g) { StarterMovesOn(s, g, left); } else { StarterIsLate(s, g, left); }
  }

  lemma StarterMovesOn(s: Sys, g: nat, left: multiset<nat>)
    requires Inv(s) && s.lifecycle == Starting(g) && StartOver(s.ops[g]) && StartersInv(s.ops, left)
    ensures Inv(s.(starters := left, lifecycle := if s.ops[g].startTask.Started? then Running(g) else Stopped))
  {
  }

  lemma StarterIsLate(s: Sys, g: nat, left: multiset<nat>)
    requires Inv(s) && s.lifecycle != Starting(g) && StartersInv(s.ops, left)
    requires forall h :: h in s.starters && h != g ==> h in left
    ensures Inv(s.(starters := left))
  {
  }

  /** A stop waiter, of either kind, gone and its generation's stop marked. */
  lemma StopWaiterKeepsInv(s: Sys, g: nat, loopers: multiset<nat>, stoppers: multiset<nat>)
    requires Inv(s) && g in s.ops && s.ops[g].stopTask.ShutDown? && loopers <= s.loopers && stoppers <= s.stoppers
    requires forall h :: h != g && (h in s.loopers || h in s.stoppers) ==> h in loopers || h in stoppers
    ensures Inv(FinishStop(s.(loopers := loopers, stoppers := stoppers), g))
  {
  }

  lemma ResumedStopKeepsInv(s: Sys, e: Event)
    requires Inv(s) && Enabled(s, e) && (e.LooperResumed? || e.StopperResumed?) && s.nextGeneration + 1 < TWO_64
    ensures Inv(Step(s, e))
  {
    var g := e.gen;
    if e.LooperResumed? {
      StopWaiterKeepsInv(s, g, s.loopers - multiset{g}, s.stoppers);
      StartPassKeepsInv(FinishStop(s.(loopers := s.loopers - multiset{g}), g));
    } else {
      StopWaiterKeepsInv(s, g, s.loopers, s.stoppers - multiset{g});
    }
  }

  lemma StepKeepsInv(s: Sys, e: Event)
    requires Inv(s) && Enabled(s, e) && s.nextGeneration + 1 < TWO_64
    ensures Inv(Step(s, e))
  {
    match e
    case StartCalled => StartPassKeepsInv(s);
    case StopCalled => StopPassKeepsInv(s);
    case StarterResumed(g) => StarterKeepsInv(s, g);
    case LooperResumed(_) => ResumedStopKeepsInv(s, e);
    case StopperResumed(_) => ResumedStopKeepsInv(s, e);
    case TaskRan(_, _) => TaskStepKeepsInv(s, e);
  }

  /** The current generation, if any, is the newest; the counter moves by at most one a step. */
  ghost predicate NewestInv(s: Sys) { !s.lifecycle.Stopped? ==> s.lifecycle.gen == s.nextGeneration }

  lemma StartPassKeepsNewest(s: Sys)
    requires NewestInv(s) && s.nextGeneration + 1 < TWO_64
    ensures NewestInv(StartPass(s)) && StartPass(s).nextGeneration <= s.nextGeneration + 1
  {
  }

  lemma StepKeepsNewest(s: Sys, e: Event)
    requires Enabled(s, e) && NewestInv(s) && s.nextGeneration + 1 < TWO_64
    ensures NewestInv(Step(s, e)) && Step(s, e).nextGeneration <= s.nextGeneration + 1
  {
    match e
    case StartCalled => StartPassKeepsNewest(s);
    case LooperResumed(g) => StartPassKeepsNewest(FinishStop(s.(loopers := s.loopers - multiset{g}), g));
    case _ =>
  }

  /** Fewer than 2^64 steps, so generations are never reused. */
  lemma {:induction false} RunKeepsInv(s: Sys, events: seq<Event>)
    requires Inv(s) && NewestInv(s) && Legal(s, events) && s.nextGeneration + |events| < TWO_64
    ensures Inv(After(s, events)) && NewestInv(After(s, events))
    decreases |events|
  {
    if events != [] {
      StepKeepsInv(s, events[0]);
      StepKeepsNewest(s, events[0]);
      RunKeepsInv(Step(s, events[0]), events[1..]);
    }
  }

  // ----------------------------------------------------------------- the results

  /** A server is live from its creation until the stop that was called on it has returned. */
  predicate Live(op: Op) {
    || op.startTask.ServerStarting? || op.startTask.RollingBack?
    || (op.startTask.Started? && (op.stopTask.NotRequested? || op.stopTask.AwaitingStart? || op.stopTask.ServerStopping?))
  }

  lemma LiveIsCurrent(s: Sys, g: nat)
    requires Inv(s) && g in s.ops
    ensures s.ops[g].stops <= 1 && (Live(s.ops[g]) ==> IsCurrent(s.lifecycle, g))
  {
  }

  /** In every run at most one server is live, none while the lifecycle is stopped, and none is ever stopped twice. */
  lemma AtMostOneServer(events: seq<Event>, g: nat, h: nat)
    requires Legal(INITIAL, events) && |events| < TWO_64
    ensures var s := After(INITIAL, events);
            && (g in s.ops && h in s.ops && Live(s.ops[g]) && Live(s.ops[h]) ==> g == h && !s.lifecycle.Stopped?)
            && (g in s.ops ==> s.ops[g].stops <= 1)
  {
    RunKeepsInv(INITIAL, events);
    var s := After(INITIAL, events);
    if g in s.ops { LiveIsCurrent(s, g); }
    if h in s.ops { LiveIsCurrent(s, h); }
  }

  /** A generation the lifecycle no longer names had its server, if one was made, stopped exactly once. */
  lemma StoppedExactlyOnce(events: seq<Event>, g: nat)
    requires Legal(INITIAL, events) && |events| < TWO_64
    ensures var s := After(INITIAL, events);
            g in s.ops && !IsCurrent(s.lifecycle, g) ==>
              !Live(s.ops[g]) && s.ops[g].stops == (if s.ops[g].created then 1 else 0)
  {
    RunKeepsInv(INITIAL, events);
  }

  /** When a stop caller is resumed, the server it asked to stop is down. */
  lemma StopReturnsWithServerDown(events: seq<Event>, g: nat)
    requires Legal(INITIAL, events) && |events| < TWO_64
    requires Enabled(After(INITIAL, events), StopperResumed(g))
    ensures var s := After(INITIAL, events);
            !Live(s.ops[g]) && (s.ops[g].created ==> s.ops[g].stops == 1)
                && Step(s, StopperResumed(g)).lifecycle != Stopping(g)
  {
    RunKeepsInv(INITIAL, events);
  }

  /**
   A caller that waited for an older generation changes neither the lifecycle nor any
   generation; one that loops does exactly what a new start call would do.
   */
  lemma StaleWaiterChangesNothing(events: seq<Event>, e: Event)
    requires Legal(INITIAL, events) && |events| < TWO_64 && Enabled(After(INITIAL, events), e)
    requires e.StarterResumed? || e.StopperResumed? || e.LooperResumed?
    requires e.gen < After(INITIAL, events).nextGeneration
    ensures var s := After(INITIAL, events);
            if e.LooperResumed? then Step(s, e) == StartPass(s.(loopers := s.loopers - multiset{e.gen}))
            else Step(s, e).lifecycle == s.lifecycle && Step(s, e).ops == s.ops
  {
    RunKeepsInv(INITIAL, events);
    StaleStep(After(INITIAL, events), e);
  }

  lemma StaleStep(s: Sys, e: Event)
    requires NewestInv(s) && Enabled(s, e) && (e.StarterResumed? || e.StopperResumed? || e.LooperResumed?)
    requires e.gen < s.nextGeneration
    ensures if e.LooperResumed? then Step(s, e) == StartPass(s.(loopers := s.loopers - multiset{e.gen}))
            else Step(s, e).lifecycle == s.lifecycle && Step(s, e).ops == s.ops
  {
    match e
    case LooperResumed(g) =>
      assert FinishStop(s.(loopers := s.loopers - multiset{g}), g) == s.(loopers := s.loopers - multiset{g});
    case _ =>
  }

  // --------------------------------------------------- every caller is answered

  function StartRank(t: StartTask): nat {
    match t case Preparing => 3 case ServerStarting => 2 case RollingBack => 1 case Started => 0 case StartFailed => 0
  }

  function StopRank(t: StopTask): nat {
    match t
    case NotRequested => 0 case AwaitingStart => 4 case ServerStopping => 3
    case AskingStatus => 2 case RecordingStopping => 1 case ShutDown => 0
  }

  /** Steps the current generation's tasks still have to take. */
  function Remaining(s: Sys): nat {
    if s.lifecycle.Stopped? || s.lifecycle.gen !in s.ops then 0
    else StartRank(s.ops[s.lifecycle.gen].startTask) + StopRank(s.ops[s.lifecycle.gen].stopTask)
  }

  /** Callers that still wait for the stop of a generation that is not the newest. */
  ghost function Behind(s: Sys): nat { |s.loopers[s.nextGeneration := 0]| }

  /** What n start callers that go round their loop can still cause, each at worst a new generation. */
  function Rounds(n: nat): nat {
    if n == 0 then 0 else Rounds(n - 1) + n + 4
  }

  /** The steps that can still happen before somebody calls again. */
  ghost function Work(s: Sys): nat {
    Rounds(|s.loopers|) + Behind(s) + Remaining(s) + |s.starters| + |s.stoppers|
  }

  /** Every step but a new call leaves less to do. */
  lemma StepsMakeProgress(s: Sys, e: Event)
    requires Inv(s) && NewestInv(s) && Enabled(s, e) && !IsCall(e)
    ensures Work(Step(s, e)) < Work(s)
  {
    if e.TaskRan? {
      TaskStepKeepsInv(s, e);
      TaskStepKeepsOp(s.ops[e.gen], e.step);
    } else if e.LooperResumed? {
      LooperMakesProgress(s, e.gen);
    } else {
      WaiterMakesProgress(s, e);
    }
  }

  lemma LooperMakesProgress(s: Sys, g: nat)
    requires NewestInv(s) && Enabled(s, LooperResumed(g))
    ensures Work(Step(s, LooperResumed(g))) < Work(s)
  {
    var t := Step(s, LooperResumed(g));
    var left := s.loopers - multiset{g};
    if s.lifecycle.Stopping? && s.lifecycle.gen != g {
      LooperCatchesUp(s, t, g, s.lifecycle.gen);
    } else {
      assert t.loopers == left;
      OneLess(s.loopers, g);
      assert Rounds(|s.loopers|) == Rounds(|left|) + |s.loopers| + 4;
      LooperLeaves(s, t, g);
    }
  }

  /** The caller waits again, for the stop of the newest generation. */
  lemma LooperCatchesUp(s: Sys, t: Sys, g: nat, h: nat)
    requires g in s.loopers && g != h == s.nextGeneration
    requires t == s.(loopers := s.loopers - multiset{g} + multiset{h})
    ensures Work(t) < Work(s)
  {
    assert t.loopers[h := 0] == s.loopers[h := 0] - multiset{g};
    OneLess(s.loopers[h := 0], g);
    OneLess(s.loopers, g);
  }

  /** The caller stops looping: it returns, or waits for a start, perhaps a new one. */
  lemma LooperLeaves(s: Sys, t: Sys, g: nat)
    requires NewestInv(s) && Enabled(s, LooperResumed(g)) && t == Step(s, LooperResumed(g))
    requires t.loopers == s.loopers - multiset{g}
    ensures Behind(t) + Remaining(t) + |t.starters| + |t.stoppers|
          < Behind(s) + Remaining(s) + |s.starters| + |s.stoppers| + |s.loopers| + 4
  {
    assert Behind(t) <= |t.loopers| by { assert |t.loopers| == Behind(t) + t.loopers[t.nextGeneration]; }
  }

  lemma WaiterMakesProgress(s: Sys, e: Event)
    requires Enabled(s, e) && (e.StarterResumed? || e.StopperResumed?)
    ensures Work(Step(s, e)) < Work(s)
  {
    var t := Step(s, e);
    assert t.loopers == s.loopers && Behind(t) == Behind(s);
    assert Remaining(t) <= Remaining(s);
    OneLess(s.starters, e.gen);
    OneLess(s.stoppers, e.gen);
  }

  lemma OneLess(m: multiset<nat>, g: nat)
    ensures g in m ==> |m - multiset{g}| == |m| - 1
  {
  }

  /** A run without new calls takes at most as many steps as there is work left. */
  lemma {:induction false} RunsEnd(s: Sys, events: seq<Event>)
    requires Inv(s) && NewestInv(s) && Legal(s, events) && s.nextGeneration + |events| < TWO_64
    requires forall e :: e in events ==> !IsCall(e)
    ensures |events| + Work(After(s, events)) <= Work(s)
    decreases |events|
  {
    if events != [] {
      assert events[0] in events;
      StepsMakeProgress(s, events[0]);
      StepKeepsInv(s, events[0]);
      StepKeepsNewest(s, events[0]);
      RunsEnd(Step(s, events[0]), events[1..]);
    }
  }

  /** A run that nothing but a new call can prolong. */
  ghost predicate Finished(s: Sys) {
    forall e :: !IsCall(e) ==> !Enabled(s, e)
  }

  /** Whatever was called so far: once nothing but a new call can happen, every caller has been answered. */
  lemma EveryCallerIsAnswered(events: seq<Event>)
    requires Legal(INITIAL, events) && |events| < TWO_64
    ensures var s := After(INITIAL, events);
            Finished(s) <==> (s.starters == s.loopers == s.stoppers == multiset{}
                              && (s.lifecycle.Stopped? || s.lifecycle.Running?))
  {
    RunKeepsInv(INITIAL, events);
    var s := After(INITIAL, events);
    WaitingIsNeverStuck(s);
    if s.starters == s.loopers == s.stoppers == multiset{} && (s.lifecycle.Stopped? || s.lifecycle.Running?) {
      forall e | !IsCall(e) ensures !Enabled(s, e) { AtRest(s, e); }
    }
  }

  lemma AtRest(s: Sys, e: Event)
    requires Inv(s) && s.starters == s.loopers == s.stoppers == multiset{} && !IsCall(e)
    requires s.lifecycle.Stopped? || s.lifecycle.Running?
    ensures !Enabled(s, e)
  {
    if Enabled(s, e) && e.TaskRan? {
      TaskStepKeepsInv(s, e);
      TaskStepKeepsOp(s.ops[e.gen], e.step);
    }
  }

  /** While somebody waits, a step other than a call can happen. */
  lemma WaitingIsNeverStuck(s: Sys)
    requires Inv(s)
    ensures (exists e :: !IsCall(e) && Enabled(s, e)) || (s.starters == s.loopers == s.stoppers == multiset{}
                                                          && (s.lifecycle.Stopped? || s.lifecycle.Running?))
  {
    if g :| g in s.starters {
      StartTaskMoves(s, g);
    } else if g :| g in s.loopers || g in s.stoppers {
      StopTaskMoves(s, g);
    } else {
      assert s.starters == multiset{} && s.loopers == multiset{} && s.stoppers == multiset{};
    }
  }

  lemma StartTaskMoves(s: Sys, g: nat)
    requires Inv(s) && g in s.ops && (g in s.starters || s.ops[g].stopTask.AwaitingStart?)
    ensures exists e :: !IsCall(e) && Enabled(s, e)
  {
    match s.ops[g].startTask
    case Preparing => assert Enabled(s, TaskRan(g, Prepared(true)));
    case ServerStarting => assert Enabled(s, TaskRan(g, ServerStarted(true)));
    case RollingBack => assert Enabled(s, TaskRan(g, RolledBack));
    case _ =>
      if g in s.starters { assert Enabled(s, StarterResumed(g)); } else { assert Enabled(s, TaskRan(g, StartAwaited)); }
  }

  lemma StopTaskMoves(s: Sys, g: nat)
    requires Inv(s) && (g in s.loopers || g in s.stoppers)
    ensures exists e :: !IsCall(e) && Enabled(s, e)
  {
    match s.ops[g].stopTask
    case AwaitingStart => StartTaskMoves(s, g);
    case ServerStopping => assert Enabled(s, TaskRan(g, ServerStopped));
    case AskingStatus => assert Enabled(s, TaskRan(g, StatusSeen(false)));
    case RecordingStopping => assert Enabled(s, TaskRan(g, RecordingStopped));
    case ShutDown =>
      if g in s.loopers { assert Enabled(s, LooperResumed(g)); } else { assert Enabled(s, StopperResumed(g)); }
  }

  // ----------------------------------------------------------- the runtime itself

  /** The lifecycle fields of the runtime; the rest stands for its callers and what they spawned. */
  class Runtime {
    var lifecycle: Lifecycle
    var nextLifecycleGeneration: nat
    var ops: map<nat, Op>
    var starters: multiset<nat>
    var loopers: multiset<nat>
    var stoppers: multiset<nat>

    ghost function View(): Sys
      reads this
    {
      Sys(lifecycle, nextLifecycleGeneration, ops, starters, loopers, stoppers)
    }

    ghost predicate Valid()
      reads this
    {
      Inv(View()) && NewestInv(View())
    }

    /** One more generation still fits the 64-bit counter. */
    predicate CounterFits()
      reads this
    {
      nextLifecycleGeneration + 1 < TWO_64
    }

    constructor ()
      ensures Valid() && View() == INITIAL
    {
      lifecycle, nextLifecycleGeneration, ops := Stopped, 0, map[];
      starters, loopers, stoppers := multiset{}, multiset{}, multiset{};
    }

    method MakeStartTask(generation: nat)
      modifies this`ops
      ensures ops == old(ops)[generation := FRESH]
    {
      ops := ops[generation := FRESH];
    }

    method Start()
      requires Valid()
      modifies this
      ensures View() == StartPass(old(View()))
      ensures old(CounterFits()) ==> Valid()
    {
      if CounterFits() { CallKeepsValid(View(), StartCalled); }
      PassThroughStart();
    }

    method PassThroughStart()
      modifies this
      ensures View() == StartPass(old(View()))
    {
      match lifecycle {
        case Stopped =>
          nextLifecycleGeneration := Following(nextLifecycleGeneration);
          var generation := nextLifecycleGeneration;
          MakeStartTask(generation);
          lifecycle := Starting(generation);
          starters := starters + multiset{generation};
        case Starting(generation) =>
          starters := starters + multiset{generation};
        case Running(_) =>
        case Stopping(generation) =>
          loopers := loopers + multiset{generation};
      }
    }

    method Stop()
      requires Valid()
      modifies this
      ensures Valid() && View() == StopPass(old(View()))
    {
      StopPassKeepsInv(View());
      PassThroughStop();
    }

    method PassThroughStop()
      requires Current(View())
      modifies this
      ensures View() == StopPass(old(View()))
    {
      match lifecycle {
        case Stopped =>
        case Starting(generation) =>
          ops := ops[generation := ops[generation].(stopTask := AwaitingStart)];
          lifecycle := Stopping(generation);
          stoppers := stoppers + multiset{generation};
        case Running(generation) =>
          var op := ops[generation];
          ops := ops[generation := op.(stopTask := ServerStopping, stops := op.stops + 1)];
          lifecycle := Stopping(generation);
          stoppers := stoppers + multiset{generation};
        case Stopping(generation) =>
          stoppers := stoppers + multiset{generation};
      }
    }

    /** A step of one of the two tasks of a generation. */
    method RunTask(generation: nat, step: TaskEvent)
      requires Valid() && Enabled(View(), TaskRan(generation, step))
      modifies this`ops
      ensures Valid() && View() == Step(old(View()), TaskRan(generation, step))
    {
      TaskStepKeepsInv(View(), TaskRan(generation, step));
      ops := ops[generation := TaskStep(ops[generation], step)];
    }

    /** A start caller whose start task is over; it throws when its start failed. */
    method StarterReturns(generation: nat) returns (thrown: bool)
      requires Valid() && Enabled(View(), StarterResumed(generation))
      modifies this
      ensures Valid() && View() == Step(old(View()), StarterResumed(generation))
      ensures thrown <==> ops[generation].startTask.StartFailed?
    {
      StarterKeepsValid(View(), generation);
      starters := starters - multiset{generation};
      thrown := MarkStarted(generation);
    }

    method MarkStarted(generation: nat) returns (thrown: bool)
      requires generation in ops && StartOver(ops[generation])
      modifies this`lifecycle
      ensures View() == FinishStart(old(View()), generation)
      ensures thrown <==> ops[generation].startTask.StartFailed?
    {
      thrown := ops[generation].startTask.StartFailed?;
      if lifecycle.Starting? && lifecycle.gen == generation {
        lifecycle := if thrown then Stopped else Running(generation);
      }
    }

    method MarkStopped(generation: nat)
      modifies this`lifecycle
      ensures View() == FinishStop(old(View()), generation)
    {
      if lifecycle.Stopping? && lifecycle.gen == generation { lifecycle := Stopped; }
    }

    /** A stop caller whose stop task is over: the server it asked to stop is down. */
    method StopperReturns(generation: nat)
      requires Valid() && Enabled(View(), StopperResumed(generation))
      modifies this
      ensures Valid() && View() == Step(old(View()), StopperResumed(generation))
      ensures !Live(ops[generation])
    {
      StopperKeepsValid(View(), generation);
      stoppers := stoppers - multiset{generation};
      MarkStopped(generation);
    }

    /** A start caller that waited for a stop: it goes round its loop. */
    method LooperRetries(generation: nat)
      requires Valid() && Enabled(View(), LooperResumed(generation))
      modifies this
      ensures View() == Step(old(View()), LooperResumed(generation))
      ensures old(CounterFits()) ==> Valid()
    {
      if CounterFits() { CallKeepsValid(View(), LooperResumed(generation)); }
      loopers := loopers - multiset{generation};
      MarkStopped(generation);
      PassThroughStart();
    }
  }

  lemma StarterKeepsValid(s: Sys, g: nat)
    requires Inv(s) && NewestInv(s) && Enabled(s, StarterResumed(g))
    ensures var t := Step(s, StarterResumed(g));
            Inv(t) && NewestInv(t)
  {
    StarterKeepsInv(s, g);
  }

  lemma StopperKeepsValid(s: Sys, g: nat)
    requires Inv(s) && NewestInv(s) && Enabled(s, StopperResumed(g))
    ensures var t := Step(s, StopperResumed(g));
            Inv(t) && NewestInv(t) && t.ops == s.ops && !Live(s.ops[g])
  {
    StopWaiterKeepsInv(s, g, s.loopers, s.stoppers - multiset{g});
  }

  lemma CallKeepsValid(s: Sys, e: Event)
    requires Inv(s) && NewestInv(s) && Enabled(s, e) && s.nextGeneration + 1 < TWO_64
    ensures Inv(Step(s, e)) && NewestInv(Step(s, e))
  {
    StepKeepsInv(s, e);
    StepKeepsNewest(s, e);
  }
}
