/**
 The app-side bootstrap: start and stop callers share start and stop operations that
 are compared by identity. An operation's identity is its position in creation order.

 A step is what runs between two suspension points. Whether the runtime starts is the
 environment's answer.
 */
module BootstrapLifecycle {

  datatype StartTask = Pending | Up | Broken

  /** `stops` and `down` are history: how often the runtime's stop was called, and whether it has returned. */
  datatype StartOp = StartOp(task: StartTask, stopRequested: bool, stops: nat, down: bool)

  datatype StopOp = StopOp(runtime: nat, done: bool)

  datatype Lifecycle = Stopped | Starting(op: nat) | Running(op: nat) | Stopping(stop: nat)

  /** What a caller does once the operation it awaits has settled. */
  datatype Then = StartReturns | StartRetries | StopReturns | StopRetries

  datatype Waiter = OnStart(op: nat, andThen: Then) | OnStop(stop: nat, andThen: Then)

  datatype Sys = Sys(lifecycle: Lifecycle, starts: seq<StartOp>, stops: seq<StopOp>, waiting: multiset<Waiter>)

  const INITIAL := Sys(Stopped, [], [], multiset{})

  function Await(s: Sys, w: Waiter): Sys { s.(waiting := s.waiting + multiset{w}) }

  /** A new stop operation for a runtime, awaited by its creator. */
  function NewStop(s: Sys, o: nat, andThen: Then): Sys
    requires o < |s.starts|
  {
    Await(s.(lifecycle := Stopping(|s.stops|), stops := s.stops + [StopOp(o, false)],
             starts := s.starts[o := s.starts[o].(stops := s.starts[o].stops + 1)]),
          OnStop(|s.stops|, andThen))
  }

  /** One pass of the loop in `start`. */
  function StartPass(s: Sys): Sys {
    match s.lifecycle
    case Stopped =>
      Await(s.(lifecycle := Starting(|s.starts|), starts := s.starts + [StartOp(Pending, false, 0, false)]),
            OnStart(|s.starts|, StartReturns))
    case Starting(o) => Await(s, OnStart(o, StartReturns))
    case Running(_) => s
    case Stopping(p) => Await(s, OnStop(p, StartRetries))
  }

  /** One pass of the loop in `stop`. */
  function StopPass(s: Sys): Sys
    requires InRange(s)
  {
    match s.lifecycle
    case Stopped => s
    case Starting(o) => Await(s.(starts := s.starts[o := s.starts[o].(stopRequested := true)]), OnStart(o, StopRetries))
    case Running(o) => NewStop(s, o, StopReturns)
    case Stopping(p) => Await(s, OnStop(p, StopReturns))
  }

  function Continue(s: Sys, andThen: Then): Sys
    requires InRange(s)
  {
    match andThen
    case StartReturns => s
    case StopReturns => s
    case StartRetries => StartPass(s)
    case StopRetries => StopPass(s)
  }

  /** `settleStart` once its start task is over. */
  function StartSettled(s: Sys, o: nat, andThen: Then): Sys
    requires InRange(s) && o < |s.starts|
  {
    if s.starts[o].task.Up? then
      if s.lifecycle == Starting(o) then
        if s.starts[o].stopRequested then NewStop(s, o, andThen)
        else Continue(s.(lifecycle := Running(o)), andThen)
      else if s.lifecycle.Stopping? then Await(s, OnStop(s.lifecycle.stop, andThen))
      else Continue(s, andThen)
    else if s.lifecycle == Starting(o) then s.(lifecycle := Stopped)   // start throws, stop returns
    else s
  }

  /** `settleStop` once its stop task is over. */
  function StopSettled(s: Sys, p: nat, andThen: Then): Sys
    requires InRange(s)
  {
    Continue(if s.lifecycle == Stopping(p) then s.(lifecycle := Stopped) else s, andThen)
  }

  // ------------------------------------------------------------------- the steps

  datatype Event =
    | StartCalled
    | StopCalled
    | StartEnded(op: nat, ok: bool)
    | StopEnded(stop: nat)
    | Resumed(waiter: Waiter)

  predicate InRange(s: Sys) {
    match s.lifecycle
    case Stopped => true
    case Starting(o) => o < |s.starts|
    case Running(o) => o < |s.starts|
    case Stopping(p) => p < |s.stops| && s.stops[p].runtime < |s.starts|
  }

  predicate Enabled(s: Sys, e: Event) {
    match e
    case StartCalled => true
    case StopCalled => true
    case StartEnded(o, _) => o < |s.starts| && s.starts[o].task.Pending?
    case StopEnded(p) => p < |s.stops| && !s.stops[p].done && s.stops[p].runtime < |s.starts|
    case Resumed(w) =>
      && w in s.waiting
      && match w
         case OnStart(o, _) => o < |s.starts| && !s.starts[o].task.Pending?
         case OnStop(p, _) => p < |s.stops| && s.stops[p].done
  }

  function Step(s: Sys, e: Event): Sys
    requires InRange(s) && Enabled(s, e)
  {
    match e
    case StartCalled => StartPass(s)
    case StopCalled => StopPass(s)
    case StartEnded(o, ok) => s.(starts := s.starts[o := s.starts[o].(task := if ok then Up else Broken)])
    case StopEnded(p) =>
      var o := s.stops[p].runtime;
      s.(stops := s.stops[p := StopOp(o, true)], starts := s.starts[o := s.starts[o].(down := true)])
    case Resumed(w) =>
      var t := s.(waiting := s.waiting - multiset{w});
      match w
      case OnStart(o, andThen) => StartSettled(t, o, andThen)
      case OnStop(p, andThen) => StopSettled(t, p, andThen)
  }

  ghost predicate Legal(s: Sys, events: seq<Event>)
    decreases |events|
  {
    events != [] ==> InRange(s) && Enabled(s, events[0]) && Legal(Step(s, events[0]), events[1..])
  }

  ghost function After(s: Sys, events: seq<Event>): Sys
    requires Legal(s, events)
    decreases |events|
  {
    if events == [] then s else After(Step(s, events[0]), events[1..])
  }

  // --------------------------------------------------------------- the invariant

  ghost predicate Awaited(s: Sys) {
    match s.lifecycle
    case Stopped => true
    case Running(_) => true
    case Starting(o) => exists t :: OnStart(o, t) in s.waiting
    case Stopping(p) => exists t :: OnStop(p, t) in s.waiting
  }

  /** The start operation the lifecycle is about. */
  ghost predicate IsCurrent(s: Sys, o: nat)
    requires InRange(s)
  {
    match s.lifecycle
    case Stopped => false
    case Starting(c) => c == o
    case Running(c) => c == o
    case Stopping(p) => s.stops[p].runtime == o
  }

  /** Never started, or started and stopped exactly once. */
  predicate Over(op: StartOp) {
    || (op.task.Broken? && op.stops == 0)
    || (op.task.Up? && op.stops == 1 && op.down)
  }

  ghost predicate CurrentInv(s: Sys)
    requires InRange(s)
  {
    match s.lifecycle
    case Stopped => true
    case Starting(o) => s.starts[o].stops == 0 && !s.starts[o].down
    case Running(o) => s.starts[o].stops == 0 && !s.starts[o].down && s.starts[o].task.Up? && !s.starts[o].stopRequested
    case Stopping(p) =>
      var op := s.starts[s.stops[p].runtime];
      op.task.Up? && op.stops == 1 && op.down == s.stops[p].done
  }

  ghost predicate OthersOver(s: Sys)
    requires InRange(s)
  {
    && (forall o :: 0 <= o < |s.starts| && !IsCurrent(s, o) ==> Over(s.starts[o]))
    && (forall p :: 0 <= p < |s.stops| && s.lifecycle != Stopping(p) ==> s.stops[p].done)
    && (forall p :: 0 <= p < |s.stops| ==>
          && s.stops[p].runtime < |s.starts| && s.starts[s.stops[p].runtime].task.Up?
          && (s.stops[p].done ==> s.starts[s.stops[p].runtime].down))
  }

  ghost predicate WaitersInv(starts: nat, stops: nat, waiting: multiset<Waiter>) {
    forall w :: w in waiting ==>
      match w
      case OnStart(o, t) => o < starts && (t.StartReturns? || t.StopRetries?)
      case OnStop(p, _) => p < stops
  }

  ghost predicate Inv(s: Sys) {
    && InRange(s) && CurrentInv(s) && OthersOver(s) && Awaited(s)
    && WaitersInv(|s.starts|, |s.stops|, s.waiting)
  }

  // What a step needs of the state it starts from, when its caller has just been taken off the list.
  ghost predicate Bare(s: Sys) {
    InRange(s) && CurrentInv(s) && OthersOver(s) && WaitersInv(|s.starts|, |s.stops|, s.waiting)
  }

  lemma AwaitKeepsInv(s: Sys, w: Waiter)
    requires Bare(s)
    requires match w
             case OnStart(o, t) => o < |s.starts| && (t.StartReturns? || t.StopRetries?)
             case OnStop(p, _) => p < |s.stops|
    requires Awaited(s)
             || (match w case OnStart(o, _) => s.lifecycle == Starting(o) case OnStop(p, _) => s.lifecycle == Stopping(p))
    ensures Inv(Await(s, w))
  {
    var t := Await(s, w);
    assert w in t.waiting && forall v :: v in s.waiting ==> v in t.waiting;
  }

  lemma NewStopKeepsInv(s: Sys, o: nat, andThen: Then)
    requires Bare(s) && o < |s.starts| && s.starts[o].task.Up? && (s.lifecycle == Running(o) || s.lifecycle == Starting(o))
    ensures Inv(NewStop(s, o, andThen))
  {
    var p := |s.stops|;
    var t := s.(lifecycle := Stopping(p), stops := s.stops + [StopOp(o, false)],
                starts := s.starts[o := s.starts[o].(stops := s.starts[o].stops + 1)]);
    assert t.stops[p] == StopOp(o, false);
    assert forall q :: 0 <= q < p ==> t.stops[q] == s.stops[q];
    AwaitKeepsInv(t, OnStop(p, andThen));
  }

  lemma StartPassKeepsInv(s: Sys)
    requires Bare(s)
    ensures Inv(StartPass(s))
  {
    match s.lifecycle
    case Stopped =>
      var o := |s.starts|;
      var t := s.(lifecycle := Starting(o), starts := s.starts + [StartOp(Pending, false, 0, false)]);
      assert t.starts[o] == StartOp(Pending, false, 0, false);
      assert forall q :: 0 <= q < o ==> t.starts[q] == s.starts[q];
      AwaitKeepsInv(t, OnStart(o, StartReturns));
    case Starting(o) => AwaitKeepsInv(s, OnStart(o, StartReturns));
    case Running(_) =>
    case Stopping(p) => AwaitKeepsInv(s, OnStop(p, StartRetries));
  }

  lemma StopPassKeepsInv(s: Sys)
    requires Bare(s)
    ensures Inv(StopPass(s))
  {
    match s.lifecycle
    case Stopped =>
    case Starting(o) =>
      AwaitKeepsInv(s.(starts := s.starts[o := s.starts[o].(stopRequested := true)]), OnStart(o, StopRetries));
    case Running(o) => NewStopKeepsInv(s, o, StopReturns);
    case Stopping(p) => AwaitKeepsInv(s, OnStop(p, StopReturns));
  }

  lemma ContinueKeepsInv(s: Sys, andThen: Then)
    requires Bare(s) && Awaited(s)
    ensures Inv(Continue(s, andThen))
  {
    match andThen
    case StartRetries => StartPassKeepsInv(s);
    case StopRetries => StopPassKeepsInv(s);
    case _ =>
  }

  lemma WithoutWaiter(s: Sys, w: Waiter)
    requires Inv(s) && w in s.waiting
    ensures var t := s.(waiting := s.waiting - multiset{w});
            && Bare(t)
            && (match w
                case OnStart(o, _) => s.lifecycle != Starting(o) ==> Awaited(t)
                case OnStop(p, _) => s.lifecycle != Stopping(p) ==> Awaited(t))
  {
    var t := s.(waiting := s.waiting - multiset{w});
    assert forall v :: v in s.waiting && v != w ==> v in t.waiting;
  }

  lemma StartSettledKeepsInv(s: Sys, o: nat, andThen: Then)
    requires Bare(s) && o < |s.starts| && !s.starts[o].task.Pending?
    requires s.lifecycle != Starting(o) ==> Awaited(s)
    ensures Inv(StartSettled(s, o, andThen))
  {
    if s.starts[o].task.Up? {
      if s.lifecycle == Starting(o) {
        if s.starts[o].stopRequested { NewStopKeepsInv(s, o, andThen); }
        else { ContinueKeepsInv(s.(lifecycle := Running(o)), andThen); }
      } else if s.lifecycle.Stopping? {
        AwaitKeepsInv(s, OnStop(s.lifecycle.stop, andThen));
      } else {
        ContinueKeepsInv(s, andThen);
      }
    }
  }

  lemma StopSettledKeepsInv(s: Sys, p: nat, andThen: Then)
    requires Bare(s) && p < |s.stops| && s.stops[p].done
    requires s.lifecycle != Stopping(p) ==> Awaited(s)
    ensures Inv(StopSettled(s, p, andThen))
  {
    ContinueKeepsInv(if s.lifecycle == Stopping(p) then s.(lifecycle := Stopped) else s, andThen);
  }

  lemma TaskEndKeepsInv(s: Sys, e: Event)
    requires Inv(s) && Enabled(s, e) && (e.StartEnded? || e.StopEnded?)
    ensures Inv(Step(s, e))
  {
  }

  lemma StepKeepsInv(s: Sys, e: Event)
    requires Inv(s) && Enabled(s, e)
    ensures Inv(Step(s, e))
  {
    match e
    case StartCalled => StartPassKeepsInv(s);
    case StopCalled => StopPassKeepsInv(s);
    case StartEnded(_, _) => TaskEndKeepsInv(s, e);
    case StopEnded(_) => TaskEndKeepsInv(s, e);
    case Resumed(w) =>
      WithoutWaiter(s, w);
      var t := s.(waiting := s.waiting - multiset{w});
      match w
      case OnStart(o, andThen) => StartSettledKeepsInv(t, o, andThen);
      case OnStop(p, andThen) => StopSettledKeepsInv(t, p, andThen);
  }

  lemma {:induction false} RunKeepsInv(s: Sys, events: seq<Event>)
    requires Inv(s) && Legal(s, events)
    ensures Inv(After(s, events))
    decreases |events|
  {
    if events != [] {
      StepKeepsInv(s, events[0]);
      RunKeepsInv(Step(s, events[0]), events[1..]);
    }
  }

  // ----------------------------------------------------------------- the results

  /** A runtime is live while it is starting and, once up, until its stop has returned. */
  predicate Live(op: StartOp) { op.task.Pending? || (op.task.Up? && !op.down) }

  /** In every run at most one runtime is live, and none while the lifecycle is stopped. */
  lemma AtMostOneRuntime(events: seq<Event>, o: nat, q: nat)
    requires Legal(INITIAL, events)
    ensures var s := After(INITIAL, events);
            o < |s.starts| && q < |s.starts| && Live(s.starts[o]) && Live(s.starts[q]) ==> o == q && !s.lifecycle.Stopped?
  {
    RunKeepsInv(INITIAL, events);
  }

  /** Once the lifecycle has moved on, a runtime that came up has been stopped exactly once. */
  lemma StoppedExactlyOnce(events: seq<Event>, o: nat)
    requires Legal(INITIAL, events)
    ensures var s := After(INITIAL, events);
            && InRange(s)
            && (o < |s.starts| && !IsCurrent(s, o) ==>
                  !Live(s.starts[o]) && s.starts[o].stops == (if s.starts[o].task.Up? then 1 else 0))
            && (o < |s.starts| ==> s.starts[o].stops <= 1)
  {
    RunKeepsInv(INITIAL, events);
  }

  /** Whoever is resumed from a stop operation finds that operation's runtime down. */
  lemma StopReturnsWithRuntimeDown(events: seq<Event>, p: nat, andThen: Then)
    requires Legal(INITIAL, events) && Enabled(After(INITIAL, events), Resumed(OnStop(p, andThen)))
    ensures var s := After(INITIAL, events);
            && InRange(s) && s.stops[p].runtime < |s.starts|
            && !Live(s.starts[s.stops[p].runtime])
            && Step(s, Resumed(OnStop(p, andThen))).lifecycle != Stopping(p)
  {
    RunKeepsInv(INITIAL, events);
  }

  /** A stop called during a start is honoured: that runtime is never left running. */
  lemma StopDuringStartIsHonoured(events: seq<Event>, o: nat)
    requires Legal(INITIAL, events)
    ensures var s := After(INITIAL, events);
            o < |s.starts| && s.starts[o].stopRequested ==> s.lifecycle != Running(o)
  {
    RunKeepsInv(INITIAL, events);
  }

  /**
   Settling an operation the lifecycle has left changes nothing but where its caller waits;
   a caller that loops then does exactly what a new call would do.
   */
  lemma StaleSettleChangesNothing(s: Sys, w: Waiter)
    requires Inv(s) && Enabled(s, Resumed(w))
    requires match w case OnStart(o, _) => s.lifecycle != Starting(o) case OnStop(p, _) => s.lifecycle != Stopping(p)
    ensures var t, u := s.(waiting := s.waiting - multiset{w}), Step(s, Resumed(w));
            || (u.lifecycle == s.lifecycle && u.starts == s.starts && u.stops == s.stops)
            || (w.andThen.StartRetries? && u == StartPass(t))
            || (w.andThen.StopRetries? && u == StopPass(t))
  {
  }

  /** While somebody waits, something can happen; nobody waiting, the lifecycle is stopped or running. */
  lemma WaitingIsNeverStuck(s: Sys)
    requires Inv(s)
    ensures (exists e: Event :: !e.StartCalled? && !e.StopCalled? && Enabled(s, e))
         || (s.waiting == multiset{} && (s.lifecycle.Stopped? || s.lifecycle.Running?))
  {
    if w :| w in s.waiting {
      match w
      case OnStart(o, _) =>
        if s.starts[o].task.Pending? { assert Enabled(s, StartEnded(o, true)); } else { assert Enabled(s, Resumed(w)); }
      case OnStop(p, _) =>
        if s.stops[p].done { assert Enabled(s, Resumed(w)); } else { assert Enabled(s, StopEnded(p)); }
    } else {
      assert s.waiting == multiset{};
    }
  }

  // --------------------------------------------------------- the bootstrap itself

  /** The static lifecycle; the operations and waiting callers stand for what it spawned. */
  class Bootstrap {
    var lifecycle: Lifecycle
    var starts: seq<StartOp>
    var stops: seq<StopOp>
    var waiting: multiset<Waiter>

    ghost function View(): Sys
      reads this
    {
      Sys(lifecycle, starts, stops, waiting)
    }

    ghost predicate Valid()
      reads this
    {
      Inv(View())
    }

    constructor ()
      ensures Valid() && View() == INITIAL
    {
      lifecycle, starts, stops, waiting := Stopped, [], [], multiset{};
    }

    method SpawnStop(o: nat, andThen: Then)
      requires o < |starts|
      modifies this
      ensures View() == NewStop(old(View()), o, andThen)
    {
      var operation := |stops|;
      stops := stops + [StopOp(o, false)];
      starts := starts[o := starts[o].(stops := starts[o].stops + 1)];
      lifecycle := Stopping(operation);
      waiting := waiting + multiset{OnStop(operation, andThen)};
    }

    /** A caller's `start` up to its suspension or its return. */
    method Start()
      requires Valid()
      modifies this
      ensures Valid() && View() == StartPass(old(View()))
    {
      StartPassKeepsInv(View());
      PassThroughStart();
    }

    method PassThroughStart()
      modifies this
      ensures View() == StartPass(old(View()))
    {
      match lifecycle {
        case Stopped =>
          var operation := |starts|;
          starts := starts + [StartOp(Pending, false, 0, false)];
          lifecycle := Starting(operation);
          waiting := waiting + multiset{OnStart(operation, StartReturns)};
        case Starting(operation) => waiting := waiting + multiset{OnStart(operation, StartReturns)};
        case Running(_) =>
        case Stopping(operation) => waiting := waiting + multiset{OnStop(operation, StartRetries)};
      }
    }

    /** A caller's `stop` up to its suspension or its return. */
    method Stop()
      requires Valid()
      modifies this
      ensures Valid() && View() == StopPass(old(View()))
    {
      StopPassKeepsInv(View());
      PassThroughStop();
    }

    method PassThroughStop()
      requires InRange(View())
      modifies this
      ensures View() == StopPass(old(View()))
    {
      match lifecycle {
        case Stopped =>
        case Starting(operation) =>
          starts := starts[operation := starts[operation].(stopRequested := true)];
          waiting := waiting + multiset{OnStart(operation, StopRetries)};
        case Running(runtime) => SpawnStop(runtime, StopReturns);
        case Stopping(operation) => waiting := waiting + multiset{OnStop(operation, StopReturns)};
      }
    }

    method GoOn(andThen: Then)
      requires InRange(View())
      modifies this
      ensures View() == Continue(old(View()), andThen)
    {
      match andThen {
        case StartRetries => PassThroughStart();
        case StopRetries => PassThroughStop();
        case _ =>
      }
    }

    /** A start task has ended. */
    method StartTaskEnded(o: nat, ok: bool)
      requires Valid() && Enabled(View(), StartEnded(o, ok))
      modifies this`starts
      ensures Valid() && View() == Step(old(View()), StartEnded(o, ok))
    {
      StepKeepsInv(View(), StartEnded(o, ok));
      starts := starts[o := starts[o].(task := if ok then Up else Broken)];
    }

    /** A stop task has ended: its runtime is down. */
    method StopTaskEnded(p: nat)
      requires Valid() && Enabled(View(), StopEnded(p))
      modifies this
      ensures Valid() && View() == Step(old(View()), StopEnded(p))
    {
      StepKeepsInv(View(), StopEnded(p));
      var o := stops[p].runtime;
      stops := stops[p := StopOp(o, true)];
      starts := starts[o := starts[o].(down := true)];
    }

    /** A caller awaiting a start task goes on; true when the start's error is thrown to it. */
    method SettleStart(o: nat, andThen: Then) returns (thrown: bool)
      requires Valid() && Enabled(View(), Resumed(OnStart(o, andThen)))
      modifies this
      ensures Valid() && View() == Step(old(View()), Resumed(OnStart(o, andThen)))
      ensures thrown <==> old(starts)[o].task.Broken?
    {
      StepKeepsInv(View(), Resumed(OnStart(o, andThen)));
      thrown := GoOnFromStart(o, andThen);
    }

    method GoOnFromStart(o: nat, andThen: Then) returns (thrown: bool)
      requires InRange(View()) && Enabled(View(), Resumed(OnStart(o, andThen)))
      modifies this
      ensures View() == Step(old(View()), Resumed(OnStart(o, andThen)))
      ensures thrown <==> old(starts)[o].task.Broken?
    {
      waiting := waiting - multiset{OnStart(o, andThen)};
      thrown := starts[o].task.Broken?;
      if thrown {
        if lifecycle == Starting(o) { lifecycle := Stopped; }
      } else if lifecycle == Starting(o) {
        if starts[o].stopRequested {
          SpawnStop(o, andThen);
        } else {
          lifecycle := Running(o);
          GoOn(andThen);
        }
      } else if lifecycle.Stopping? {
        waiting := waiting + multiset{OnStop(lifecycle.stop, andThen)};
      } else {
        GoOn(andThen);
      }
    }

    /** A caller awaiting a stop task goes on. */
    method SettleStop(p: nat, andThen: Then)
      requires Valid() && Enabled(View(), Resumed(OnStop(p, andThen)))
      modifies this
      ensures Valid() && View() == Step(old(View()), Resumed(OnStop(p, andThen)))
    {
      StepKeepsInv(View(), Resumed(OnStop(p, andThen)));
      GoOnFromStop(p, andThen);
    }

    method GoOnFromStop(p: nat, andThen: Then)
      requires InRange(View()) && Enabled(View(), Resumed(OnStop(p, andThen)))
      modifies this
      ensures View() == Step(old(View()), Resumed(OnStop(p, andThen)))
    {
      waiting := waiting - multiset{OnStop(p, andThen)};
      if lifecycle == Stopping(p) { lifecycle := Stopped; }
      GoOn(andThen);
    }
  }
}
