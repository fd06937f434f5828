/**
 The bootstrap told from the list of events: a start operation is up or broken exactly as
 its task ended, a caller goes on only when what it asked for has come about, nothing is
 stopped that nobody asked to stop, and a start and a stop that nothing disturbs go through.
 */
module BootstrapHistory {
  import opened BootstrapLifecycle

  /** Where a start operation is, by how its task ended. */
  ghost predicate StartTold(events: seq<Event>, o: nat, op: StartOp) {
    && (op.task.Up? <==> StartEnded(o, true) in events)
    && (op.task.Broken? <==> StartEnded(o, false) in events)
  }

  ghost predicate OperationsTold(events: seq<Event>, s: Sys) {
    && (forall o :: 0 <= o < |s.starts| ==> StartTold(events, o, s.starts[o]))
    && (forall p :: 0 <= p < |s.stops| ==> (s.stops[p].done <==> StopEnded(p) in events))
    && (forall o: nat, ok :: |s.starts| <= o ==> StartEnded(o, ok) !in events)
    && (forall p: nat :: |s.stops| <= p ==> StopEnded(p) !in events)
  }

  /** Nobody has asked for a stop. */
  ghost predicate Unasked(s: Sys) {
    && s.stops == []
    && (forall o :: 0 <= o < |s.starts| ==> !s.starts[o].stopRequested && s.starts[o].stops == 0)
    && (forall w :: w in s.waiting ==> w.OnStart? && w.andThen.StartReturns?)
  }

  ghost predicate Told(events: seq<Event>, s: Sys) {
    OperationsTold(events, s) && (StopCalled !in events ==> Unasked(s))
  }

  // ------------------------------------------------------------- what a step can change

  /** The tasks are as they were; there may be one more operation of each kind, not ended yet. */
  ghost predicate SameTasks(s: Sys, t: Sys) {
    && |s.starts| <= |t.starts| && |s.stops| <= |t.stops|
    && (forall o :: 0 <= o < |s.starts| ==> t.starts[o].task == s.starts[o].task)
    && (forall o :: |s.starts| <= o < |t.starts| ==> t.starts[o].task.Pending?)
    && (forall p :: 0 <= p < |s.stops| ==> t.stops[p].done == s.stops[p].done)
    && (forall p :: |s.stops| <= p < |t.stops| ==> !t.stops[p].done)
  }

  lemma NewStopSameTasks(s: Sys, o: nat, andThen: Then)
    requires o < |s.starts|
    ensures SameTasks(s, NewStop(s, o, andThen))
  {
  }

  lemma StopPassSameTasks(s: Sys)
    requires InRange(s)
    ensures SameTasks(s, StopPass(s))
  {
    match s.lifecycle
    case Running(o) => NewStopSameTasks(s, o, StopReturns);
    case _ =>
  }

  lemma ContinueSameTasks(s: Sys, andThen: Then)
    requires InRange(s)
    ensures SameTasks(s, Continue(s, andThen))
  {
    match andThen
    case StopRetries => StopPassSameTasks(s);
    case _ =>
  }

  lemma SettleSameTasks(s: Sys, w: Waiter)
    requires InRange(s) && Enabled(s, Resumed(w))
    ensures SameTasks(s, Step(s, Resumed(w)))
  {
    var t := s.(waiting := s.waiting - multiset{w});
    match w {
      case OnStart(o, andThen) =>
        if t.lifecycle == Starting(o) && t.starts[o].stopRequested { NewStopSameTasks(t, o, andThen); }
        else if t.lifecycle == Starting(o) { ContinueSameTasks(t.(lifecycle := Running(o)), andThen); }
        else { ContinueSameTasks(t, andThen); }
      case OnStop(p, andThen) =>
        ContinueSameTasks(if t.lifecycle == Stopping(p) then t.(lifecycle := Stopped) else t, andThen);
    }
  }

  lemma TasksTold(events: seq<Event>, s: Sys, e: Event, t: Sys)
    requires OperationsTold(events, s) && SameTasks(s, t) && !e.StartEnded? && !e.StopEnded?
    ensures OperationsTold(events + [e], t)
  {
  }

  lemma StartEndTold(events: seq<Event>, s: Sys, o: nat, ok: bool)
    requires InRange(s) && OperationsTold(events, s) && Enabled(s, StartEnded(o, ok))
    ensures OperationsTold(events + [StartEnded(o, ok)], Step(s, StartEnded(o, ok)))
  {
  }

  lemma StopEndTold(events: seq<Event>, s: Sys, p: nat)
    requires InRange(s) && OperationsTold(events, s) && Enabled(s, StopEnded(p))
    ensures OperationsTold(events + [StopEnded(p)], Step(s, StopEnded(p)))
  {
  }

  lemma StepTold(events: seq<Event>, s: Sys, e: Event)
    requires InRange(s) && Enabled(s, e) && OperationsTold(events, s)
    ensures OperationsTold(events + [e], Step(s, e))
  {
    match e
    case StartEnded(o, ok) => StartEndTold(events, s, o, ok);
    case StopEnded(p) => StopEndTold(events, s, p);
    case StartCalled => TasksTold(events, s, e, StartPass(s));
    case StopCalled =>
      StopPassSameTasks(s);
      TasksTold(events, s, e, StopPass(s));
    case Resumed(w) =>
      SettleSameTasks(s, w);
      TasksTold(events, s, e, Step(s, e));
  }

  lemma StillUnasked(s: Sys, e: Event)
    requires Inv(s) && Enabled(s, e) && Unasked(s) && !e.StopCalled?
    ensures Unasked(Step(s, e))
  {
  }

  lemma {:induction false} LastEvent(s: Sys, events: seq<Event>, e: Event)
    requires Legal(s, events + [e])
    ensures Legal(s, events) && InRange(After(s, events)) && Enabled(After(s, events), e)
    ensures After(s, events + [e]) == Step(After(s, events), e)
    decreases |events|
  {
    if events == [] {
      assert events + [e] == [e] && [e][1..] == [];
    } else {
      assert (events + [e])[1..] == events[1..] + [e];
      LastEvent(Step(s, events[0]), events[1..], e);
    }
  }

  /** In every run the operations are where their tasks' ends say, and unasked without a stop call. */
  lemma {:induction false} RunIsTold(events: seq<Event>)
    requires Legal(INITIAL, events)
    ensures Inv(After(INITIAL, events)) && Told(events, After(INITIAL, events))
  {
    if events != [] {
      var init, e := events[..|events| - 1], events[|events| - 1];
      assert events == init + [e];
      LastEvent(INITIAL, init, e);
      RunIsTold(init);
      StepTold(init, After(INITIAL, init), e);
      StepKeepsInv(After(INITIAL, init), e);
      if StopCalled !in events { StillUnasked(After(INITIAL, init), e); }
    }
  }

  // --------------------------------------------------------------- the consequences

  /** A start operation is up exactly when its task ended well and broken exactly when it threw; running means up. */
  lemma StartEndsAsItsTask(events: seq<Event>, o: nat)
    requires Legal(INITIAL, events) && o < |After(INITIAL, events).starts|
    ensures var s := After(INITIAL, events);
            && (s.starts[o].task.Up? <==> StartEnded(o, true) in events)
            && (s.starts[o].task.Broken? <==> StartEnded(o, false) in events)
            && (s.lifecycle == Running(o) ==> StartEnded(o, true) in events)
  {
    RunIsTold(events);
    var s := After(INITIAL, events);
    assert StartTold(events, o, s.starts[o]) && CurrentInv(s);
  }

  /** Without a stop call nothing is ever being stopped; what came up and was settled runs. */
  lemma NothingIsStoppedUnasked(events: seq<Event>)
    requires Legal(INITIAL, events) && StopCalled !in events
    ensures var s := After(INITIAL, events);
            s.stops == [] && !s.lifecycle.Stopping? && forall o :: 0 <= o < |s.starts| ==> s.starts[o].stops == 0
  {
    RunIsTold(events);
    var s := After(INITIAL, events);
    assert !s.lifecycle.Stopping?;
  }

  /** The first caller to settle the current start decides the lifecycle by how the task ended and whether a stop was
      requested. */
  lemma SettledStartDecides(events: seq<Event>, o: nat, andThen: Then)
    requires Legal(INITIAL, events) && Enabled(After(INITIAL, events), Resumed(OnStart(o, andThen)))
    requires After(INITIAL, events).lifecycle == Starting(o)
    ensures var s := After(INITIAL, events);
            var t := Step(s, Resumed(OnStart(o, andThen)));
            && (StartEnded(o, false) in events ==> t.lifecycle == Stopped)
            && (StartEnded(o, true) in events && !s.starts[o].stopRequested && andThen.StartReturns? ==>
                t.lifecycle == Running(o))
            && (StartEnded(o, true) in events && s.starts[o].stopRequested ==>
                  t.lifecycle == Stopping(|s.stops|) && t.stops == s.stops + [StopOp(o, false)])
  {
    RunIsTold(events);
  }

  /** The caller is through: it no longer waits. */
  ghost predicate Leaves(s: Sys, w: Waiter)
    requires InRange(s) && Enabled(s, Resumed(w))
  {
    |Step(s, Resumed(w)).waiting| < |s.waiting|
  }

  lemma OneOut(m: multiset<Waiter>, w: Waiter, v: Waiter)
    requires w in m
    ensures |m - multiset{w}| == |m| - 1 && |m - multiset{w} + multiset{v}| == |m|
  {
  }

  /** A start call returns at once exactly when the runtime runs, a stop call exactly when it is stopped. */
  lemma CallsReturnAtOnceIff(s: Sys)
    requires Inv(s)
    ensures |StartPass(s).waiting| == |s.waiting| + (if s.lifecycle.Running? then 0 else 1)
    ensures |StopPass(s).waiting| == |s.waiting| + (if s.lifecycle.Stopped? then 0 else 1)
  {
  }

  /** A caller settling a start leaves exactly when the start threw or what it asked for has come about. */
  lemma StartWaiterLeavesIff(s: Sys, o: nat, andThen: Then)
    requires Inv(s) && Enabled(s, Resumed(OnStart(o, andThen)))
    ensures var t := Step(s, Resumed(OnStart(o, andThen)));
            && Leaves(s, OnStart(o, andThen))
               == (s.starts[o].task.Broken?
                   || (if andThen.StartReturns? then !t.lifecycle.Stopping? else t.lifecycle.Stopped?))
            && (!Leaves(s, OnStart(o, andThen)) ==> |t.waiting| == |s.waiting|)
  {
    var w := OnStart(o, andThen);
    assert andThen.StartReturns? || andThen.StopRetries?;
    var t := Step(s, Resumed(w));
    forall v: Waiter ensures |s.waiting - multiset{w} + multiset{v}| == |s.waiting|
        && |s.waiting - multiset{w}| == |s.waiting| - 1 {
      OneOut(s.waiting, w, v);
    }
  }

  /** A caller settling a stop leaves, but that one which goes round its loop leaves only when running, or stopped. */
  lemma StopWaiterLeavesIff(s: Sys, p: nat, andThen: Then)
    requires Inv(s) && Enabled(s, Resumed(OnStop(p, andThen)))
    ensures var t := Step(s, Resumed(OnStop(p, andThen)));
            && Leaves(s, OnStop(p, andThen))
               == (match andThen
                   case StartRetries => t.lifecycle.Running?
                   case StopRetries => t.lifecycle.Stopped?
                   case _ => true)
            && (!Leaves(s, OnStop(p, andThen)) ==> |t.waiting| == |s.waiting|)
  {
    var w := OnStop(p, andThen);
    forall v: Waiter ensures |s.waiting - multiset{w} + multiset{v}| == |s.waiting|
        && |s.waiting - multiset{w}| == |s.waiting| - 1 {
      OneOut(s.waiting, w, v);
    }
  }

  // ----------------------------------------------------------- a bootstrap left alone

  lemma {:induction false} OneMoreEvent(s: Sys, events: seq<Event>, e: Event)
    requires Legal(s, events) && InRange(After(s, events)) && Enabled(After(s, events), e)
    ensures Legal(s, events + [e]) && After(s, events + [e]) == Step(After(s, events), e)
    decreases |events|
  {
    if events == [] {
      assert events + [e] == [e] && [e][1..] == [];
    } else {
      assert (events + [e])[1..] == events[1..] + [e];
      OneMoreEvent(Step(s, events[0]), events[1..], e);
    }
  }

  lemma FirstEvent(s: Sys, e: Event)
    requires InRange(s) && Enabled(s, e)
    ensures Legal(s, [e]) && After(s, [e]) == Step(s, e)
  {
    assert [e][0] == e && [e][1..] == [];
    assert Legal(Step(s, e), []);
  }

  lemma ThreeEvents(s: Sys, a: Event, b: Event, c: Event, s1: Sys, s2: Sys)
    requires InRange(s) && Enabled(s, a) && s1 == Step(s, a) && InRange(s1) && Enabled(s1, b)
    requires s2 == Step(s1, b) && InRange(s2) && Enabled(s2, c)
    ensures Legal(s, [a, b, c]) && After(s, [a, b, c]) == Step(s2, c)
  {
    FirstEvent(s, a);
    OneMoreEvent(s, [a], b);
    OneMoreEvent(s, [a] + [b], c);
    assert [a] + [b] + [c] == [a, b, c];
  }

  /** From any stopped state, a start whose runtime comes up leads to running. */
  lemma UndisturbedStart(s: Sys)
    requires Inv(s) && s.lifecycle.Stopped?
    ensures var o := |s.starts|;
            var events := [StartCalled, StartEnded(o, true), Resumed(OnStart(o, StartReturns))];
            Legal(s, events) && After(s, events).lifecycle == Running(o)
  {
    var o := |s.starts|;
    var a, b, c := StartCalled, StartEnded(o, true), Resumed(OnStart(o, StartReturns));
    StepKeepsInv(s, a);
    assert OnStart(o, StartReturns) in Step(s, a).waiting;
    StepKeepsInv(Step(s, a), b);
    ThreeEvents(s, a, b, c, Step(s, a), Step(Step(s, a), b));
  }

  /** From any running state, a stop leads to stopped. */
  lemma UndisturbedStop(s: Sys)
    requires Inv(s) && s.lifecycle.Running?
    ensures var p := |s.stops|;
            var events := [StopCalled, StopEnded(p), Resumed(OnStop(p, StopReturns))];
            Legal(s, events) && After(s, events).lifecycle == Stopped
  {
    var p := |s.stops|;
    var a, b, c := StopCalled, StopEnded(p), Resumed(OnStop(p, StopReturns));
    StepKeepsInv(s, a);
    assert Step(s, a).stops[p] == StopOp(s.lifecycle.op, false);
    assert OnStop(p, StopReturns) in Step(s, a).waiting;
    StepKeepsInv(Step(s, a), b);
    ThreeEvents(s, a, b, c, Step(s, a), Step(Step(s, a), b));
  }
}
