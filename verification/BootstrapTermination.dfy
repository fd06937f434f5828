/**
 Every caller of the bootstrap is answered: without new calls a run ends, after at most
 as many steps as there is work left, and it ends with nobody waiting.

 A caller that goes round its loop waits for a newer operation each time, and the newest
 one can only be followed by another if a looping start caller makes it.
 */
module BootstrapTermination {
  import opened BootstrapLifecycle

  /** Operations come in order: each start has at most one stop, and the current one is the newest. */
  ghost predicate OrderInv(s: Sys) {
    && NewestIsCurrent(s)
    && (forall p :: 0 <= p < |s.stops| ==> s.stops[p].runtime < |s.starts| && s.starts[s.stops[p].runtime].stops >= 1)
    && (forall p, q :: 0 <= p < q < |s.stops| ==> s.stops[p].runtime < s.stops[q].runtime)
  }

  predicate NewestIsCurrent(s: Sys) {
    match s.lifecycle
    case Stopped => true
    case Starting(o) => o + 1 == |s.starts|
    case Running(o) => o + 1 == |s.starts|
    case Stopping(p) => p + 1 == |s.stops| && s.stops[p].runtime + 1 == |s.starts|
  }

  lemma NewStopKeepsOrder(s: Sys, o: nat, andThen: Then)
    requires OrderInv(s) && o < |s.starts| && s.starts[o].stops == 0
    requires s.lifecycle == Starting(o) || s.lifecycle == Running(o)
    ensures OrderInv(NewStop(s, o, andThen))
  {
    var t := NewStop(s, o, andThen);
    assert forall p :: 0 <= p < |s.stops| ==> t.stops[p] == s.stops[p] && s.stops[p].runtime < o;
  }

  lemma StartPassKeepsOrder(s: Sys)
    requires OrderInv(s)
    ensures OrderInv(StartPass(s))
  {
    assert forall o :: 0 <= o < |s.starts| ==> StartPass(s).starts[o] == s.starts[o];
  }

  lemma StopPassKeepsOrder(s: Sys)
    requires OrderInv(s) && InRange(s) && CurrentInv(s)
    ensures OrderInv(StopPass(s))
  {
    match s.lifecycle
    case Running(o) => NewStopKeepsOrder(s, o, StopReturns);
    case _ =>
  }

  lemma ContinueKeepsOrder(s: Sys, andThen: Then)
    requires OrderInv(s) && InRange(s) && CurrentInv(s)
    ensures OrderInv(Continue(s, andThen))
  {
    match andThen
    case StartRetries => StartPassKeepsOrder(s);
    case StopRetries => StopPassKeepsOrder(s);
    case _ =>
  }

  lemma StartSettledKeepsOrder(s: Sys, o: nat, andThen: Then)
    requires OrderInv(s) && InRange(s) && CurrentInv(s) && o < |s.starts|
    ensures OrderInv(StartSettled(s, o, andThen))
  {
    if s.starts[o].task.Up? {
      if s.lifecycle == Starting(o) {
        if s.starts[o].stopRequested { NewStopKeepsOrder(s, o, andThen); }
        else { ContinueKeepsOrder(s.(lifecycle := Running(o)), andThen); }
      } else if !s.lifecycle.Stopping? {
        ContinueKeepsOrder(s, andThen);
      }
    }
  }

  lemma StepKeepsOrder(s: Sys, e: Event)
    requires Inv(s) && OrderInv(s) && Enabled(s, e)
    ensures OrderInv(Step(s, e))
  {
    match e
    case StartCalled => StartPassKeepsOrder(s);
    case StopCalled => StopPassKeepsOrder(s);
    case Resumed(w) =>
      var t := s.(waiting := s.waiting - multiset{w});
      match w {
        case OnStart(o, andThen) => StartSettledKeepsOrder(t, o, andThen);
        case OnStop(p, andThen) =>
          ContinueKeepsOrder(if t.lifecycle == Stopping(p) then t.(lifecycle := Stopped) else t, andThen);
      }
    case _ =>
  }

  // ---------------------------------------------------------------- the work left

  /** A pending task, and a stop that may still be asked for. */
  function OpWork(op: StartOp): nat {
    (if op.task.Pending? then 1 else 0) + if op.stops == 0 then 3 else 0
  }

  function StartsWork(starts: seq<StartOp>): nat {
    if starts == [] then 0 else StartsWork(starts[..|starts| - 1]) + OpWork(starts[|starts| - 1])
  }

  function StopsWork(stops: seq<StopOp>): nat {
    if stops == [] then 0 else StopsWork(stops[..|stops| - 1]) + if stops[|stops| - 1].done then 0 else 1
  }

  lemma {:induction false} StartUpdated(starts: seq<StartOp>, o: nat, op: StartOp)
    requires o < |starts|
    ensures StartsWork(starts[o := op]) + OpWork(starts[o]) == StartsWork(starts) + OpWork(op)
  {
    var last := |starts| - 1;
    if o < last {
      StartUpdated(starts[..last], o, op);
      assert starts[o := op][..last] == starts[..last][o := op];
    } else {
      assert starts[o := op][..last] == starts[..last];
    }
  }

  lemma {:induction false} StopUpdated(stops: seq<StopOp>, p: nat, runtime: nat)
    requires p < |stops| && !stops[p].done
    ensures StopsWork(stops[p := StopOp(runtime, true)]) + 1 == StopsWork(stops)
  {
    var last := |stops| - 1;
    if p < last {
      StopUpdated(stops[..last], p, runtime);
      assert stops[p := StopOp(runtime, true)][..last] == stops[..last][p := StopOp(runtime, true)];
    } else {
      assert stops[p := StopOp(runtime, true)][..last] == stops[..last];
    }
  }

  lemma Appended(starts: seq<StartOp>, op: StartOp, stops: seq<StopOp>, stop: StopOp)
    ensures StartsWork(starts + [op]) == StartsWork(starts) + OpWork(op)
    ensures StopsWork(stops + [stop]) == StopsWork(stops) + if stop.done then 0 else 1
  {
    assert (starts + [op])[..|starts|] == starts && (stops + [stop])[..|stops|] == stops;
  }

  /** How far from the newest operation a caller waits; `round` is what a new start would cost. */
  function Weight(w: Waiter, newest: nat, stops: seq<StopOp>, round: nat): nat {
    match w
    case OnStart(o, _) => if o < newest then 2 * (newest - o) else 0
    case OnStop(p, t) =>
      (if p < |stops| && stops[p].runtime < newest then 2 * (newest - stops[p].runtime) - 1 else 0)
      + if t.StartRetries? then round else 0
  }

  ghost function Waiting(m: multiset<Waiter>, newest: nat, stops: seq<StopOp>, round: nat): nat
    decreases |m|
  {
    if m == multiset{} then 0
    else
      var w :| w in m;
      Weight(w, newest, stops, round) + Waiting(m - multiset{w}, newest, stops, round)
  }

  lemma FirstOut(m: multiset<Waiter>, newest: nat, stops: seq<StopOp>, round: nat) returns (v: Waiter)
    requires m != multiset{}
    ensures v in m
    ensures Waiting(m, newest, stops, round)
            == Weight(v, newest, stops, round) + Waiting(m - multiset{v}, newest, stops, round)
  {
    v :| v in m && Waiting(m, newest, stops, round)
                   == Weight(v, newest, stops, round) + Waiting(m - multiset{v}, newest, stops, round);
  }

  lemma OneOut(m: multiset<Waiter>, w: Waiter)
    requires w in m
    ensures |m - multiset{w}| == |m| - 1 && forall v :: v in m - multiset{w} ==> v in m
    ensures forall v :: v in m && v != w ==> v in m - multiset{w}
  {
  }

  lemma BothOut(m: multiset<Waiter>, v: Waiter, w: Waiter)
    requires v in m && w in m && v != w
    ensures w in m - multiset{v} && v in m - multiset{w}
    ensures |m - multiset{v}| < |m| && |m - multiset{w}| < |m|
    ensures m - multiset{v} - multiset{w} == m - multiset{w} - multiset{v}
  {
  }

  /** Whichever caller is taken out first, the sum is the same. */
  lemma {:induction false} TakenOut(m: multiset<Waiter>, w: Waiter, newest: nat, stops: seq<StopOp>, round: nat)
    requires w in m
    ensures Waiting(m, newest, stops, round)
            == Weight(w, newest, stops, round) + Waiting(m - multiset{w}, newest, stops, round)
    decreases |m|
  {
    var v := FirstOut(m, newest, stops, round);
    if v != w {
      BothOut(m, v, w);
      TakenOut(m - multiset{v}, w, newest, stops, round);
      TakenOut(m - multiset{w}, v, newest, stops, round);
    }
  }

  lemma PutIn(m: multiset<Waiter>, w: Waiter, newest: nat, stops: seq<StopOp>, round: nat)
    ensures Waiting(m + multiset{w}, newest, stops, round)
            == Weight(w, newest, stops, round) + Waiting(m, newest, stops, round)
  {
    TakenOut(m + multiset{w}, w, newest, stops, round);
    assert m + multiset{w} - multiset{w} == m;
  }

  /** A new or finished stop moves nobody. */
  lemma {:induction false} Unmoved(m: multiset<Waiter>, newest: nat, stops: seq<StopOp>, more: seq<StopOp>, round: nat)
    requires WaitersInv(newest, |stops|, m) && |stops| <= |more|
    requires forall p :: 0 <= p < |stops| ==> more[p].runtime == stops[p].runtime
    ensures Waiting(m, newest, more, round) == Waiting(m, newest, stops, round)
    decreases |m|
  {
    if m != multiset{} {
      var w :| w in m;
      OneOut(m, w);
      TakenOut(m, w, newest, stops, round);
      TakenOut(m, w, newest, more, round);
      Unmoved(m - multiset{w}, newest, stops, more, round);
    }
  }

  lemma MovedWeight(w: Waiter, newest: nat, stops: seq<StopOp>, round: nat)
    requires match w case OnStart(o, _) => o < newest case OnStop(p, _) => p < |stops| && stops[p].runtime < newest
    ensures Weight(w, newest + 1, stops, round) == Weight(w, newest, stops, round) + 2
  {
  }

  /** A new start moves every caller two places away. */
  lemma {:induction false} Moved(m: multiset<Waiter>, newest: nat, stops: seq<StopOp>, round: nat)
    requires WaitersInv(newest, |stops|, m) && forall p :: 0 <= p < |stops| ==> stops[p].runtime < newest
    ensures Waiting(m, newest + 1, stops, round) == Waiting(m, newest, stops, round) + 2 * |m|
    decreases |m|
  {
    if m != multiset{} {
      var w :| w in m;
      OneOut(m, w);
      TakenOut(m, w, newest, stops, round);
      TakenOut(m, w, newest + 1, stops, round);
      MovedWeight(w, newest, stops, round);
      Moved(m - multiset{w}, newest, stops, round);
    }
  }

  ghost function Work(s: Sys, round: nat): nat {
    Waiting(s.waiting, |s.starts|, s.stops, round) + StartsWork(s.starts) + StopsWork(s.stops)
  }

  /** What a new start can cost when at most `callers` wait. */
  function Round(callers: nat): nat { 2 * callers + 5 }

  lemma AwaitCosts(s: Sys, w: Waiter, round: nat)
    ensures Work(Await(s, w), round) == Work(s, round) + Weight(w, |s.starts|, s.stops, round)
  {
    PutIn(s.waiting, w, |s.starts|, s.stops, round);
  }

  lemma NewStopCosts(s: Sys, o: nat, andThen: Then, round: nat)
    requires OrderInv(s) && WaitersInv(|s.starts|, |s.stops|, s.waiting)
    requires o + 1 == |s.starts| && s.starts[o].stops == 0 && !andThen.StartRetries?
    ensures Work(NewStop(s, o, andThen), round) < Work(s, round)
  {
    var stops := s.stops + [StopOp(o, false)];
    var op := s.starts[o].(stops := s.starts[o].stops + 1);
    var t := s.(lifecycle := Stopping(|s.stops|), stops := stops, starts := s.starts[o := op]);
    Unmoved(s.waiting, |s.starts|, s.stops, stops, round);
    StartUpdated(s.starts, o, op);
    Appended(s.starts, op, s.stops, StopOp(o, false));
    assert Work(t, round) + 2 == Work(s, round);
    AwaitCosts(t, OnStop(|s.stops|, andThen), round);
  }

  lemma NewStartCosts(s: Sys, round: nat)
    requires OrderInv(s) && WaitersInv(|s.starts|, |s.stops|, s.waiting) && s.lifecycle.Stopped?
    ensures Work(StartPass(s), round) == Work(s, round) + 2 * |s.waiting| + 6
  {
    var o := |s.starts|;
    var op := StartOp(Pending, false, 0, false);
    var t := s.(lifecycle := Starting(o), starts := s.starts + [op]);
    Moved(s.waiting, o, s.stops, round);
    Appended(s.starts, op, s.stops, StopOp(0, true));
    AwaitCosts(t, OnStart(o, StartReturns), round);
  }

  /** A pass of the loop in `start`, of a caller that was waiting for an older operation. */
  lemma StartPassCosts(s: Sys, round: nat)
    requires OrderInv(s) && WaitersInv(|s.starts|, |s.stops|, s.waiting) && round >= 2 * |s.waiting| + 7
    ensures Work(StartPass(s), round) <= Work(s, round) + round + if s.lifecycle.Stopping? then 1 else 0
  {
    match s.lifecycle
    case Stopped => NewStartCosts(s, round);
    case Starting(o) => AwaitCosts(s, OnStart(o, StartReturns), round);
    case Running(_) =>
    case Stopping(p) => AwaitCosts(s, OnStop(p, StartRetries), round);
  }

  lemma StopPassCosts(s: Sys, round: nat)
    requires OrderInv(s) && InRange(s) && CurrentInv(s) && WaitersInv(|s.starts|, |s.stops|, s.waiting)
    ensures Work(StopPass(s), round)
            <= Work(s, round) + (if s.lifecycle.Starting? then 2 else if s.lifecycle.Stopping? then 1 else 0)
  {
    match s.lifecycle
    case Stopped =>
    case Starting(o) =>
      var op := s.starts[o].(stopRequested := true);
      StartUpdated(s.starts, o, op);
      AwaitCosts(s.(starts := s.starts[o := op]), OnStart(o, StopRetries), round);
    case Running(o) => NewStopCosts(s, o, StopReturns, round);
    case Stopping(p) => AwaitCosts(s, OnStop(p, StopReturns), round);
  }

  // ------------------------------------------------------------------- the steps

  lemma TaskEndCosts(s: Sys, e: Event, round: nat)
    requires Inv(s) && Enabled(s, e) && (e.StartEnded? || e.StopEnded?)
    ensures Work(Step(s, e), round) < Work(s, round)
  {
    match e
    case StartEnded(o, ok) =>
      StartUpdated(s.starts, o, s.starts[o].(task := if ok then Up else Broken));
    case StopEnded(p) =>
      var o := s.stops[p].runtime;
      StartUpdated(s.starts, o, s.starts[o].(down := true));
      StopUpdated(s.stops, p, o);
      Unmoved(s.waiting, |s.starts|, s.stops, s.stops[p := StopOp(o, true)], round);
    case _ =>
  }

  /** A caller awaiting a start goes on, already taken off the list. */
  lemma StartSettledCosts(t: Sys, o: nat, andThen: Then, round: nat)
    requires OrderInv(t) && Bare(t) && o < |t.starts| && !t.starts[o].task.Pending?
    requires andThen.StartReturns? || andThen.StopRetries?
    ensures Work(StartSettled(t, o, andThen), round) < Work(t, round) + 2 * (|t.starts| - o)
  {
    if t.starts[o].task.Up? {
      if t.lifecycle == Starting(o) {
        if t.starts[o].stopRequested { NewStopCosts(t, o, andThen, round); }
        else if andThen.StopRetries? { StopPassCosts(t.(lifecycle := Running(o)), round); }
      } else if t.lifecycle.Stopping? {
        AwaitCosts(t, OnStop(t.lifecycle.stop, andThen), round);
      } else if andThen.StopRetries? {
        StopPassCosts(t, round);
      }
    }
  }

  lemma OlderStop(t: Sys, p: nat)
    requires OrderInv(t) && CurrentInv(t) && InRange(t) && p < |t.stops|
    ensures !t.lifecycle.Stopped? && t.lifecycle != Stopping(p) ==> t.stops[p].runtime + 2 <= |t.starts|
  {
  }

  /** A caller awaiting a stop goes on, already taken off the list. */
  lemma StopSettledCosts(t: Sys, p: nat, andThen: Then, round: nat)
    requires OrderInv(t) && Bare(t) && p < |t.stops| && t.stops[p].done && round >= 2 * |t.waiting| + 7
    ensures Work(StopSettled(t, p, andThen), round)
            < Work(t, round) + 2 * (|t.starts| - t.stops[p].runtime) - 1 + if andThen.StartRetries? then round else 0
  {
    var u := if t.lifecycle == Stopping(p) then t.(lifecycle := Stopped) else t;
    OlderStop(t, p);
    assert Work(u, round) == Work(t, round);
    match andThen
    case StartRetries => StartPassCosts(u, round);
    case StopRetries => StopPassCosts(u, round);
    case _ =>
  }

  lemma ResumedCosts(s: Sys, w: Waiter, round: nat)
    requires Inv(s) && OrderInv(s) && Enabled(s, Resumed(w)) && round >= Round(|s.waiting|)
    ensures Work(Step(s, Resumed(w)), round) < Work(s, round)
  {
    var t := s.(waiting := s.waiting - multiset{w});
    WithoutWaiter(s, w);
    OneOut(s.waiting, w);
    TakenOut(s.waiting, w, |s.starts|, s.stops, round);
    assert Work(s, round) == Work(t, round) + Weight(w, |s.starts|, s.stops, round);
    match w {
      case OnStart(o, andThen) =>
        StartSettledCosts(t, o, andThen, round);
        assert Step(s, Resumed(w)) == StartSettled(t, o, andThen);
      case OnStop(p, andThen) =>
        StopSettledCosts(t, p, andThen, round);
        assert Step(s, Resumed(w)) == StopSettled(t, p, andThen);
    }
  }

  lemma AwaitsOnce(m: multiset<Waiter>, w: Waiter)
    ensures |m + multiset{w}| == |m| + 1
  {
  }

  lemma StartPassWaitsOnce(s: Sys)
    ensures |StartPass(s).waiting| <= |s.waiting| + 1
  {
    match s.lifecycle
    case Stopped => AwaitsOnce(s.waiting, OnStart(|s.starts|, StartReturns));
    case Starting(o) => AwaitsOnce(s.waiting, OnStart(o, StartReturns));
    case Running(_) =>
    case Stopping(p) => AwaitsOnce(s.waiting, OnStop(p, StartRetries));
  }

  lemma ContinueWaitsOnce(s: Sys, andThen: Then)
    requires InRange(s)
    ensures |Continue(s, andThen).waiting| <= |s.waiting| + 1
  {
    match andThen
    case StartRetries => StartPassWaitsOnce(s);
    case StopRetries =>
      match s.lifecycle {
        case Stopped =>
        case Starting(o) => AwaitsOnce(s.waiting, OnStart(o, StopRetries));
        case Running(_) => AwaitsOnce(s.waiting, OnStop(|s.stops|, StopReturns));
        case Stopping(p) => AwaitsOnce(s.waiting, OnStop(p, StopReturns));
      }
    case _ =>
  }

  lemma StartSettledWaitsOnce(s: Sys, o: nat, andThen: Then)
    requires InRange(s) && o < |s.starts|
    ensures |StartSettled(s, o, andThen).waiting| <= |s.waiting| + 1
  {
    if s.lifecycle == Starting(o) {
      AwaitsOnce(s.waiting, OnStop(|s.stops|, andThen));
      ContinueWaitsOnce(s.(lifecycle := Running(o)), andThen);
    } else if s.lifecycle.Stopping? {
      AwaitsOnce(s.waiting, OnStop(s.lifecycle.stop, andThen));
    } else {
      ContinueWaitsOnce(s, andThen);
    }
  }

  /** A caller that goes on waits at most once more. */
  lemma NobodyNew(s: Sys, e: Event)
    requires InRange(s) && Enabled(s, e) && !e.StartCalled? && !e.StopCalled?
    ensures |Step(s, e).waiting| <= |s.waiting|
  {
    match e
    case Resumed(w) =>
      OneOut(s.waiting, w);
      var t := s.(waiting := s.waiting - multiset{w});
      match w {
        case OnStart(o, andThen) => StartSettledWaitsOnce(t, o, andThen);
        case OnStop(p, andThen) =>
          ContinueWaitsOnce(if t.lifecycle == Stopping(p) then t.(lifecycle := Stopped) else t, andThen);
      }
    case _ =>
  }

  /** Every step but a new call leaves less to do. */
  lemma StepsMakeProgress(s: Sys, e: Event, round: nat)
    requires Inv(s) && OrderInv(s) && Enabled(s, e) && !e.StartCalled? && !e.StopCalled?
    requires round >= Round(|s.waiting|)
    ensures Work(Step(s, e), round) < Work(s, round)
  {
    match e
    case Resumed(w) => ResumedCosts(s, w, round);
    case _ => TaskEndCosts(s, e, round);
  }

  /** A run without new calls takes at most as many steps as there is work left. */
  lemma {:induction false} RunsEnd(s: Sys, events: seq<Event>, round: nat)
    requires Inv(s) && OrderInv(s) && Legal(s, events) && round >= Round(|s.waiting|)
    requires forall e :: e in events ==> !e.StartCalled? && !e.StopCalled?
    ensures |events| + Work(After(s, events), round) <= Work(s, round)
    decreases |events|
  {
    if events != [] {
      assert events[0] in events;
      StepsMakeProgress(s, events[0], round);
      NobodyNew(s, events[0]);
      StepKeepsInv(s, events[0]);
      StepKeepsOrder(s, events[0]);
      RunsEnd(Step(s, events[0]), events[1..], round);
    }
  }

  lemma {:induction false} RunKeepsOrder(s: Sys, events: seq<Event>)
    requires Inv(s) && OrderInv(s) && Legal(s, events)
    ensures Inv(After(s, events)) && OrderInv(After(s, events))
    decreases |events|
  {
    if events != [] {
      StepKeepsInv(s, events[0]);
      StepKeepsOrder(s, events[0]);
      RunKeepsOrder(Step(s, events[0]), events[1..]);
    }
  }

  lemma ReachableInOrder(calls: seq<Event>)
    requires Legal(INITIAL, calls)
    ensures Inv(After(INITIAL, calls)) && OrderInv(After(INITIAL, calls))
  {
    RunKeepsOrder(INITIAL, calls);
  }

  /** However it got there, from any reachable state a run without new calls is no longer than this. */
  lemma RunsEndFromAnywhere(calls: seq<Event>, s: Sys, events: seq<Event>)
    requires Legal(INITIAL, calls) && s == After(INITIAL, calls) && Legal(s, events)
    requires forall e :: e in events ==> !e.StartCalled? && !e.StopCalled?
    ensures |events| <= Work(s, Round(|s.waiting|))
  {
    ReachableInOrder(calls);
    RunsEnd(s, events, Round(|s.waiting|));
  }

  /** Once nothing but a new call can happen, every caller has been answered; and only then. */
  lemma EveryCallerIsAnswered(events: seq<Event>)
    requires Legal(INITIAL, events)
    ensures var s := After(INITIAL, events);
            (forall e: Event :: !e.StartCalled? && !e.StopCalled? ==> !Enabled(s, e))
            <==> (s.waiting == multiset{} && (s.lifecycle.Stopped? || s.lifecycle.Running?))
  {
    RunKeepsInv(INITIAL, events);
    WaitingIsNeverStuck(After(INITIAL, events));
  }
}
