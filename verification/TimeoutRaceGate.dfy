/**
 The gate that races an operation against its timeout. `install` and any number
 of `resolve` calls arrive in any order, each under the lock; the continuation
 must be resumed exactly once and the losing task must be cancelled.
 */
module TimeoutRaceGate {
  import opened Prelude

  datatype Winner = Operation | Timeout

  datatype Gate<R> = Gate(
    waiting: bool,                // the continuation has not been taken yet
    installed: bool,              // the two task handles have been handed over
    holdsTasks: bool,             // and the gate still keeps them
    cancelled: set<Winner>,
    resumed: seq<R>)              // history: what the continuation was resumed with

  function Opened<R>(): Gate<R> { Gate(true, false, false, {}, []) }

  function Install<R>(g: Gate<R>): Gate<R> {
    if g.waiting then g.(installed := true, holdsTasks := true)
    else g.(installed := true, cancelled := {Operation, Timeout})
  }

  function Loser(w: Winner): Winner { if w == Operation then Timeout else Operation }

  function Resolve<R>(g: Gate<R>, result: R, winner: Winner): Gate<R> {
    if !g.waiting then g
    else g.(waiting := false, holdsTasks := false,
            cancelled := g.cancelled + (if g.holdsTasks then {Loser(winner)} else {}),
            resumed := g.resumed + [result])
  }

  datatype Step<R> = Installed | Resolved(result: R, winner: Winner)

  function Do<R>(g: Gate<R>, s: Step<R>): Gate<R> {
    match s
    case Installed => Install(g)
    case Resolved(result, winner) => Resolve(g, result, winner)
  }

  function Run<R>(steps: seq<Step<R>>): Gate<R> {
    if steps == [] then Opened() else Do(Run(steps[..|steps| - 1]), steps[|steps| - 1])
  }

  /** The earliest resolution of a run, if there was one. */
  function First<R>(steps: seq<Step<R>>): (first: Option<Step<R>>)
    ensures first.Some? ==> first.value.Resolved? && first.value in steps
  {
    if steps == [] then None
    else
      var before := First(steps[..|steps| - 1]);
      if before.Some? then before
      else if steps[|steps| - 1].Resolved? then Some(steps[|steps| - 1]) else None
  }

  /** withTimeout hands over both handles once. */
  predicate InstalledOnce<R(==)>(steps: seq<Step<R>>) {
    forall i, j :: 0 <= i < j < |steps| ==> !(steps[i].Installed? && steps[j].Installed?)
  }

  /** In every order: no resumption before the first resolution, exactly one after it, with its result. */
  lemma {:induction false} ResumedExactlyOnce<R>(steps: seq<Step<R>>)
    ensures Run(steps).resumed == (match First(steps) case None => [] case Some(s) => [s.result])
    ensures Run(steps).waiting <==> First(steps).None?
  {
    if steps != [] { ResumedExactlyOnce(steps[..|steps| - 1]); }
  }

  /** Once tasks are handed over and the race is decided, the losing task is cancelled, in either order. */
  lemma {:induction false} LoserIsCancelled<R>(steps: seq<Step<R>>)
    requires InstalledOnce(steps)
    ensures var g := Run(steps);
            && (g.installed <==> exists k :: 0 <= k < |steps| && steps[k].Installed?)
            && (g.holdsTasks <==> g.installed && g.waiting)
            && (g.waiting || !g.installed ==> g.cancelled == {})
            && (g.installed && First(steps).Some? ==> Loser(First(steps).value.winner) in g.cancelled)
  {
    if steps != [] {
      var init, last := steps[..|steps| - 1], steps[|steps| - 1];
      LoserIsCancelled(init);
      ResumedExactlyOnce(init);
      if last.Installed? {
        assert steps[|steps| - 1].Installed?;
        assert forall k :: 0 <= k < |init| ==> init[k] == steps[k];
      } else if Run(init).installed {
        var k :| 0 <= k < |init| && init[k].Installed?;
        assert steps[k].Installed?;
      } else {
        assert forall k :: 0 <= k < |init| ==> init[k] == steps[k];
      }
    }
  }

  /** The race was decided before the tasks were handed over. */
  ghost predicate DecidedFirst<R>(steps: seq<Step<R>>) {
    exists k :: 0 <= k < |steps| && steps[k].Installed? && First(steps[..k]).Some?
  }

  lemma DecidedLater<R>(steps: seq<Step<R>>)
    requires steps != []
    ensures var init, last := steps[..|steps| - 1], steps[|steps| - 1];
            DecidedFirst(steps) <==> DecidedFirst(init) || (last.Installed? && First(init).Some?)
  {
    var init := steps[..|steps| - 1];
    forall k | 0 <= k < |init| ensures init[..k] == steps[..k] && init[k] == steps[k] {}
    if DecidedFirst(init) {
      var k :| 0 <= k < |init| && init[k].Installed? && First(init[..k]).Some?;
      assert steps[k].Installed? && First(steps[..k]).Some?;
    }
    if DecidedFirst(steps) {
      var k :| 0 <= k < |steps| && steps[k].Installed? && First(steps[..k]).Some?;
      if k < |init| { assert init[k].Installed? && First(init[..k]).Some?; }
    }
    if steps[|steps| - 1].Installed? && First(init).Some? { assert steps[..|steps| - 1] == init; }
  }

  /** The winner's own task is cancelled, after the fact, exactly when the race was decided before it was handed over. */
  lemma {:induction false} WinnerIsCancelledIff<R>(steps: seq<Step<R>>)
    requires InstalledOnce(steps) && First(steps).Some?
    ensures First(steps).value.winner in Run(steps).cancelled <==> DecidedFirst(steps)
  {
    var init, last := steps[..|steps| - 1], steps[|steps| - 1];
    assert InstalledOnce(init) by { assert forall k :: 0 <= k < |init| ==> init[k] == steps[k]; }
    DecidedLater(steps);
    ResumedExactlyOnce(init);
    LoserIsCancelled(init);
    if First(init).Some? {
      WinnerIsCancelledIff(init);
      assert First(steps).value.winner.Operation? || First(steps).value.winner.Timeout?;
    } else {
      NotDecided(init);
      assert Run(init).cancelled == {} && Loser(last.winner) != last.winner;
    }
  }

  lemma {:induction false} NotDecided<R>(steps: seq<Step<R>>)
    requires First(steps).None?
    ensures !DecidedFirst(steps)
  {
    if steps != [] {
      NotDecided(steps[..|steps| - 1]);
      DecidedLater(steps);
    }
  }

  class RaceGate<R> {
    var continuation: bool
    var operationTask: bool
    var timeoutTask: bool
    ghost var installed: bool
    ghost var cancelled: set<Winner>
    ghost var resumed: seq<R>

    ghost function View(): Gate<R>
      reads this
    {
      Gate(continuation, installed, operationTask, cancelled, resumed)
    }

    ghost predicate Valid()
      reads this
    {
      operationTask == timeoutTask
    }

    constructor ()
      ensures Valid() && View() == Opened()
    {
      continuation, operationTask, timeoutTask := true, false, false;
      installed, cancelled, resumed := false, {}, [];
    }

    method InstallTasks()
      requires Valid()
      modifies this
      ensures Valid() && View() == Install(old(View()))
    {
      installed := true;
      if !continuation {
        cancelled := {Operation, Timeout};
        return;
      }
      operationTask := true;
      timeoutTask := true;
    }

    /** `taken` says whether this call won the race and resumed the continuation. */
    method ResolveWith(result: R, winner: Winner) returns (taken: bool)
      requires Valid()
      modifies this
      ensures Valid() && View() == Resolve(old(View()), result, winner)
      ensures taken <==> |resumed| == |old(resumed)| + 1
    {
      if !continuation { return false; }
      continuation := false;
      var loser := if winner == Operation then timeoutTask else operationTask;
      operationTask := false;
      timeoutTask := false;
      if loser { cancelled := cancelled + {Loser(winner)}; }
      resumed := resumed + [result];
      taken := true;
    }
  }
}
