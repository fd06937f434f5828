/**
 The runtime's lifecycle told from the list of events: what the answers of the server and of
 the recording were decides where each generation's tasks are, which lifecycle the callers
 find and whether their start throws; and every call is either answered or still waiting.
 */
module RuntimeHistory {
  import opened Prelude
  import opened RuntimeLifecycle

  /** The step of this generation's tasks happened. */
  predicate Ran(events: seq<Event>, g: nat, step: TaskEvent) {
    TaskRan(g, step) in events
  }

  /** Where the start task is, by the answers it got. */
  ghost predicate StartTold(events: seq<Event>, g: nat, op: Op) {
    && (op.startTask.Preparing? <==> !Ran(events, g, Prepared(true)) && !Ran(events, g, Prepared(false)))
    && (op.created <==> Ran(events, g, Prepared(true)))
    && (op.startTask.Started? <==> Ran(events, g, ServerStarted(true)))
    && (op.startTask.RollingBack? <==> Ran(events, g, ServerStarted(false)) && !Ran(events, g, RolledBack))
    && (op.startTask.StartFailed? <==>
          Ran(events, g, Prepared(false)) || (Ran(events, g, ServerStarted(false)) && Ran(events, g, RolledBack)))
    && (Ran(events, g, RolledBack) ==> Ran(events, g, ServerStarted(false)))
    && (Ran(events, g, ServerStarted(true)) || Ran(events, g, ServerStarted(false)) ==> Ran(events, g, Prepared(true)))
    && !(Ran(events, g, ServerStarted(true)) && Ran(events, g, ServerStarted(false)))
    && !(Ran(events, g, Prepared(true)) && Ran(events, g, Prepared(false)))
  }

  /** Where the stop task is, by the answers it got: the server first, then the recording if there was one. */
  ghost predicate StopTold(events: seq<Event>, g: nat, op: Op) {
    && (Ran(events, g, ServerStopped) <==>
          op.stopTask.AskingStatus? || op.stopTask.RecordingStopping? || (op.stopTask.ShutDown? && op.startTask.Started?))
    && (op.stopTask.AskingStatus? <==>
          Ran(events, g, ServerStopped) && !Ran(events, g, StatusSeen(true)) && !Ran(events, g, StatusSeen(false)))
    && (op.stopTask.RecordingStopping? <==> Ran(events, g, StatusSeen(true)) && !Ran(events, g, RecordingStopped))
    && (op.stopTask.ShutDown? <==>
          || (Ran(events, g, StartAwaited) && op.startTask.StartFailed?)
          || Ran(events, g, StatusSeen(false))
          || (Ran(events, g, StatusSeen(true)) && Ran(events, g, RecordingStopped)))
    && (Ran(events, g, StatusSeen(true)) || Ran(events, g, StatusSeen(false)) ==> Ran(events, g, ServerStopped))
    && (Ran(events, g, RecordingStopped) ==> Ran(events, g, StatusSeen(true)))
    && (Ran(events, g, StartAwaited) ==> StartOver(op) && !op.stopTask.NotRequested? && !op.stopTask.AwaitingStart?)
    && !(Ran(events, g, StatusSeen(true)) && Ran(events, g, StatusSeen(false)))
  }

  ghost predicate Told(events: seq<Event>, g: nat, op: Op) {
    StartTold(events, g, op) && StopTold(events, g, op)
  }

  ghost predicate Unheard(events: seq<Event>, g: nat) {
    forall step :: !Ran(events, g, step)
  }

  ghost predicate History(events: seq<Event>, s: Sys) {
    forall g: nat :: if g in s.ops then Told(events, g, s.ops[g]) else Unheard(events, g)
  }

  lemma RanLater(events: seq<Event>, e: Event, g: nat)
    ensures forall step :: Ran(events + [e], g, step) <==> Ran(events, g, step) || e == TaskRan(g, step)
  {
  }

  lemma StartStepTold(events: seq<Event>, g: nat, op: Op, step: TaskEvent)
    requires OpInv(op) && TaskReady(op, step) && Told(events, g, op)
    requires step.Prepared? || step.ServerStarted? || step.RolledBack?
    ensures Told(events + [TaskRan(g, step)], g, TaskStep(op, step))
  {
    RanLater(events, TaskRan(g, step), g);
  }

  lemma StopStepTold(events: seq<Event>, g: nat, op: Op, step: TaskEvent)
    requires OpInv(op) && TaskReady(op, step) && Told(events, g, op)
    requires !step.Prepared? && !step.ServerStarted? && !step.RolledBack?
    ensures Told(events + [TaskRan(g, step)], g, TaskStep(op, step))
  {
    RanLater(events, TaskRan(g, step), g);
  }

  lemma {:induction false} LastEvent(s: Sys, events: seq<Event>, e: Event)
    requires Legal(s, events + [e])
    ensures Legal(s, events) && Enabled(After(s, events), e) && After(s, events + [e]) == Step(After(s, events), e)
    decreases |events|
  {
    if events == [] {
      assert events + [e] == [e] && [e][1..] == [];
    } else {
      assert (events + [e])[1..] == events[1..] + [e];
      LastEvent(Step(s, events[0]), events[1..], e);
    }
  }

  /** A generation that took no step, seen by one more event. */
  lemma StillTold(events: seq<Event>, e: Event, g: nat, op: Op)
    requires Told(events, g, op) && !(e.TaskRan? && e.gen == g)
    ensures Told(events + [e], g, op)
  {
    RanLater(events, e, g);
  }

  lemma StillUnheard(events: seq<Event>, e: Event, g: nat)
    requires Unheard(events, g) && !(e.TaskRan? && e.gen == g)
    ensures Unheard(events + [e], g)
  {
    RanLater(events, e, g);
  }

  lemma FreshIsTold(events: seq<Event>, g: nat)
    requires Unheard(events, g)
    ensures Told(events, g, FRESH)
  {
  }

  /** A stop asked for changes nothing that was told. */
  lemma AskedIsTold(events: seq<Event>, g: nat, op: Op, asked: Op)
    requires OpInv(op) && op.stopTask.NotRequested? && Told(events, g, op)
    requires asked.startTask == op.startTask && asked.created == op.created
    requires asked.stopTask.AwaitingStart? || asked.stopTask.ServerStopping?
    ensures Told(events, g, asked)
  {
  }

  /** The generation is as it was, or new, or was asked to stop. */
  ghost predicate SameOrAsked(before: map<nat, Op>, after: map<nat, Op>, g: nat) {
    if g in before then
      && g in after
      && (|| after[g] == before[g]
          || (&& before[g].stopTask.NotRequested?
              && after[g].startTask == before[g].startTask && after[g].created == before[g].created
              && (after[g].stopTask.AwaitingStart? || after[g].stopTask.ServerStopping?)))
    else g in after ==> after[g] == FRESH
  }

  lemma StartPassAddsOnly(s: Sys, g: nat)
    requires OpsInv(s.lifecycle, s.nextGeneration, s.ops) && s.nextGeneration + 1 < TWO_64
    ensures SameOrAsked(s.ops, StartPass(s).ops, g)
  {
  }

  lemma StopPassAsksOnly(s: Sys, g: nat)
    requires Current(s)
    ensures SameOrAsked(s.ops, StopPass(s).ops, g)
  {
  }

  lemma LooperAddsOnly(s: Sys, h: nat, g: nat)
    requires OpsInv(s.lifecycle, s.nextGeneration, s.ops) && s.nextGeneration + 1 < TWO_64
    ensures SameOrAsked(s.ops, RetriedLooper(s, h).ops, g)
  {
    var t := FinishStop(s.(loopers := s.loopers - multiset{h}), h);
    assert t.ops == s.ops;
    match t.lifecycle {
      case Stopped => assert Following(s.nextGeneration) !in s.ops;
      case _ =>
    }
  }

  lemma GenerationTold(events: seq<Event>, s: Sys, e: Event, g: nat)
    requires Inv(s) && Enabled(s, e) && s.nextGeneration + 1 < TWO_64
    requires if g in s.ops then Told(events, g, s.ops[g]) else Unheard(events, g)
    ensures var t := Step(s, e);
            if g in t.ops then Told(events + [e], g, t.ops[g]) else Unheard(events + [e], g)
  {
    match e {
      case TaskRan(h, step) => StepTold(events, s, h, step, g);
      case StartCalled => StartPassAddsOnly(s, g); OtherTold(events, s.ops, StartPass(s).ops, e, g);
      case StopCalled => StopPassAsksOnly(s, g); OtherTold(events, s.ops, StopPass(s).ops, e, g);
      case LooperResumed(h) => LooperAddsOnly(s, h, g); OtherTold(events, s.ops, RetriedLooper(s, h).ops, e, g);
      case StarterResumed(h) => OtherTold(events, s.ops, s.ops, e, g);
      case StopperResumed(h) => OtherTold(events, s.ops, s.ops, e, g);
    }
  }

  lemma StepTold(events: seq<Event>, s: Sys, h: nat, step: TaskEvent, g: nat)
    requires Inv(s) && h in s.ops && TaskReady(s.ops[h], step)
    requires if g in s.ops then Told(events, g, s.ops[g]) else Unheard(events, g)
    ensures var t := WithOp(s, h, TaskStep(s.ops[h], step));
            if g in t.ops then Told(events + [TaskRan(h, step)], g, t.ops[g]) else Unheard(events + [TaskRan(h, step)], g)
  {
    if g != h {
      if g in s.ops { StillTold(events, TaskRan(h, step), g, s.ops[g]); } else { StillUnheard(events, TaskRan(h, step), g); }
    } else if step.Prepared? || step.ServerStarted? || step.RolledBack? {
      StartStepTold(events, g, s.ops[g], step);
    } else {
      StopStepTold(events, g, s.ops[g], step);
    }
  }

  lemma OtherTold(events: seq<Event>, before: map<nat, Op>, after: map<nat, Op>, e: Event, g: nat)
    requires !e.TaskRan? && SameOrAsked(before, after, g) && (g in before ==> OpInv(before[g]))
    requires if g in before then Told(events, g, before[g]) else Unheard(events, g)
    ensures if g in after then Told(events + [e], g, after[g]) else Unheard(events + [e], g)
  {
    if g in before {
      StillTold(events, e, g, before[g]);
      if after[g] != before[g] { AskedIsTold(events + [e], g, before[g], after[g]); }
    } else {
      StillUnheard(events, e, g);
      FreshIsTold(events + [e], g);
    }
  }

  /** In every run each generation is where the answers it got say. */
  lemma {:induction false} RunIsTold(events: seq<Event>)
    requires Legal(INITIAL, events) && |events| < TWO_64
    ensures Inv(After(INITIAL, events)) && NewestInv(After(INITIAL, events)) && History(events, After(INITIAL, events))
    ensures After(INITIAL, events).nextGeneration <= |events|
  {
    if events != [] {
      var init, e := events[..|events| - 1], events[|events| - 1];
      assert events == init + [e];
      LastEvent(INITIAL, init, e);
      RunIsTold(init);
      var s := After(INITIAL, init);
      StepKeepsInv(s, e);
      StepKeepsNewest(s, e);
      forall g: nat
        ensures var t := Step(s, e);
                if g in t.ops then Told(events, g, t.ops[g]) else Unheard(events, g)
      {
        GenerationTold(init, s, e, g);
      }
    }
  }

  lemma GenerationIsTold(events: seq<Event>, g: nat)
    requires Legal(INITIAL, events) && |events| < TWO_64 && g in After(INITIAL, events).ops
    ensures OpInv(After(INITIAL, events).ops[g]) && Told(events, g, After(INITIAL, events).ops[g])
  {
    RunIsTold(events);
  }

  // --------------------------------------------------------------- the consequences

  /** A start task is over with a server exactly when the server said it came up, and failed exactly when something
      refused. */
  lemma StartEndsAsAnswered(events: seq<Event>, g: nat)
    requires Legal(INITIAL, events) && |events| < TWO_64 && g in After(INITIAL, events).ops
    ensures var task := After(INITIAL, events).ops[g].startTask;
            && (task.Started? <==> TaskRan(g, ServerStarted(true)) in events)
            && (task.StartFailed? <==>
                  || TaskRan(g, Prepared(false)) in events
                  || (TaskRan(g, ServerStarted(false)) in events && TaskRan(g, RolledBack) in events))
  {
    GenerationIsTold(events, g);
  }

  /** The lifecycle runs only on a server that said it came up and was not stopped. */
  lemma RunningMeansStarted(events: seq<Event>)
    requires Legal(INITIAL, events) && |events| < TWO_64 && After(INITIAL, events).lifecycle.Running?
    ensures var g := After(INITIAL, events).lifecycle.gen;
            TaskRan(g, ServerStarted(true)) in events && TaskRan(g, ServerStopped) !in events
  {
    RunKeepsInv(INITIAL, events);
    GenerationIsTold(events, After(INITIAL, events).lifecycle.gen);
  }

  /**
   A start caller whose task is over returns exactly when the server came up, and throws exactly when preparation
   or the server refused; while its generation is starting the lifecycle follows suit.
   */
  lemma StarterLearnsTheAnswer(events: seq<Event>, g: nat)
    requires Legal(INITIAL, events) && |events| < TWO_64 && Enabled(After(INITIAL, events), StarterResumed(g))
    ensures var s := After(INITIAL, events);
            var t := Step(s, StarterResumed(g));
            && (s.ops[g].startTask.Started? <==> TaskRan(g, ServerStarted(true)) in events)
            && (s.ops[g].startTask.StartFailed? <==>
                  TaskRan(g, Prepared(false)) in events || TaskRan(g, ServerStarted(false)) in events)
            && (s.lifecycle == Starting(g) ==>
                  && (t.lifecycle == Running(g) <==> TaskRan(g, ServerStarted(true)) in events)
                  && (t.lifecycle == Stopped <==> TaskRan(g, ServerStarted(true)) !in events))
  {
    GenerationIsTold(events, g);
  }

  /** The server was stopped and no recording runs on, or the start had failed anyway. */
  ghost predicate AllDown(events: seq<Event>, g: nat) {
    && (Ran(events, g, ServerStarted(true)) ==>
          && Ran(events, g, ServerStopped)
          && (Ran(events, g, StatusSeen(false)) || (Ran(events, g, StatusSeen(true)) && Ran(events, g, RecordingStopped))))
    && (!Ran(events, g, ServerStarted(true)) ==> Ran(events, g, Prepared(false)) || Ran(events, g, RolledBack))
    && (Ran(events, g, StatusSeen(true)) ==> Ran(events, g, RecordingStopped))
  }

  lemma ShutDownIsDown(events: seq<Event>, g: nat, op: Op)
    requires OpInv(op) && Told(events, g, op) && op.stopTask.ShutDown?
    ensures AllDown(events, g)
  {
  }

  /** Whoever waits for a stop is resumed only when all is down. */
  lemma StopperFindsAllDown(events: seq<Event>, g: nat)
    requires Legal(INITIAL, events) && |events| < TWO_64
    requires Enabled(After(INITIAL, events), StopperResumed(g)) || Enabled(After(INITIAL, events), LooperResumed(g))
    ensures AllDown(events, g)
  {
    GenerationIsTold(events, g);
    ShutDownIsDown(events, g, After(INITIAL, events).ops[g]);
  }

  // ------------------------------------------------------------- every call is counted

  /** Start calls answered by this event: a return on the spot, or the end of a wait. */
  function StartAnswered(s: Sys, e: Event): nat {
    if e.StarterResumed? || ((e.StartCalled? || e.LooperResumed?) && s.lifecycle.Running?) then 1 else 0
  }

  function StopAnswered(s: Sys, e: Event): nat {
    if e.StopperResumed? || (e.StopCalled? && s.lifecycle.Stopped?) then 1 else 0
  }

  ghost function StartsAnswered(s: Sys, events: seq<Event>): nat
    requires Legal(s, events)
    decreases |events|
  {
    if events == [] then 0 else StartAnswered(s, events[0]) + StartsAnswered(Step(s, events[0]), events[1..])
  }

  ghost function StopsAnswered(s: Sys, events: seq<Event>): nat
    requires Legal(s, events)
    decreases |events|
  {
    if events == [] then 0 else StopAnswered(s, events[0]) + StopsAnswered(Step(s, events[0]), events[1..])
  }

  function CallsOf(events: seq<Event>, e: Event): nat {
    if events == [] then 0 else (if events[0] == e then 1 else 0) + CallsOf(events[1..], e)
  }

  /** The calls that wait, by the kind of their caller. */
  ghost function StartsWaiting(s: Sys): nat { |s.starters| + |s.loopers| }

  lemma StartPassWaits(s: Sys)
    ensures StartsWaiting(StartPass(s)) == StartsWaiting(s) + (if s.lifecycle.Running? then 0 else 1)
    ensures StartPass(s).stoppers == s.stoppers
  {
  }

  lemma StopPassWaits(s: Sys)
    requires Current(s)
    ensures |StopPass(s).stoppers| == |s.stoppers| + (if s.lifecycle.Stopped? then 0 else 1)
    ensures StartsWaiting(StopPass(s)) == StartsWaiting(s)
  {
  }

  lemma LooperIsCounted(s: Sys, g: nat)
    requires g in s.loopers
    ensures StartsWaiting(RetriedLooper(s, g)) + (if s.lifecycle.Running? then 1 else 0) == StartsWaiting(s)
    ensures RetriedLooper(s, g).stoppers == s.stoppers
  {
    OneLess(s.loopers, g);
    StartPassWaits(FinishStop(s.(loopers := s.loopers - multiset{g}), g));
  }

  lemma WaiterIsCounted(s: Sys, e: Event)
    requires Enabled(s, e) && (e.StarterResumed? || e.StopperResumed?)
    ensures StartsWaiting(Step(s, e)) + (if e.StarterResumed? then 1 else 0) == StartsWaiting(s)
    ensures |Step(s, e).stoppers| + (if e.StopperResumed? then 1 else 0) == |s.stoppers|
  {
    if e.StarterResumed? { OneLess(s.starters, e.gen); } else { OneLess(s.stoppers, e.gen); }
  }

  lemma CallIsCounted(s: Sys, e: Event)
    requires Current(s) && Enabled(s, e)
    ensures StartsWaiting(Step(s, e)) + StartAnswered(s, e) == StartsWaiting(s) + (if e.StartCalled? then 1 else 0)
    ensures |Step(s, e).stoppers| + StopAnswered(s, e) == |s.stoppers| + (if e.StopCalled? then 1 else 0)
  {
    if e.StartCalled? { StartPassWaits(s); }
    else if e.StopCalled? { StopPassWaits(s); }
    else if e.LooperResumed? { LooperIsCounted(s, e.gen); }
    else if e.StarterResumed? || e.StopperResumed? { WaiterIsCounted(s, e); }
  }

  lemma {:induction false} StartsAreCounted(s: Sys, events: seq<Event>)
    requires Inv(s) && NewestInv(s) && Legal(s, events) && s.nextGeneration + |events| < TWO_64
    ensures StartsAnswered(s, events) + StartsWaiting(After(s, events))
            == CallsOf(events, StartCalled) + StartsWaiting(s)
    decreases |events|
  {
    if events != [] {
      CallIsCounted(s, events[0]);
      StepKeepsInv(s, events[0]);
      StepKeepsNewest(s, events[0]);
      StartsAreCounted(Step(s, events[0]), events[1..]);
    }
  }

  lemma {:induction false} StopsAreCounted(s: Sys, events: seq<Event>)
    requires Inv(s) && NewestInv(s) && Legal(s, events) && s.nextGeneration + |events| < TWO_64
    ensures StopsAnswered(s, events) + |After(s, events).stoppers| == CallsOf(events, StopCalled) + |s.stoppers|
    decreases |events|
  {
    if events != [] {
      CallIsCounted(s, events[0]);
      StepKeepsInv(s, events[0]);
      StepKeepsNewest(s, events[0]);
      StopsAreCounted(Step(s, events[0]), events[1..]);
    }
  }

  /** No call is dropped and none is answered twice: every one was answered once or is still waiting. */
  lemma CallsAreCounted(s: Sys, events: seq<Event>)
    requires Inv(s) && NewestInv(s) && Legal(s, events) && s.nextGeneration + |events| < TWO_64
    ensures var t := After(s, events);
            && StartsAnswered(s, events) + StartsWaiting(t) == CallsOf(events, StartCalled) + StartsWaiting(s)
            && StopsAnswered(s, events) + |t.stoppers| == CallsOf(events, StopCalled) + |s.stoppers|
  {
    StartsAreCounted(s, events);
    StopsAreCounted(s, events);
  }

  // ------------------------------------------------------------- a runtime left alone

  function UpEvents(g: nat): seq<Event> {
    [StartCalled, TaskRan(g, Prepared(true)), TaskRan(g, ServerStarted(true)), StarterResumed(g)]
  }

  function DownEvents(g: nat, recording: bool): seq<Event> {
    [StopCalled, TaskRan(g, ServerStopped), TaskRan(g, StatusSeen(recording))]
    + (if recording then [TaskRan(g, RecordingStopped)] else []) + [StopperResumed(g)]
  }

  /** From any stopped state: a start whose server comes up leads to running, and a stop after it to stopped again. */
  lemma UndisturbedRun(s: Sys, recording: bool)
    requires Inv(s) && s.lifecycle.Stopped? && s.nextGeneration + 1 < TWO_64
    ensures var g := s.nextGeneration + 1;
            && Legal(s, UpEvents(g)) && After(s, UpEvents(g)).lifecycle == Running(g)
            && Legal(After(s, UpEvents(g)), DownEvents(g, recording))
            && After(After(s, UpEvents(g)), DownEvents(g, recording)).lifecycle == Stopped
  {
    var g := s.nextGeneration + 1;
    StartRuns(s, g);
    StopRuns(After(s, UpEvents(g)), g, recording);
  }

  /** A generation whose tasks are here, with callers waiting, under this lifecycle. */
  ghost predicate At(s: Sys, lifecycle: Lifecycle, g: nat, startTask: StartTask, stopTask: StopTask) {
    && s.lifecycle == lifecycle && g in s.ops && s.ops[g].startTask == startTask && s.ops[g].stopTask == stopTask
    && (lifecycle.Starting? ==> g in s.starters) && (lifecycle.Stopping? ==> g in s.stoppers)
  }

  lemma StartBegins(s: Sys, g: nat)
    requires s.lifecycle.Stopped? && g == s.nextGeneration + 1 < TWO_64
    ensures At(StartPass(s), Starting(g), g, Preparing, NotRequested)
  {
  }

  /** A step of the start task that leaves its callers waiting. */
  lemma StartMoves(s: Sys, g: nat, step: TaskEvent, task: StartTask)
    requires At(s, Starting(g), g, task, NotRequested) && TaskReady(s.ops[g], step)
    ensures At(Step(s, TaskRan(g, step)), Starting(g), g, TaskStep(s.ops[g], step).startTask,
            TaskStep(s.ops[g], step).stopTask)
  {
  }

  lemma StartRuns(s: Sys, g: nat)
    requires s.lifecycle.Stopped? && g == s.nextGeneration + 1 < TWO_64
    ensures Legal(s, UpEvents(g)) && At(After(s, UpEvents(g)), Running(g), g, Started, NotRequested)
  {
    StartBegins(s, g);
    OneMoreEvent(s, [], StartCalled);
    var events := [] + [StartCalled];
    StartMoves(After(s, events), g, Prepared(true), Preparing);
    OneMoreEvent(s, events, TaskRan(g, Prepared(true)));
    events := events + [TaskRan(g, Prepared(true))];
    StartMoves(After(s, events), g, ServerStarted(true), ServerStarting);
    OneMoreEvent(s, events, TaskRan(g, ServerStarted(true)));
    events := events + [TaskRan(g, ServerStarted(true))];
    OneMoreEvent(s, events, StarterResumed(g));
    assert events + [StarterResumed(g)] == UpEvents(g);
  }

  /** The stop has been called and the server is down. */
  lemma StopBegins(s: Sys, g: nat)
    requires At(s, Running(g), g, Started, NotRequested)
    ensures Legal(s, [StopCalled, TaskRan(g, ServerStopped)])
    ensures At(After(s, [StopCalled, TaskRan(g, ServerStopped)]), Stopping(g), g, Started, AskingStatus)
  {
    OneMoreEvent(s, [], StopCalled);
    assert [] + [StopCalled] == [StopCalled];
    assert At(After(s, [StopCalled]), Stopping(g), g, Started, ServerStopping);
    OneMoreEvent(s, [StopCalled], TaskRan(g, ServerStopped));
    assert [StopCalled] + [TaskRan(g, ServerStopped)] == [StopCalled, TaskRan(g, ServerStopped)];
  }

  lemma StopEnds(s: Sys, events: seq<Event>, g: nat)
    requires Legal(s, events) && At(After(s, events), Stopping(g), g, Started, ShutDown)
    ensures Legal(s, events + [StopperResumed(g)]) && After(s, events + [StopperResumed(g)]).lifecycle == Stopped
  {
    OneMoreEvent(s, events, StopperResumed(g));
  }

  lemma StopRuns(s: Sys, g: nat, recording: bool)
    requires At(s, Running(g), g, Started, NotRequested)
    ensures Legal(s, DownEvents(g, recording)) && After(s, DownEvents(g, recording)).lifecycle == Stopped
  {
    var begun := [StopCalled, TaskRan(g, ServerStopped)];
    var seen := begun + [TaskRan(g, StatusSeen(recording))];
    assert seen == [StopCalled, TaskRan(g, ServerStopped), TaskRan(g, StatusSeen(recording))];
    StopBegins(s, g);
    OneMoreEvent(s, begun, TaskRan(g, StatusSeen(recording)));
    if recording {
      OneMoreEvent(s, seen, TaskRan(g, RecordingStopped));
      StopEnds(s, seen + [TaskRan(g, RecordingStopped)], g);
    } else {
      StopEnds(s, seen, g);
      assert seen + [] == seen;
    }
  }

  lemma {:induction false} OneMoreEvent(s: Sys, events: seq<Event>, e: Event)
    requires Legal(s, events) && Enabled(After(s, events), e)
    ensures Legal(s, events + [e]) && After(s, events + [e]) == Step(After(s, events), e)
    decreases |events|
  {
    if events == [] {
      assert events + [e] == [e] && [e][1..] == [];
    } else {
      assert (events + [e])[1..] == events[1..] + [e];
      OneMoreEvent(Step(s, events[0]), events[1..], e);
    }
  }
}
