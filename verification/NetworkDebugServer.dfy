/**
 The debug server actor: start callers suspended on continuations, listener callbacks
 tagged with the generation that installed them, and one handler task per connection.

 A step is what runs between two suspension points. Callers and connections are
 identified by their position in order of arrival. The listener, the bytes a
 connection delivers and the router are environment.
 */
module NetworkDebugServer {
  import opened HTTPRequestParser

  datatype Lifecycle = Idle | Starting(gen: nat) | Ready(gen: nat) | Stopped

  /** A start call; `resumes` counts how often its continuation was resumed. */
  datatype Caller = Caller(state: CallerState, resumes: nat)
  datatype CallerState =
    | Entering(gen: nat, shouldStart: bool)   // past the switch, before the continuation's body
    | Suspended
    | Returned
    | Threw

  datatype Phase =
    | Queued
    | Receiving
    | Responding(request: Request)
    | Sending(request: Request)
    | SendingFailure(error: ParseError)
    | Finished

  /** A connection, its handler task and the bytes its parser has been given. */
  datatype Conn = Conn(gen: nat, phase: Phase, received: string, cancelled: bool, taskCancelled: bool)

  datatype Sys = Sys(
    lifecycle: Lifecycle,
    generation: nat,
    callers: seq<Caller>,
    continuations: seq<nat>,
    conns: seq<Conn>,
    active: set<nat>,        // keys of activeConnections
    tasks: set<nat>,         // keys of connectionTasks
    listenerStarts: nat)

  const INITIAL := Sys(Idle, 0, [], [], [], {}, {}, 0)

  // -------------------------------------------------------------------- starting

  /** `start` up to the body of its continuation, or its return. */
  function StartCall(s: Sys): Sys {
    match s.lifecycle
    case Ready(_) => s.(callers := s.callers + [Caller(Returned, 0)])
    case Stopped => s.(callers := s.callers + [Caller(Threw, 0)])
    case Starting(g) => s.(callers := s.callers + [Caller(Entering(g, false), 0)])
    case Idle =>
      s.(generation := s.generation + 1, lifecycle := Starting(s.generation + 1),
         callers := s.callers + [Caller(Entering(s.generation + 1, true), 0)])
  }

  function Answer(c: Caller, ok: bool): Caller { Caller(if ok then Returned else Threw, c.resumes + 1) }

  /** The body run with a start caller's continuation. */
  function ContinuationBody(s: Sys, k: nat): Sys
    requires k < |s.callers| && s.callers[k].state.Entering?
  {
    var c := s.callers[k];
    if s.lifecycle != Starting(c.state.gen) then s.(callers := s.callers[k := Answer(c, false)])
    else s.(callers := s.callers[k := Caller(Suspended, c.resumes)], continuations := s.continuations + [k],
            listenerStarts := s.listenerStarts + if c.state.shouldStart then 1 else 0)
  }

  function ResumeAll(callers: seq<Caller>, ks: seq<nat>, ok: bool): (after: seq<Caller>)
    requires forall i :: 0 <= i < |ks| ==> ks[i] < |callers|
    ensures |after| == |callers|
    decreases |ks|
  {
    if ks == [] then callers
    else
      var k := ks[0];
      var next := callers[k := Answer(callers[k], ok)];
      ResumeAll(next, ks[1..], ok)
  }

  predicate KnownContinuations(s: Sys) {
    forall i :: 0 <= i < |s.continuations| ==> s.continuations[i] < |s.callers|
  }

  function Cancelled(c: Conn, connection: bool, task: bool): Conn {
    c.(cancelled := c.cancelled || connection, taskCancelled := c.taskCancelled || task)
  }

  function CancelAll(conns: seq<Conn>, active: set<nat>, tasks: set<nat>): (after: seq<Conn>)
    ensures |after| == |conns|
    ensures forall i :: 0 <= i < |conns| ==> after[i] == Cancelled(conns[i], i in active, i in tasks)
  {
    seq(|conns|, i requires 0 <= i < |conns| => Cancelled(conns[i], i in active, i in tasks))
  }

  function TransitionToStopped(s: Sys): Sys
    requires KnownContinuations(s)
  {
    if s.lifecycle.Stopped? then s
    else s.(generation := s.generation + 1, lifecycle := Stopped,
            conns := CancelAll(s.conns, s.active, s.tasks), active := {}, tasks := {},
            callers := ResumeAll(s.callers, s.continuations, false), continuations := [])
  }

  datatype ListenerState = ListenerReady | ListenerFailed | ListenerCancelled | ListenerOther

  function UpdateListenerState(s: Sys, state: ListenerState, g: nat): Sys
    requires KnownContinuations(s)
  {
    if g != s.generation then s
    else match state
      case ListenerReady =>
        if s.lifecycle != Starting(g) then s
        else s.(lifecycle := Ready(g), callers := ResumeAll(s.callers, s.continuations, true), continuations := [])
      case ListenerOther => s
      case _ => if s.lifecycle != Starting(g) && s.lifecycle != Ready(g) then s else TransitionToStopped(s)
  }

  // ------------------------------------------------------------------ connections

  predicate IsServing(s: Sys, g: nat) { s.lifecycle == Ready(g) && g == s.generation }

  function Accept(s: Sys, g: nat): Sys {
    if !IsServing(s, g) then s.(conns := s.conns + [Conn(g, Finished, "", true, false)])
    else s.(conns := s.conns + [Conn(g, Queued, "", false, false)],
            active := s.active + {|s.conns|}, tasks := s.tasks + {|s.conns|})
  }

  function FinishConnection(s: Sys, i: nat): Sys
    requires i < |s.conns|
  {
    s.(active := s.active - {i}, tasks := s.tasks - {i},
       conns := s.conns[i := s.conns[i].(phase := Finished, cancelled := true)])
  }

  /** What a connection's receive delivers: bytes with a last-part flag, nothing, or an error. */
  datatype Received = Bytes(data: string, complete: bool) | ReceiveError

  /** What a handler does next with the bytes it received; Finished ends it. */
  function Digest(c: Conn, r: Received, limits: Limits): Phase {
    if r.ReceiveError? || r.data == "" then Finished
    else match OneShot(c.received + r.data, limits)
      case Done(request) => Responding(request)
      case Pending => if r.complete then Finished else Receiving
      case Failed(error) => SendingFailure(error)
  }

  function MoveOn(s: Sys, i: nat, phase: Phase, received: string): Sys
    requires i < |s.conns|
  {
    if phase.Finished? then FinishConnection(s, i)
    else s.(conns := s.conns[i := s.conns[i].(phase := phase, received := received)])
  }

  /** One stretch of a handler; every stretch first checks that its generation is still served. */
  function HandlerStep(s: Sys, i: nat, r: Received, limits: Limits): Sys
    requires i < |s.conns| && !s.conns[i].phase.Finished?
  {
    var c := s.conns[i];
    if c.phase.Sending? || c.phase.SendingFailure? || !IsServing(s, c.gen) || c.taskCancelled
    then FinishConnection(s, i)
    else match c.phase
      case Queued => MoveOn(s, i, Receiving, c.received)
      case Receiving => MoveOn(s, i, Digest(c, r, limits), if r.Bytes? then c.received + r.data else c.received)
      case Responding(request) => MoveOn(s, i, Sending(request), c.received)
  }

  // --------------------------------------------------------------------- the steps

  datatype Event =
    | StartCalled
    | ContinuationReady(caller: nat)
    | StopCalled
    | ListenerUpdate(state: ListenerState, gen: nat)
    | NewConnection(gen: nat)
    | HandlerRan(conn: nat, received: Received)

  ghost predicate Enabled(s: Sys, e: Event) {
    match e
    case ContinuationReady(k) => k < |s.callers| && s.callers[k].state.Entering?
    case HandlerRan(i, _) => i < |s.conns| && !s.conns[i].phase.Finished?
    case _ => true
  }

  ghost function Step(s: Sys, e: Event, limits: Limits): Sys
    requires KnownContinuations(s) && Enabled(s, e)
  {
    match e
    case StartCalled => StartCall(s)
    case ContinuationReady(k) => ContinuationBody(s, k)
    case StopCalled => TransitionToStopped(s)
    case ListenerUpdate(state, g) => UpdateListenerState(s, state, g)
    case NewConnection(g) => Accept(s, g)
    case HandlerRan(i, r) => HandlerStep(s, i, r, limits)
  }

  ghost predicate Legal(s: Sys, events: seq<Event>, limits: Limits)
    decreases |events|
  {
    events != [] ==> KnownContinuations(s) && Enabled(s, events[0]) && Legal(Step(s, events[0], limits), events[1..], limits)
  }

  ghost function After(s: Sys, events: seq<Event>, limits: Limits): Sys
    requires Legal(s, events, limits)
    decreases |events|
  {
    if events == [] then s else After(Step(s, events[0], limits), events[1..], limits)
  }

  // ------------------------------------------------------------------ the invariant

  /** The counter takes at most the values 0, 1 and 2: no wrap-around. */
  ghost predicate LifecycleInv(lifecycle: Lifecycle, generation: nat) {
    match lifecycle
    case Idle => generation == 0
    case Starting(g) => g == generation == 1
    case Ready(g) => g == generation == 1
    case Stopped => 1 <= generation <= 2
  }

  /** The suspended callers are exactly the listed continuations, each once, and only while starting. */
  ghost predicate ContinuationsInv(lifecycle: Lifecycle, callers: seq<Caller>, ks: seq<nat>) {
    && (forall i :: 0 <= i < |ks| ==> ks[i] < |callers| && callers[ks[i]].state.Suspended?)
    && (forall i, j :: 0 <= i < j < |ks| ==> ks[i] != ks[j])
    && (forall k :: 0 <= k < |callers| && callers[k].state.Suspended? ==> k in ks)
    && (!lifecycle.Starting? ==> ks == [])
  }

  ghost predicate CallersInv(lifecycle: Lifecycle, callers: seq<Caller>, listenerStarts: nat) {
    && (forall k :: 0 <= k < |callers| ==>
          && callers[k].resumes <= (if callers[k].state.Returned? || callers[k].state.Threw? then 1 else 0)
          && (callers[k].state.Returned? ==> lifecycle.Ready? || lifecycle.Stopped?)
          && (callers[k].state.Entering? ==> callers[k].state.gen == 1)
          && (callers[k].state.Entering? && callers[k].state.shouldStart ==> k == 0 && listenerStarts == 0))
    && (lifecycle.Idle? ==> callers == [] && listenerStarts == 0)
    && listenerStarts <= 1
  }

  /** The tables have the same keys: the connections not yet cancelled, all of the served generation. */
  ghost predicate TablesInv(lifecycle: Lifecycle, conns: seq<Conn>, active: set<nat>, tasks: set<nat>) {
    && active == tasks
    && (forall i :: i in active ==> i < |conns|)
    && (forall i :: 0 <= i < |conns| ==> (i in active <==> !conns[i].cancelled))
    && (forall i :: 0 <= i < |conns| && !conns[i].cancelled ==>
          lifecycle == Ready(conns[i].gen) && !conns[i].phase.Finished? && !conns[i].taskCancelled)
  }

  /** What a handler answers is the one-shot parse of everything its connection delivered. */
  ghost predicate ConnInv(c: Conn, limits: Limits) {
    match c.phase
    case Responding(request) => OneShot(c.received, limits) == Done(request)
    case Sending(request) => OneShot(c.received, limits) == Done(request)
    case SendingFailure(error) => OneShot(c.received, limits) == Failed(error)
    case Receiving => c.received == "" || OneShot(c.received, limits).Pending?
    case Queued => c.received == ""
    case Finished => true
  }

  ghost predicate ConnsInv(conns: seq<Conn>, limits: Limits) {
    forall i :: 0 <= i < |conns| ==> ConnInv(conns[i], limits)
  }

  ghost predicate Inv(s: Sys, limits: Limits) {
    && LifecycleInv(s.lifecycle, s.generation)
    && ContinuationsInv(s.lifecycle, s.callers, s.continuations)
    && CallersInv(s.lifecycle, s.callers, s.listenerStarts)
    && TablesInv(s.lifecycle, s.conns, s.active, s.tasks)
    && ConnsInv(s.conns, limits)
  }

  /** Resuming distinct continuations answers each of them once and nobody else. */
  lemma {:induction false} ResumedOnce(callers: seq<Caller>, ks: seq<nat>, ok: bool)
    requires forall i :: 0 <= i < |ks| ==> ks[i] < |callers|
    requires forall i, j :: 0 <= i < j < |ks| ==> ks[i] != ks[j]
    ensures forall k :: 0 <= k < |callers| ==>
              ResumeAll(callers, ks, ok)[k] == if k in ks then Answer(callers[k], ok) else callers[k]
    decreases |ks|
  {
    if ks != [] {
      var next := callers[ks[0] := Answer(callers[ks[0]], ok)];
      ResumedOnce(next, ks[1..], ok);
      forall k | 0 <= k < |callers|
        ensures ResumeAll(callers, ks, ok)[k] == if k in ks then Answer(callers[k], ok) else callers[k]
      {
        if k == ks[0] { assert k !in ks[1..]; }
        assert k in ks <==> k == ks[0] || k in ks[1..];
      }
    }
  }

  lemma StartCallKeepsInv(s: Sys, limits: Limits)
    requires Inv(s, limits)
    ensures Inv(StartCall(s), limits)
  {
    var t := StartCall(s);
    assert forall k :: 0 <= k < |s.callers| ==> t.callers[k] == s.callers[k];
    assert !t.callers[|s.callers|].state.Suspended?;
  }

  lemma BodyKeepsInv(s: Sys, k: nat, limits: Limits)
    requires Inv(s, limits) && k < |s.callers| && s.callers[k].state.Entering?
    ensures Inv(ContinuationBody(s, k), limits)
  {
    var t := ContinuationBody(s, k);
    assert forall i :: 0 <= i < |s.continuations| ==> s.continuations[i] != k;
    if s.lifecycle == Starting(s.callers[k].state.gen) {
      assert t.continuations[|s.continuations|] == k;
      assert forall i :: i in s.continuations ==> i in t.continuations;
    }
  }

  lemma StoppingKeepsInv(s: Sys, limits: Limits)
    requires Inv(s, limits)
    ensures Inv(TransitionToStopped(s), limits)
  {
    ResumedOnce(s.callers, s.continuations, false);
  }

  lemma ReadyKeepsInv(s: Sys, g: nat, limits: Limits)
    requires Inv(s, limits)
    ensures Inv(UpdateListenerState(s, ListenerReady, g), limits)
  {
    ResumedOnce(s.callers, s.continuations, true);
  }

  lemma AcceptKeepsInv(s: Sys, g: nat, limits: Limits)
    requires Inv(s, limits)
    ensures Inv(Accept(s, g), limits)
  {
    var t := Accept(s, g);
    assert forall i :: 0 <= i < |s.conns| ==> t.conns[i] == s.conns[i];
  }

  lemma HandlerKeepsInv(s: Sys, i: nat, r: Received, limits: Limits)
    requires Inv(s, limits) && i < |s.conns| && !s.conns[i].phase.Finished?
    ensures Inv(HandlerStep(s, i, r, limits), limits)
  {
    if HandlerStep(s, i, r, limits) == FinishConnection(s, i) {
      FinishKeepsInv(s, i, limits);
    } else {
      var t := HandlerStep(s, i, r, limits);
      var c := t.conns[i];
      assert t == s.(conns := s.conns[i := c]);
      assert ConnInv(c, limits);
      ConnUpdateKeepsInv(s, i, c, limits);
    }
  }

  lemma FinishKeepsInv(s: Sys, i: nat, limits: Limits)
    requires Inv(s, limits) && i < |s.conns|
    ensures Inv(FinishConnection(s, i), limits)
  {
  }

  lemma ConnUpdateKeepsInv(s: Sys, i: nat, c: Conn, limits: Limits)
    requires Inv(s, limits) && i < |s.conns| && ConnInv(c, limits) && !c.phase.Finished?
    requires c == s.conns[i].(phase := c.phase, received := c.received)
    ensures Inv(s.(conns := s.conns[i := c]), limits)
  {
  }

  lemma StepKeepsInv(s: Sys, e: Event, limits: Limits)
    requires Inv(s, limits) && Enabled(s, e)
    ensures Inv(Step(s, e, limits), limits)
  {
    match e
    case StartCalled => StartCallKeepsInv(s, limits);
    case ContinuationReady(k) => BodyKeepsInv(s, k, limits);
    case StopCalled => StoppingKeepsInv(s, limits);
    case ListenerUpdate(state, g) =>
      if state.ListenerReady? { ReadyKeepsInv(s, g, limits); } else { StoppingKeepsInv(s, limits); }
    case NewConnection(g) => AcceptKeepsInv(s, g, limits);
    case HandlerRan(i, r) => HandlerKeepsInv(s, i, r, limits);
  }

  lemma {:induction false} RunKeepsInv(s: Sys, events: seq<Event>, limits: Limits)
    requires Inv(s, limits) && Legal(s, events, limits)
    ensures Inv(After(s, events, limits), limits)
    decreases |events|
  {
    if events != [] {
      StepKeepsInv(s, events[0], limits);
      RunKeepsInv(Step(s, events[0], limits), events[1..], limits);
    }
  }

  // --------------------------------------------------------------------- the results

  /** No continuation is resumed twice; none is pending once ready or stopped; the listener is started at most once. */
  lemma ContinuationsAreAnswered(events: seq<Event>, limits: Limits, k: nat)
    requires Legal(INITIAL, events, limits)
    ensures var s := After(INITIAL, events, limits);
            && s.listenerStarts <= 1
            && (k < |s.callers| ==> s.callers[k].resumes <= 1)
            && (k < |s.callers| && !s.lifecycle.Starting? ==> !s.callers[k].state.Suspended?)
            && (k < |s.callers| && s.callers[k].state.Returned? ==> s.lifecycle.Ready? || s.lifecycle.Stopped?)
  {
    RunKeepsInv(INITIAL, events, limits);
  }

  /** The tables hold exactly the connections still open, and only those of the generation being served. */
  lemma TablesHoldTheOpenConnections(events: seq<Event>, limits: Limits, i: nat)
    requires Legal(INITIAL, events, limits)
    ensures var s := After(INITIAL, events, limits);
            && s.active == s.tasks
            && (i < |s.conns| ==> (i in s.active <==> !s.conns[i].cancelled))
            && (i in s.active ==> i < |s.conns| && IsServing(s, s.conns[i].gen))
  {
    RunKeepsInv(INITIAL, events, limits);
  }

  /** A response goes out only for the request that parsing the whole received text at once gives. */
  lemma AnswersTheWholeText(events: seq<Event>, limits: Limits, i: nat)
    requires Legal(INITIAL, events, limits)
    ensures var s := After(INITIAL, events, limits);
            i < |s.conns| ==>
              && (s.conns[i].phase.Sending? ==> OneShot(s.conns[i].received, limits) == Done(s.conns[i].phase.request))
              && (s.conns[i].phase.SendingFailure? ==>
                  OneShot(s.conns[i].received, limits) == Failed(s.conns[i].phase.error))
  {
    RunKeepsInv(INITIAL, events, limits);
    assert Inv(After(INITIAL, events, limits), limits);
  }

  /** A response, of the router or about a failure, is begun only while its generation is served. */
  lemma AnswersOnlyWhileServing(s: Sys, e: Event, limits: Limits, i: nat)
    requires Inv(s, limits) && Enabled(s, e) && i < |s.conns|
    ensures var t := Step(s, e, limits);
            && i < |t.conns|
            && (t.conns[i].phase.Sending? && !s.conns[i].phase.Sending? ==> IsServing(s, s.conns[i].gen))
            && (t.conns[i].phase.SendingFailure? && !s.conns[i].phase.SendingFailure? ==> IsServing(s, s.conns[i].gen))
  {
  }

  /** Stopped is final: the tables stay empty, later starts throw, connections are refused. */
  lemma {:induction false} StoppedIsAbsorbing(s: Sys, events: seq<Event>, limits: Limits)
    requires Inv(s, limits) && s.lifecycle.Stopped? && Legal(s, events, limits)
    ensures var t := After(s, events, limits);
            && t.lifecycle.Stopped? && t.active == {} && t.tasks == {} && t.generation == s.generation
            && |s.callers| <= |t.callers|
            && (forall k :: |s.callers| <= k < |t.callers| ==> t.callers[k] == Caller(Threw, 0))
            && |s.conns| <= |t.conns| && (forall i :: 0 <= i < |t.conns| ==> t.conns[i].cancelled)
    decreases |events|
  {
    if events == [] {
      assert forall i :: 0 <= i < |s.conns| ==> i !in s.active;
      assert s.active == {};
    } else {
      StepKeepsInv(s, events[0], limits);
      var next := Step(s, events[0], limits);
      StoppedIsAbsorbing(next, events[1..], limits);
      StoppedStep(s, events[0], limits);
      CallersKept(next, events[1..], limits);
    }
  }

  lemma StoppedStep(s: Sys, e: Event, limits: Limits)
    requires Inv(s, limits) && s.lifecycle.Stopped? && Enabled(s, e)
    ensures var t := Step(s, e, limits);
            && t.lifecycle.Stopped? && t.generation == s.generation && |s.conns| <= |t.conns|
            && |s.callers| <= |t.callers| <= |s.callers| + 1
            && (|t.callers| > |s.callers| ==> t.callers[|s.callers|] == Caller(Threw, 0))
  {
  }

  /** After the stop, an answered caller is never touched again. */
  lemma {:induction false} CallersKept(s: Sys, events: seq<Event>, limits: Limits)
    requires Inv(s, limits) && s.lifecycle.Stopped? && Legal(s, events, limits)
    ensures forall k :: 0 <= k < |s.callers| && !s.callers[k].state.Entering? ==>
              k < |After(s, events, limits).callers| && After(s, events, limits).callers[k] == s.callers[k]
    decreases |events|
  {
    if events != [] {
      StepKeepsInv(s, events[0], limits);
      var next := Step(s, events[0], limits);
      assert forall k :: 0 <= k < |s.callers| && !s.callers[k].state.Entering? ==>
        k < |next.callers| && next.callers[k] == s.callers[k];
      StoppedStep(s, events[0], limits);
      CallersKept(next, events[1..], limits);
    }
  }

  /** Callbacks of an older generation change nothing; a connection they bring is refused. */
  lemma OldGenerationChangesNothing(s: Sys, e: Event, limits: Limits)
    requires Inv(s, limits) && (e.ListenerUpdate? || e.NewConnection?) && e.gen != s.generation
    ensures e.ListenerUpdate? ==> Step(s, e, limits) == s
    ensures e.NewConnection? ==> Step(s, e, limits) == s.(conns := s.conns + [Conn(e.gen, Finished, "", true, false)])
  {
  }

  // ------------------------------------------------------------------ the server itself

  /** The actor's fields; callers and connections stand for what it suspended and spawned. */
  class Server {
    const limits: Limits
    var lifecycle: Lifecycle
    var generation: nat
    var callers: seq<Caller>
    var startContinuations: seq<nat>
    var conns: seq<Conn>
    var activeConnections: set<nat>
    var connectionTasks: set<nat>
    var listenerStarts: nat

    ghost function View(): Sys
      reads this
    {
      Sys(lifecycle, generation, callers, startContinuations, conns, activeConnections, connectionTasks, listenerStarts)
    }

    ghost predicate Valid()
      reads this
    {
      Inv(View(), limits)
    }

    constructor (limits: Limits)
      ensures Valid() && View() == INITIAL && this.limits == limits
    {
      this.limits := limits;
      lifecycle, generation, callers, startContinuations := Idle, 0, [], [];
      conns, activeConnections, connectionTasks, listenerStarts := [], {}, {}, 0;
    }

    /** `start` up to the body of its continuation, or its return. */
    method Start()
      requires Valid()
      modifies this
      ensures Valid() && View() == StartCall(old(View()))
    {
      StartCallKeepsInv(View(), limits);
      match lifecycle {
        case Ready(_) => callers := callers + [Caller(Returned, 0)];
        case Stopped => callers := callers + [Caller(Threw, 0)];
        case Starting(existing) => callers := callers + [Caller(Entering(existing, false), 0)];
        case Idle =>
          generation := generation + 1;
          lifecycle := Starting(generation);
          callers := callers + [Caller(Entering(generation, true), 0)];
      }
    }

    method RunContinuation(k: nat)
      requires Valid() && k < |callers| && callers[k].state.Entering?
      modifies this
      ensures Valid() && View() == ContinuationBody(old(View()), k)
    {
      BodyKeepsInv(View(), k, limits);
      var entering := callers[k].state;
      if lifecycle != Starting(entering.gen) {
        callers := callers[k := Answer(callers[k], false)];
        return;
      }
      startContinuations := startContinuations + [k];
      callers := callers[k := Caller(Suspended, callers[k].resumes)];
      if entering.shouldStart { listenerStarts := listenerStarts + 1; }
    }

    method ResumeStartContinuations(ok: bool)
      requires KnownContinuations(View())
      modifies this`callers, this`startContinuations
      ensures startContinuations == [] && callers == ResumeAll(old(callers), old(startContinuations), ok)
    {
      var continuations := startContinuations;
      startContinuations := [];
      var i := 0;
      while i < |continuations|
        invariant 0 <= i <= |continuations| && |callers| == |old(callers)| && startContinuations == []
        invariant ResumeAll(callers, continuations[i..], ok) == ResumeAll(old(callers), continuations, ok)
      {
        var k := continuations[i];
        assert continuations[i..][1..] == continuations[i + 1..];
        callers := callers[k := Answer(callers[k], ok)];
        i := i + 1;
      }
      assert continuations[i..] == [];
    }

    method CancelTasksAndConnections()
      requires (forall i :: i in activeConnections ==> i < |conns|) && (forall i :: i in connectionTasks ==> i < |conns|)
      modifies this`conns
      ensures conns == CancelAll(old(conns), activeConnections, connectionTasks)
    {
      var left := connectionTasks;
      while left != {}
        invariant left <= connectionTasks && |conns| == |old(conns)|
        invariant forall j :: 0 <= j < |conns| ==>
          conns[j] == Cancelled(old(conns)[j], false, j in connectionTasks && j !in left)
      {
        var i :| i in left;
        conns := conns[i := Cancelled(conns[i], false, true)];
        left := left - {i};
      }
      left := activeConnections;
      while left != {}
        invariant left <= activeConnections && |conns| == |old(conns)|
        invariant forall j :: 0 <= j < |conns| ==>
          conns[j] == Cancelled(old(conns)[j], j in activeConnections && j !in left, j in connectionTasks)
      {
        var i :| i in left;
        conns := conns[i := Cancelled(conns[i], true, false)];
        left := left - {i};
      }
    }

    method StopServing()
      requires KnownContinuations(View())
      requires (forall i :: i in activeConnections ==> i < |conns|) && (forall i :: i in connectionTasks ==> i < |conns|)
      modifies this
      ensures View() == TransitionToStopped(old(View()))
    {
      if lifecycle.Stopped? { return; }
      generation := generation + 1;
      lifecycle := Stopped;
      CancelTasksAndConnections();
      connectionTasks := {};
      activeConnections := {};
      ResumeStartContinuations(false);
    }

    /** `stop`, and what a failed or cancelled listener does. */
    method Stop()
      requires Valid()
      modifies this
      ensures Valid() && View() == TransitionToStopped(old(View()))
    {
      StoppingKeepsInv(View(), limits);
      StopServing();
    }

    method ListenerChanged(state: ListenerState, g: nat)
      requires Valid()
      modifies this
      ensures Valid() && View() == UpdateListenerState(old(View()), state, g)
    {
      if g != generation { return; }
      match state {
        case ListenerReady =>
          ReadyKeepsInv(View(), g, limits);
          if lifecycle != Starting(g) { return; }
          lifecycle := Ready(g);
          ResumeStartContinuations(true);
        case ListenerOther =>
        case _ =>
          if lifecycle != Starting(g) && lifecycle != Ready(g) { return; }
          Stop();
      }
    }

    method AcceptConnection(g: nat)
      requires Valid()
      modifies this
      ensures Valid() && View() == Accept(old(View()), g)
    {
      AcceptKeepsInv(View(), g, limits);
      if !(lifecycle == Ready(g) && g == generation) {
        conns := conns + [Conn(g, Finished, "", true, false)];
        return;
      }
      var identifier := |conns|;
      conns := conns + [Conn(g, Queued, "", false, false)];
      activeConnections := activeConnections + {identifier};
      connectionTasks := connectionTasks + {identifier};
    }

    method Finish(i: nat)
      requires i < |conns|
      modifies this
      ensures View() == FinishConnection(old(View()), i)
    {
      connectionTasks := connectionTasks - {i};
      activeConnections := activeConnections - {i};
      conns := conns[i := conns[i].(phase := Finished, cancelled := true)];
    }

    /** One stretch of a connection's handler. */
    method Handle(i: nat, r: Received)
      requires Valid() && i < |conns| && !conns[i].phase.Finished?
      modifies this
      ensures Valid() && View() == HandlerStep(old(View()), i, r, limits)
    {
      HandlerKeepsInv(View(), i, r, limits);
      var c := conns[i];
      if c.phase.Sending? || c.phase.SendingFailure? || !(lifecycle == Ready(c.gen) && c.gen == generation)
          || c.taskCancelled {
        Finish(i);
        return;
      }
      match c.phase {
        case Queued => conns := conns[i := c.(phase := Receiving)];
        case Responding(request) => conns := conns[i := c.(phase := Sending(request))];
        case Receiving =>
          if r.ReceiveError? || r.data == "" {
            Finish(i);
            return;
          }
          var received := c.received + r.data;
          match OneShot(received, limits) {
            case Done(request) => conns := conns[i := c.(phase := Responding(request), received := received)];
            case Failed(error) => conns := conns[i := c.(phase := SendingFailure(error), received := received)];
            case Pending =>
              if r.complete { Finish(i); } else { conns := conns[i := c.(received := received)]; }
          }
      }
    }
  }
}
