/**
 The locked sample intake of one recording attempt: capture callbacks enqueue
 from any thread, one worker appends to the writer, and the stop path closes the
 intake and drains it. One step per critical section or worker turn.

 The sample a worker is appending counts as still buffered until the append
 returns.
 */
module RecordingSampleIntake {
  import opened Prelude

  type Sample = int
  type CaptureError = string

  /** The worker is consuming, has returned nil, or has returned an error. */
  datatype Worker = Consuming | Returned | Threw

  datatype Intake = Intake(
    accepting: bool,
    buffered: seq<Sample>,
    captureFailure: Option<CaptureError>,
    worker: Worker,
    accepted: seq<Sample>,   // history: every sample the intake took, in lock order
    appended: seq<Sample>)   // history: every sample the writer has appended

  const FRESH := Intake(true, [], None, Consuming, [], [])

  function Enqueue(i: Intake, sample: Sample): Intake {
    if i.accepting then i.(buffered := i.buffered + [sample], accepted := i.accepted + [sample]) else i
  }

  /** Only the first reported failure is kept. */
  function Fail(i: Intake, error: CaptureError): Intake {
    if i.captureFailure.None? then i.(captureFailure := Some(error)) else i
  }

  function StopAccepting(i: Intake): Intake {
    i.(accepting := false)
  }

  /** The worker's turn: `ok` is the writer's answer for the oldest buffered sample. */
  function WorkerTurn(i: Intake, ok: bool): Intake {
    if i.worker != Consuming then i
    else if i.buffered != [] then
      if ok then i.(buffered := i.buffered[1..], appended := i.appended + [i.buffered[0]])
      else i.(buffered := i.buffered[1..], worker := Threw)
    else if i.accepting then i   // the stream is still open: keep waiting
    else i.(worker := Returned)
  }

  /** finishAcceptingAndDrain returns normally only from these states. */
  predicate DrainsCleanly(i: Intake) {
    i.worker == Returned && i.captureFailure.None?
  }

  datatype Step =
    | Enqueued(sample: Sample)
    | Failed(error: CaptureError)
    | Closed
    | WorkerRan(ok: bool)

  function Do(i: Intake, s: Step): Intake {
    match s
    case Enqueued(sample) => Enqueue(i, sample)
    case Failed(error) => Fail(i, error)
    case Closed => StopAccepting(i)
    case WorkerRan(ok) => WorkerTurn(i, ok)
  }

  function Run(i: Intake, steps: seq<Step>): Intake
    decreases |steps|
  {
    if steps == [] then i else Run(Do(i, steps[0]), steps[1..])
  }

  ghost predicate Inv(i: Intake) {
    && i.appended <= i.accepted
    && (i.worker == Consuming ==> i.appended + i.buffered == i.accepted)
    && (i.worker == Returned ==> !i.accepting && i.buffered == [] && i.appended == i.accepted)
  }

  lemma StepKeepsInv(i: Intake, s: Step)
    requires Inv(i)
    ensures Inv(Do(i, s))
    ensures i.accepted <= Do(i, s).accepted && i.appended <= Do(i, s).appended
    ensures !i.accepting ==> !Do(i, s).accepting && Do(i, s).accepted == i.accepted
    ensures i.captureFailure.Some? ==> Do(i, s).captureFailure == i.captureFailure
  {
    if s.WorkerRan? && i.worker == Consuming && i.buffered != [] {
      assert i.accepted == i.appended + [i.buffered[0]] + i.buffered[1..];
      if !s.ok { assert i.appended <= i.accepted; }
    }
  }

  /**
   For any stream of concurrent steps: the writer holds a prefix of the accepted
   samples, the whole sequence once the worker has returned; nothing is accepted
   after the intake closed; the first failure is never lost or replaced.
   */
  lemma {:induction false} RunIsOrdered(i: Intake, steps: seq<Step>)
    requires Inv(i)
    ensures var j := Run(i, steps);
            && Inv(j)
            && i.accepted <= j.accepted && i.appended <= j.appended
            && (DrainsCleanly(j) ==> j.appended == j.accepted)
            && (!i.accepting ==> j.accepted == i.accepted)
            && (i.captureFailure.Some? ==> j.captureFailure == i.captureFailure)
    decreases |steps|
  {
    if steps != [] {
      StepKeepsInv(i, steps[0]);
      RunIsOrdered(Do(i, steps[0]), steps[1..]);
    }
  }

  /** A closed intake whose writer accepts every sample drains after one turn per sample and one more. */
  lemma {:induction false} DrainTerminates(i: Intake)
    requires Inv(i) && !i.accepting && i.worker == Consuming
    ensures var j := Run(i, seq(|i.buffered| + 1, _ => WorkerRan(true)));
            j.worker == Returned && j.appended == i.accepted && j.captureFailure == i.captureFailure
    decreases |i.buffered|
  {
    var steps := seq(|i.buffered| + 1, _ => WorkerRan(true));
    StepKeepsInv(i, WorkerRan(true));
    if i.buffered != [] {
      var j := WorkerTurn(i, true);
      assert steps[1..] == seq(|j.buffered| + 1, _ => WorkerRan(true));
      DrainTerminates(j);
    } else {
      assert steps[1..] == [];
      assert Run(i, steps) == WorkerTurn(i, true);
    }
  }

  // ------------------------------------------------ an intake told from its steps

  /** The samples that reach the intake before it is first closed. */
  ghost function Taken(steps: seq<Step>): seq<Sample> {
    if steps == [] || steps[0].Closed? then []
    else (if steps[0].Enqueued? then [steps[0].sample] else []) + Taken(steps[1..])
  }

  /** The first failure that was reported. */
  ghost function FirstFailure(steps: seq<Step>): Option<CaptureError> {
    if steps == [] then None else if steps[0].Failed? then Some(steps[0].error) else FirstFailure(steps[1..])
  }

  lemma {:induction false} ClosedAcceptsNothing(i: Intake, steps: seq<Step>)
    requires !i.accepting
    ensures Run(i, steps).accepted == i.accepted
    decreases |steps|
  {
    if steps != [] { ClosedAcceptsNothing(Do(i, steps[0]), steps[1..]); }
  }

  lemma {:induction false} OpenAccepts(i: Intake, steps: seq<Step>)
    requires i.accepting
    ensures Run(i, steps).accepted == i.accepted + Taken(steps)
    decreases |steps|
  {
    if steps != [] {
      var next, rest := Do(i, steps[0]), steps[1..];
      if steps[0].Closed? {
        ClosedAcceptsNothing(next, rest);
      } else {
        OpenAccepts(next, rest);
        var taken := if steps[0].Enqueued? then [steps[0].sample] else [];
        assert next.accepted == i.accepted + taken;
        assert (i.accepted + taken) + Taken(rest) == i.accepted + (taken + Taken(rest));
      }
    }
  }

  lemma {:induction false} RunFails(i: Intake, steps: seq<Step>)
    ensures Run(i, steps).captureFailure == if i.captureFailure.Some? then i.captureFailure else FirstFailure(steps)
    decreases |steps|
  {
    if steps != [] { RunFails(Do(i, steps[0]), steps[1..]); }
  }

  lemma {:induction false} RunCloses(i: Intake, steps: seq<Step>)
    ensures Run(i, steps).accepting <==> i.accepting && Closed !in steps
    decreases |steps|
  {
    if steps != [] {
      RunCloses(Do(i, steps[0]), steps[1..]);
      assert Closed in steps <==> steps[0].Closed? || Closed in steps[1..];
    }
  }

  /** From any intake: what is accepted, whether it is open, and which failure is kept, by the order of the steps alone. */
  lemma RunTakes(i: Intake, steps: seq<Step>)
    ensures var j := Run(i, steps);
            && j.accepted == i.accepted + (if i.accepting then Taken(steps) else [])
            && (j.accepting <==> i.accepting && Closed !in steps)
            && j.captureFailure == (if i.captureFailure.Some? then i.captureFailure else FirstFailure(steps))
  {
    if i.accepting { OpenAccepts(i, steps); } else { ClosedAcceptsNothing(i, steps); }
    RunFails(i, steps);
    RunCloses(i, steps);
  }

  /** The worker gives up only on a sample the writer refused, and returns only once the intake is closed. */
  lemma {:induction false} WorkerEndsBecause(i: Intake, steps: seq<Step>)
    requires i.worker == Consuming && i.accepting
    ensures var j := Run(i, steps);
            && (j.worker == Threw ==> WorkerRan(false) in steps)
            && (j.worker == Returned ==> Closed in steps)
    decreases |steps|
  {
    if steps != [] {
      var next := Do(i, steps[0]);
      assert steps == [steps[0]] + steps[1..];
      if next.worker == Consuming && next.accepting { WorkerEndsBecause(next, steps[1..]); }
      else if next.worker == Consuming { ClosedWorkerEndsBecause(next, steps[1..]); }
      else { EndedWorkerStays(next, steps[1..]); }
    }
  }

  lemma {:induction false} ClosedWorkerEndsBecause(i: Intake, steps: seq<Step>)
    requires i.worker == Consuming
    ensures Run(i, steps).worker == Threw ==> WorkerRan(false) in steps
    decreases |steps|
  {
    if steps != [] {
      var next := Do(i, steps[0]);
      assert steps == [steps[0]] + steps[1..];
      if next.worker == Consuming { ClosedWorkerEndsBecause(next, steps[1..]); } else { EndedWorkerStays(next, steps[1..]); }
    }
  }

  lemma {:induction false} EndedWorkerStays(i: Intake, steps: seq<Step>)
    requires i.worker != Consuming
    ensures Run(i, steps).worker == i.worker && Run(i, steps).appended == i.appended
    decreases |steps|
  {
    if steps != [] { EndedWorkerStays(Do(i, steps[0]), steps[1..]); }
  }

  class SampleIntake {
    var accepting: bool
    var stream: seq<Sample>
    var captureFailure: Option<CaptureError>
    var worker: Worker
    ghost var accepted: seq<Sample>
    ghost var appended: seq<Sample>

    ghost function View(): Intake
      reads this
    {
      Intake(accepting, stream, captureFailure, worker, accepted, appended)
    }

    constructor ()
      ensures View() == FRESH && Inv(View())
    {
      accepting, stream, captureFailure, worker := true, [], None, Consuming;
      accepted, appended := [], [];
    }

    method EnqueueSample(sample: Sample)
      requires Inv(View())
      modifies this
      ensures Inv(View()) && View() == Enqueue(old(View()), sample)
    {
      if !accepting { return; }
      stream := stream + [sample];
      accepted := accepted + [sample];
    }

    method ReportFailure(error: CaptureError)
      requires Inv(View())
      modifies this`captureFailure
      ensures Inv(View()) && View() == Fail(old(View()), error)
    {
      if captureFailure == None { captureFailure := Some(error); }
    }

    method CloseIntake()
      requires Inv(View())
      modifies this`accepting
      ensures Inv(View()) && View() == StopAccepting(old(View()))
    {
      if !accepting { return; }
      accepting := false;
    }

    /** One pass of the worker's loop body; `ok` is what the writer answered. */
    method RunWorker(ok: bool)
      requires Inv(View())
      modifies this
      ensures Inv(View()) && View() == WorkerTurn(old(View()), ok)
    {
      StepKeepsInv(View(), WorkerRan(ok));
      if worker != Consuming { return; }
      if stream == [] {
        if !accepting { worker := Returned; }
        return;
      }
      var sample := stream[0];
      stream := stream[1..];
      if ok { appended := appended + [sample]; } else { worker := Threw; }
    }

    /**
     finishAcceptingAndDrain, with `oks` the answers the writer gives to the samples left in
     the stream and `meanwhile` a failure reported while the worker is awaited: it reports
     success exactly when the worker drained the stream and no capture failure was reported
     before or meanwhile, and then the writer holds every accepted sample.
     */
    method FinishAcceptingAndDrain(oks: seq<bool>, meanwhile: Option<CaptureError>) returns (ok: bool)
      requires Inv(View()) && |oks| >= |stream|
      modifies this
      ensures Inv(View()) && !accepting && worker != Consuming
      ensures accepted == old(accepted)
      ensures captureFailure == if old(captureFailure).Some? then old(captureFailure) else meanwhile
      ensures ok <==> DrainsCleanly(View())
      ensures ok ==> appended == accepted
      ensures ok <==> old(captureFailure).None? && meanwhile.None? && old(worker) != Threw
                      && (forall k :: 0 <= k < |old(stream)| && old(worker) == Consuming ==> oks[k])
    {
      CloseIntake();
      var turn, total := 0, |stream|;
      while worker == Consuming
        invariant Inv(View()) && !accepting
        invariant accepted == old(accepted) && captureFailure == old(captureFailure)
        invariant old(worker) != Consuming ==> turn == 0 && worker == old(worker)
        invariant turn <= total == |old(stream)|
        invariant worker == Consuming ==> stream == old(stream)[turn..] && forall k :: 0 <= k < turn ==> oks[k]
        invariant worker == Returned && old(worker) == Consuming ==> forall k :: 0 <= k < |old(stream)| ==> oks[k]
        invariant worker == Threw && old(worker) == Consuming ==> exists k :: 0 <= k < |old(stream)| && !oks[k]
        decreases if worker == Consuming then |stream| + 1 else 0
      {
        var answer := stream == [] || oks[turn];
        RunWorker(answer);
        if turn < total { turn := turn + 1; }
      }
      if meanwhile.Some? { ReportFailure(meanwhile.value); }
      ok := worker == Returned && captureFailure == None;
    }
  }
}
