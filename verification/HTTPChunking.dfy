/** The answer of the parser does not depend on how the wire is cut into chunks. */
module HTTPChunking {
  import opened HTTPRequestParser

  function Concat(chunks: seq<string>): string {
    if chunks == [] then "" else Concat(chunks[..|chunks| - 1]) + chunks[|chunks| - 1]
  }

  predicate NonEmpty(chunks: seq<string>) {
    forall k :: 0 <= k < |chunks| ==> chunks[k] != ""
  }

  /** What `append` answers to chunk number k. */
  function Answer(chunks: seq<string>, k: nat, limits: Limits): Outcome
    requires k < |chunks|
  {
    OneShot(Concat(chunks[..k + 1]), limits)
  }

  /** The first answer that is not nil, and its chunk; nil and the number of chunks when there is none. */
  function FirstAnswer(chunks: seq<string>, from: nat, limits: Limits): (r: (Outcome, nat))
    requires from <= |chunks|
    ensures from <= r.1 <= |chunks|
    ensures forall k :: from <= k < r.1 ==> Answer(chunks, k, limits).Pending?
    ensures if r.1 == |chunks| then r.0 == Pending else r.0 == Answer(chunks, r.1, limits) && !r.0.Pending?
    decreases |chunks| - from
  {
    if from == |chunks| then (Pending, from)
    else if Answer(chunks, from, limits).Pending? then FirstAnswer(chunks, from + 1, limits)
    else (Answer(chunks, from, limits), from)
  }

  /** The connection's loop: append each received chunk until there is an answer. */
  method Receive(chunks: seq<string>, limits: Limits) returns (outcome: Outcome, used: nat)
    ensures (outcome, used) == FirstAnswer(chunks, 0, limits)
  {
    var parser := new Parser(limits);
    used := 0;
    while used < |chunks|
      invariant 0 <= used <= |chunks|
      invariant parser.limits == limits && parser.Cached() && parser.buffer == Concat(chunks[..used])
      invariant FirstAnswer(chunks, used, limits) == FirstAnswer(chunks, 0, limits)
    {
      assert chunks[..used + 1][..used] == chunks[..used];
      outcome := parser.Append(chunks[used]);
      if outcome != Pending { return; }
      used := used + 1;
    }
    outcome := Pending;
  }

  lemma {:induction false} Prefixes(chunks: seq<string>, j: nat)
    requires j <= |chunks| && NonEmpty(chunks)
    ensures Concat(chunks[..j]) <= Concat(chunks)
    ensures j < |chunks| ==> |Concat(chunks[..j])| < |Concat(chunks)|
    decreases |chunks|
  {
    if j == |chunks| {
      assert chunks[..j] == chunks;
    } else {
      var init := chunks[..|chunks| - 1];
      Prefixes(init, j);
      assert init[..j] == chunks[..j];
      if j == |init| { assert chunks[..j] == init; }
    }
  }

  lemma Increasing(chunks: seq<string>, i: nat, j: nat)
    requires i < j <= |chunks| && NonEmpty(chunks)
    ensures |Concat(chunks[..i])| < |Concat(chunks[..j])|
  {
    Prefixes(chunks[..j], i);
    assert chunks[..j][..i] == chunks[..i];
  }

  lemma AnswersArePrefixes(chunks: seq<string>, limits: Limits, k: nat)
    requires NonEmpty(chunks) && k < |chunks|
    ensures Concat(chunks[..k + 1]) <= Concat(chunks)
    ensures Concat(chunks[..k + 1]) == Concat(chunks) <==> k == |chunks| - 1
  {
    Prefixes(chunks, k + 1);
    if k == |chunks| - 1 { assert chunks[..k + 1] == chunks; }
  }

  /**
   Every split of a wire into non-empty chunks gives the one-shot answer: a request only with the last
   chunk, nil throughout when the wire is incomplete, and the same error.
   */
  lemma ChunkingDoesNotMatter(chunks: seq<string>, limits: Limits)
    requires NonEmpty(chunks) && OneShot(Concat(chunks), limits) != Failed(TrailingBytes)
    ensures var whole, first := OneShot(Concat(chunks), limits), FirstAnswer(chunks, 0, limits);
            && first.0 == whole
            && (whole.Done? ==> first.1 == |chunks| - 1)
            && (whole.Pending? ==> first.1 == |chunks|)
  {
    var w := Concat(chunks);
    var whole := OneShot(w, limits);
    if chunks == [] { return; }
    var n := |chunks| - 1;
    assert chunks[..n + 1] == chunks;
    var first := FirstAnswer(chunks, 0, limits);
    if first.1 < |chunks| {
      AnswersArePrefixes(chunks, limits, first.1);
      PrefixOutcome(Concat(chunks[..first.1 + 1]), w, limits);
    } else {
      assert Answer(chunks, n, limits).Pending?;
    }
  }

  /** Some chunk ends where the first request of the wire ends. */
  ghost predicate EndsAtRequest(chunks: seq<string>, limits: Limits)
    requires HeadStage(Concat(chunks), limits).Parsed?
  {
    exists j :: 0 <= j <= |chunks| && |Concat(chunks[..j])| == RequestEnd(Concat(chunks), limits)
  }

  lemma EmptyWireIsPending(limits: Limits)
    ensures OneShot("", limits) == Pending
  {
  }

  /** With bytes after the request, each answer is decided by how much has been received. */
  lemma AnswerBySize(chunks: seq<string>, limits: Limits, k: nat)
    requires NonEmpty(chunks) && k < |chunks| && OneShot(Concat(chunks), limits) == Failed(TrailingBytes)
    ensures var w := Concat(chunks);
            var size, end := |Concat(chunks[..k + 1])|, RequestEnd(w, limits);
            Answer(chunks, k, limits) == if size < end then Pending
                                         else if size == end then OneShot(w[..end], limits)
                                         else Failed(TrailingBytes)
  {
    var w := Concat(chunks);
    var p := Concat(chunks[..k + 1]);
    AnswersArePrefixes(chunks, limits, k);
    PrefixOutcome(p, w, limits);
    if |p| == RequestEnd(w, limits) { assert p == w[..|p|]; }
  }

  lemma StopsAtBoundary(chunks: seq<string>, limits: Limits, j: nat)
    requires NonEmpty(chunks) && OneShot(Concat(chunks), limits) == Failed(TrailingBytes)
    requires 0 < j <= |chunks| && |Concat(chunks[..j])| == RequestEnd(Concat(chunks), limits)
    ensures FirstAnswer(chunks, 0, limits).1 == j - 1
  {
    var w := Concat(chunks);
    PrefixOutcome(w[..RequestEnd(w, limits)], w, limits);
    AnswerBySize(chunks, limits, j - 1);
    var k := FirstAnswer(chunks, 0, limits).1;
    assert k <= j - 1;
    if k < j - 1 {
      AnswerBySize(chunks, limits, k);
      Increasing(chunks, k + 1, j);
    }
  }

  /** With bytes after the request, a split answers the request exactly when a chunk ends with it, else the error. */
  lemma TrailingBytesAnswer(chunks: seq<string>, limits: Limits)
    requires NonEmpty(chunks) && OneShot(Concat(chunks), limits) == Failed(TrailingBytes)
    ensures var w := Concat(chunks);
            var request := OneShot(w[..RequestEnd(w, limits)], limits);
            && request.Done?
            && FirstAnswer(chunks, 0, limits).0 ==
                 if EndsAtRequest(chunks, limits) then request else Failed(TrailingBytes)
  {
    var w := Concat(chunks);
    var end := RequestEnd(w, limits);
    PrefixOutcome(w[..end], w, limits);
    EmptyWireIsPending(limits);
    var n := |chunks| - 1;
    assert chunks[..n + 1] == chunks;
    assert !Answer(chunks, n, limits).Pending?;
    var k := FirstAnswer(chunks, 0, limits).1;
    assert k <= n;
    AnswerBySize(chunks, limits, k);
    if EndsAtRequest(chunks, limits) {
      var j :| 0 <= j <= |chunks| && |Concat(chunks[..j])| == end;
      assert j != 0 by { assert chunks[..0] == []; }
      StopsAtBoundary(chunks, limits, j);
    } else {
      assert |Concat(chunks[..k + 1])| != end;
    }
  }

  /** No accepted request is a proper prefix of another. */
  lemma AcceptedArePrefixFree(p: string, w: string, limits: Limits)
    requires p <= w && OneShot(p, limits).Done? && OneShot(w, limits).Done?
    ensures p == w
  {
    PrefixOutcome(p, w, limits);
  }
}
