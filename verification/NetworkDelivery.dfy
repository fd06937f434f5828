/**
 What a connection and a start caller get from the debug server, told from the list of
 events: a connection that stays open is exactly where the parts it delivered say, every
 text of the request grammar is answered with that request however it is cut into parts,
 and a start caller returns only after the listener became ready.
 */
module NetworkDelivery {
  import opened HTTPRequestParser
  import opened HTTPChunking
  import opened NetworkDebugServer
  import HTTPGrammar

  // ------------------------------------------------------------ what was delivered

  /** What the stretches of this connection's handler were given, in order. */
  ghost function Stretches(events: seq<Event>, i: nat): seq<Received> {
    if events == [] then []
    else
      var last := events[|events| - 1];
      Stretches(events[..|events| - 1], i) + if last.HandlerRan? && last.conn == i then [last.received] else []
  }

  predicate IsPart(r: Received) { r.Bytes? && r.data != "" }

  /** Parts of which none is empty or an error, and none the last. */
  ghost predicate Open(parts: seq<Received>) {
    forall k :: 0 <= k < |parts| ==> IsPart(parts[k]) && !parts[k].complete
  }

  /** The same, but that the last of them may be marked as the last. */
  ghost predicate Arrived(parts: seq<Received>) {
    parts != [] && Open(parts[..|parts| - 1]) && IsPart(parts[|parts| - 1])
  }

  ghost function Texts(parts: seq<Received>): (texts: seq<string>)
    ensures |texts| == |parts|
    ensures forall k :: 0 <= k < |parts| && parts[k].Bytes? ==> texts[k] == parts[k].data
  {
    seq(|parts|, k requires 0 <= k < |parts| => if parts[k].Bytes? then parts[k].data else "")
  }

  /** The parser's first answer to these parts came with the last of them. */
  ghost predicate Answered(parts: seq<Received>, answer: Outcome, limits: Limits) {
    Arrived(parts) && !answer.Pending? && FirstAnswer(Texts(parts), 0, limits) == (answer, |parts| - 1)
  }

  ghost predicate Unanswered(parts: seq<Received>, limits: Limits) {
    Open(parts) && FirstAnswer(Texts(parts), 0, limits).0.Pending?
  }

  /** Where a connection that is still open must be, by what its handler was given. */
  ghost predicate Told(c: Conn, rs: seq<Received>, limits: Limits) {
    match c.phase
    case Queued => rs == [] && c.received == ""
    case Receiving => rs != [] && Unanswered(rs[1..], limits) && c.received == Concat(Texts(rs[1..]))
    case Responding(request) =>
      rs != [] && Answered(rs[1..], Done(request), limits) && c.received == Concat(Texts(rs[1..]))
    case SendingFailure(error) =>
      rs != [] && Answered(rs[1..], Failed(error), limits) && c.received == Concat(Texts(rs[1..]))
    case Sending(request) =>
      |rs| >= 2 && Answered(rs[1..|rs| - 1], Done(request), limits) && c.received == Concat(Texts(rs[1..|rs| - 1]))
    case Finished => false
  }

  lemma {:induction false} FirstAnswerFrom(chunks: seq<string>, chunk: string, from: nat, limits: Limits)
    requires from <= |chunks| && FirstAnswer(chunks, from, limits).0.Pending?
    ensures Concat(chunks + [chunk]) == Concat(chunks) + chunk
    ensures var answer := OneShot(Concat(chunks) + chunk, limits);
            FirstAnswer(chunks + [chunk], from, limits)
            == if answer.Pending? then (Pending, |chunks| + 1) else (answer, |chunks|)
    decreases |chunks| - from
  {
    var all := chunks + [chunk];
    assert all[..|chunks|] == chunks && all[..|chunks| + 1] == all;
    if from < |chunks| {
      assert all[..from + 1] == chunks[..from + 1];
      FirstAnswerFrom(chunks, chunk, from + 1, limits);
    } else {
      assert HTTPChunking.Answer(all, from, limits) == OneShot(Concat(chunks) + chunk, limits);
    }
  }

  lemma OneMoreText(parts: seq<Received>, r: Received)
    requires IsPart(r)
    ensures Texts(parts + [r]) == Texts(parts) + [r.data]
  {
  }

  lemma PartIsOpen(parts: seq<Received>, r: Received)
    requires Open(parts) && IsPart(r)
    ensures Arrived(parts + [r]) && (!r.complete ==> Open(parts + [r]))
  {
    assert (parts + [r])[..|parts|] == parts;
  }

  /** What one more part makes of parts that had no answer yet. */
  lemma PartAnswers(parts: seq<Received>, r: Received, limits: Limits)
    requires Unanswered(parts, limits) && IsPart(r)
    ensures Concat(Texts(parts + [r])) == Concat(Texts(parts)) + r.data
    ensures var answer := OneShot(Concat(Texts(parts)) + r.data, limits);
            if answer.Pending? then !r.complete ==> Unanswered(parts + [r], limits)
            else Answered(parts + [r], answer, limits)
  {
    OneMoreText(parts, r);
    FirstAnswerFrom(Texts(parts), r.data, 0, limits);
    PartIsOpen(parts, r);
  }

  /** The phase an answer leads to. */
  function PhaseFor(answer: Outcome): Phase {
    match answer
    case Pending => Receiving
    case Done(request) => Responding(request)
    case Failed(error) => SendingFailure(error)
  }

  lemma AnswerTold(c: Conn, rs: seq<Received>, answer: Outcome, limits: Limits)
    requires rs != [] && c.received == Concat(Texts(rs[1..])) && c.phase == PhaseFor(answer)
    requires if answer.Pending? then Unanswered(rs[1..], limits) else Answered(rs[1..], answer, limits)
    ensures Told(c, rs, limits)
  {
  }

  lemma DigestIs(c: Conn, r: Received, limits: Limits)
    requires !Digest(c, r, limits).Finished?
    ensures IsPart(r)
    ensures var answer := OneShot(c.received + r.data, limits);
            Digest(c, r, limits) == PhaseFor(answer) && (answer.Pending? ==> !r.complete)
  {
  }

  /** One more part to a connection that is receiving. */
  lemma PartTold(c: Conn, rs: seq<Received>, r: Received, limits: Limits)
    requires c.phase.Receiving? && Told(c, rs, limits) && !Digest(c, r, limits).Finished?
    ensures r.Bytes?
    ensures Told(c.(phase := Digest(c, r, limits), received := c.received + r.data), rs + [r], limits)
  {
    DigestIs(c, r, limits);
    var answer := OneShot(c.received + r.data, limits);
    assert (rs + [r])[1..] == rs[1..] + [r];
    PartAnswers(rs[1..], r, limits);
    AnswerTold(c.(phase := Digest(c, r, limits), received := c.received + r.data), rs + [r], answer, limits);
  }

  lemma StretchTold(s: Sys, i: nat, rs: seq<Received>, r: Received, limits: Limits)
    requires i < |s.conns| && !s.conns[i].phase.Finished? && Told(s.conns[i], rs, limits)
    requires !HandlerStep(s, i, r, limits).conns[i].cancelled
    ensures Told(HandlerStep(s, i, r, limits).conns[i], rs + [r], limits)
  {
    var c := s.conns[i];
    match c.phase {
      case Queued =>
        assert ([] + [r])[1..] == [] && Texts([]) == [];
      case Receiving => PartTold(c, rs, r, limits);
      case Responding(_) => assert (rs + [r])[1..|rs|] == rs[1..];
      case _ =>
    }
  }

  // ------------------------------------------------------------- how a connection ends

  /** Why the handler of a served connection ended: the peer gave up, or an answer had been sent. */
  ghost predicate Ended(rs: seq<Received>, limits: Limits) {
    || (|rs| >= 2 && Unanswered(rs[1..|rs| - 1], limits) && EndsReception(rs[1..|rs| - 1], rs[|rs| - 1], limits))
    || (|rs| >= 2 && exists error :: Answered(rs[1..|rs| - 1], Failed(error), limits))
    || (|rs| >= 3 && exists request :: Answered(rs[1..|rs| - 2], Done(request), limits))
  }

  /** An error, an empty part, or the last part of a text that is not complete. */
  ghost predicate EndsReception(parts: seq<Received>, r: Received, limits: Limits) {
    !IsPart(r) || (r.complete && OneShot(Concat(Texts(parts)) + r.data, limits).Pending?)
  }

  /** A connection of a server that was not stopped: open and where its parts say, or refused at once, or ended. */
  ghost predicate Fate(c: Conn, rs: seq<Received>, limits: Limits) {
    if !c.cancelled then Told(c, rs, limits) else c.phase.Finished? && (rs == [] || Ended(rs, limits))
  }

  lemma EndOfReception(c: Conn, rs: seq<Received>, r: Received, limits: Limits)
    requires c.phase.Receiving? && Told(c, rs, limits) && Digest(c, r, limits).Finished?
    ensures Ended(rs + [r], limits)
  {
    assert (rs + [r])[1..|rs|] == rs[1..];
    assert EndsReception(rs[1..], r, limits);
  }

  lemma EndOfResponse(rs: seq<Received>, r: Received, request: Request, limits: Limits)
    requires |rs| >= 2 && Answered(rs[1..|rs| - 1], Done(request), limits)
    ensures Ended(rs + [r], limits)
  {
    var more := rs + [r];
    assert more[1..|more| - 2] == rs[1..|rs| - 1];
    assert Answered(more[1..|more| - 2], Done(request), limits);
  }

  lemma EndOfFailure(rs: seq<Received>, r: Received, error: ParseError, limits: Limits)
    requires rs != [] && Answered(rs[1..], Failed(error), limits)
    ensures Ended(rs + [r], limits)
  {
    var more := rs + [r];
    assert more[1..|more| - 1] == rs[1..];
    assert Answered(more[1..|more| - 1], Failed(error), limits);
  }

  lemma StretchFate(s: Sys, i: nat, rs: seq<Received>, r: Received, limits: Limits)
    requires i < |s.conns| && !s.conns[i].phase.Finished? && Fate(s.conns[i], rs, limits)
    requires IsServing(s, s.conns[i].gen) && !s.conns[i].taskCancelled
    ensures Fate(HandlerStep(s, i, r, limits).conns[i], rs + [r], limits)
  {
    var c := s.conns[i];
    if c.phase.Sending? {
      EndOfResponse(rs, r, c.phase.request, limits);
    } else if c.phase.SendingFailure? {
      EndOfFailure(rs, r, c.phase.error, limits);
    } else if c.phase.Receiving? && Digest(c, r, limits).Finished? {
      EndOfReception(c, rs, r, limits);
    } else {
      StretchTold(s, i, rs, r, limits);
    }
  }

  lemma OtherEventKeeps(s: Sys, e: Event, i: nat, limits: Limits)
    requires Inv(s, limits) && Enabled(s, e) && i < |s.conns| && !(e.HandlerRan? && e.conn == i)
    requires !Step(s, e, limits).lifecycle.Stopped?
    ensures i < |Step(s, e, limits).conns| && Step(s, e, limits).conns[i] == s.conns[i]
  {
  }

  lemma ConnectionsGrow(s: Sys, e: Event, limits: Limits)
    requires Inv(s, limits) && Enabled(s, e)
    ensures var t := Step(s, e, limits);
            && |s.conns| <= |t.conns| <= |s.conns| + 1
            && (|t.conns| > |s.conns| ==>
                  && !e.HandlerRan?
                  && var c := t.conns[|s.conns|];
                     (c.cancelled && c.phase.Finished?) || (!c.cancelled && c.phase.Queued? && c.received == ""))
            && (s.lifecycle.Stopped? ==> t.lifecycle.Stopped?)
  {
  }

  ghost predicate Fates(events: seq<Event>, s: Sys, limits: Limits) {
    && (forall i: nat :: |s.conns| <= i ==> Stretches(events, i) == [])
    && (!s.lifecycle.Stopped? ==> forall i: nat :: i < |s.conns| ==> Fate(s.conns[i], Stretches(events, i), limits))
  }

  lemma StretchesLater(events: seq<Event>, e: Event, i: nat)
    ensures Stretches(events + [e], i)
            == Stretches(events, i) + if e.HandlerRan? && e.conn == i then [e.received] else []
  {
    assert (events + [e])[..|events|] == events;
  }

  /** A handler that runs and does not find the server stopped is one the server still serves. */
  lemma RunningIsServed(s: Sys, e: Event, limits: Limits)
    requires Inv(s, limits) && Enabled(s, e) && e.HandlerRan? && !Step(s, e, limits).lifecycle.Stopped?
    requires !s.conns[e.conn].cancelled
    ensures IsServing(s, s.conns[e.conn].gen) && !s.conns[e.conn].taskCancelled
    ensures Step(s, e, limits) == HandlerStep(s, e.conn, e.received, limits)
  {
  }

  lemma RanFate(events: seq<Event>, s: Sys, e: Event, limits: Limits)
    requires Inv(s, limits) && Enabled(s, e) && e.HandlerRan? && !Step(s, e, limits).lifecycle.Stopped?
    requires e.conn < |s.conns| && Fate(s.conns[e.conn], Stretches(events, e.conn), limits)
    ensures e.conn < |Step(s, e, limits).conns|
    ensures Fate(Step(s, e, limits).conns[e.conn], Stretches(events + [e], e.conn), limits)
  {
    RunningIsServed(s, e, limits);
    StretchesLater(events, e, e.conn);
    StretchFate(s, e.conn, Stretches(events, e.conn), e.received, limits);
  }

  lemma OtherFate(events: seq<Event>, s: Sys, e: Event, limits: Limits, i: nat)
    requires Inv(s, limits) && Enabled(s, e) && !(e.HandlerRan? && e.conn == i)
    requires !Step(s, e, limits).lifecycle.Stopped?
    requires i < |s.conns| && Fate(s.conns[i], Stretches(events, i), limits)
    ensures i < |Step(s, e, limits).conns|
    ensures Fate(Step(s, e, limits).conns[i], Stretches(events + [e], i), limits)
  {
    OtherEventKeeps(s, e, i, limits);
    StretchesLater(events, e, i);
    assert Stretches(events, i) + [] == Stretches(events, i);
  }

  lemma RunningBefore(s: Sys, e: Event, limits: Limits)
    requires Inv(s, limits) && Enabled(s, e) && !Step(s, e, limits).lifecycle.Stopped?
    ensures !s.lifecycle.Stopped?
  {
  }

  /** A connection that has just arrived is queued or was refused, and was given nothing. */
  lemma NewFate(events: seq<Event>, s: Sys, e: Event, limits: Limits, i: nat)
    requires Inv(s, limits) && Enabled(s, e) && Stretches(events, i) == []
    requires |s.conns| <= i < |Step(s, e, limits).conns|
    ensures Fate(Step(s, e, limits).conns[i], Stretches(events + [e], i), limits)
  {
    ConnectionsGrow(s, e, limits);
    StretchesLater(events, e, i);
  }

  lemma OneFate(events: seq<Event>, s: Sys, e: Event, limits: Limits, i: nat)
    requires Inv(s, limits) && Enabled(s, e) && Fates(events, s, limits)
    requires !Step(s, e, limits).lifecycle.Stopped? && i < |Step(s, e, limits).conns|
    ensures Fate(Step(s, e, limits).conns[i], Stretches(events + [e], i), limits)
  {
    RunningBefore(s, e, limits);
    if i >= |s.conns| {
      NewFate(events, s, e, limits, i);
    } else if e.HandlerRan? && e.conn == i {
      RanFate(events, s, e, limits);
    } else {
      OtherFate(events, s, e, limits, i);
    }
  }

  lemma StepFates(events: seq<Event>, s: Sys, e: Event, limits: Limits)
    requires Inv(s, limits) && Enabled(s, e) && Fates(events, s, limits)
    ensures Fates(events + [e], Step(s, e, limits), limits)
  {
    var t := Step(s, e, limits);
    ConnectionsGrow(s, e, limits);
    forall i: nat | |t.conns| <= i ensures Stretches(events + [e], i) == [] { StretchesLater(events, e, i); }
    if !t.lifecycle.Stopped? {
      forall i: nat | i < |t.conns| ensures Fate(t.conns[i], Stretches(events + [e], i), limits) {
        OneFate(events, s, e, limits, i);
      }
    }
  }

  lemma {:induction false} LastEvent(s: Sys, events: seq<Event>, e: Event, limits: Limits)
    requires Legal(s, events + [e], limits)
    ensures Legal(s, events, limits) && KnownContinuations(After(s, events, limits)) && Enabled(After(s, events, limits), e)
    ensures After(s, events + [e], limits) == Step(After(s, events, limits), e, limits)
    decreases |events|
  {
    if events == [] {
      assert events + [e] == [e] && [e][1..] == [];
    } else {
      assert (events + [e])[1..] == events[1..] + [e];
      LastEvent(Step(s, events[0], limits), events[1..], e, limits);
    }
  }

  lemma {:induction false} RunFates(events: seq<Event>, limits: Limits)
    requires Legal(INITIAL, events, limits)
    ensures Inv(After(INITIAL, events, limits), limits) && Fates(events, After(INITIAL, events, limits), limits)
  {
    if events == [] {
      assert INITIAL.conns == [];
    } else {
      var init, e := events[..|events| - 1], events[|events| - 1];
      assert events == init + [e];
      LastEvent(INITIAL, init, e, limits);
      RunFates(init, limits);
      StepFates(init, After(INITIAL, init, limits), e, limits);
      StepKeepsInv(After(INITIAL, init, limits), e, limits);
    }
  }

  /** As long as the server is not stopped: each connection is where its parts say, or was refused, or ended as they say. */
  lemma ConnectionsMeetTheirFate(events: seq<Event>, limits: Limits, i: nat)
    requires Legal(INITIAL, events, limits)
    ensures var s := After(INITIAL, events, limits);
            !s.lifecycle.Stopped? && i < |s.conns| ==> Fate(s.conns[i], Stretches(events, i), limits)
  {
    RunFates(events, limits);
  }

  // --------------------------------------------------- an open connection, both ways

  lemma TextsOfPrefix(parts: seq<Received>, k: nat)
    requires k <= |parts|
    ensures Texts(parts[..k]) == Texts(parts)[..k]
  {
  }

  /** Parts that were answered early cannot be unanswered, or answered only by a later one. */
  lemma AnsweredOnce(parts: seq<Received>, k: nat, answer: Outcome, limits: Limits)
    requires k < |parts| && Answered(parts[..k], answer, limits)
    ensures !Unanswered(parts, limits) && forall other :: !Answered(parts, other, limits)
  {
    TextsOfPrefix(parts, k);
    var texts := Texts(parts);
    assert texts[..k][..k] == texts[..k];
    assert HTTPChunking.Answer(texts[..k], k - 1, limits) == HTTPChunking.Answer(texts, k - 1, limits);
  }

  lemma AnsweredIsNotUnanswered(parts: seq<Received>, answer: Outcome, limits: Limits)
    requires Answered(parts, answer, limits)
    ensures !Unanswered(parts, limits)
  {
  }

  lemma OneAnswer(parts: seq<Received>, answer: Outcome, other: Outcome, limits: Limits)
    requires Answered(parts, answer, limits) && Answered(parts, other, limits)
    ensures answer == other
  {
  }

  lemma SendingIff(c: Conn, rs: seq<Received>, limits: Limits, request: Request)
    requires Told(c, rs, limits)
    ensures c.phase == Sending(request) <==> |rs| >= 2 && Answered(rs[1..|rs| - 1], Done(request), limits)
  {
    if |rs| >= 2 && Answered(rs[1..|rs| - 1], Done(request), limits) {
      assert rs[1..|rs| - 1] == rs[1..][..|rs| - 2];
      AnsweredOnce(rs[1..], |rs| - 2, Done(request), limits);
      if c.phase.Sending? { OneAnswer(rs[1..|rs| - 1], Done(c.phase.request), Done(request), limits); }
    }
  }

  lemma ReceivedAllIff(c: Conn, rs: seq<Received>, limits: Limits, answer: Outcome)
    requires Told(c, rs, limits) && !answer.Pending?
    ensures (c.phase.Responding? && answer == Done(c.phase.request))
            || (c.phase.SendingFailure? && answer == Failed(c.phase.error))
            <==> rs != [] && Answered(rs[1..], answer, limits)
    ensures c.phase.Receiving? <==> rs != [] && Unanswered(rs[1..], limits)
  {
    if c.phase.Sending? {
      assert rs[1..|rs| - 1] == rs[1..][..|rs| - 2];
      AnsweredOnce(rs[1..], |rs| - 2, Done(c.phase.request), limits);
    } else if rs != [] && Answered(rs[1..], answer, limits) {
      AnsweredIsNotUnanswered(rs[1..], answer, limits);
    }
  }

  lemma PhasesIff(c: Conn, rs: seq<Received>, limits: Limits, request: Request, error: ParseError)
    requires Told(c, rs, limits)
    ensures var phase := c.phase;
            && (phase.Queued? <==> rs == [])
            && (phase.Receiving? <==> rs != [] && Unanswered(rs[1..], limits))
            && (phase == Responding(request) <==> rs != [] && Answered(rs[1..], Done(request), limits))
            && (phase == SendingFailure(error) <==> rs != [] && Answered(rs[1..], Failed(error), limits))
            && (phase == Sending(request) <==> |rs| >= 2 && Answered(rs[1..|rs| - 1], Done(request), limits))
  {
    SendingIff(c, rs, limits, request);
    ReceivedAllIff(c, rs, limits, Done(request));
    ReceivedAllIff(c, rs, limits, Failed(error));
  }

  lemma OpenIsTold(events: seq<Event>, limits: Limits, i: nat)
    requires Legal(INITIAL, events, limits)
    requires i < |After(INITIAL, events, limits).conns| && !After(INITIAL, events, limits).conns[i].cancelled
    ensures Told(After(INITIAL, events, limits).conns[i], Stretches(events, i), limits)
  {
    RunFates(events, limits);
    var s := After(INITIAL, events, limits);
    assert !s.lifecycle.Stopped?;
    assert Fate(s.conns[i], Stretches(events, i), limits);
  }

  /**
   An open connection is receiving exactly while its parts have no answer, hands a request to the router
   exactly when they were just answered with it, sends the response exactly one stretch later, and sends a
   failure exactly when they were answered with that error.
   */
  lemma OpenConnectionIff(events: seq<Event>, limits: Limits, i: nat, request: Request, error: ParseError)
    requires Legal(INITIAL, events, limits)
    requires i < |After(INITIAL, events, limits).conns| && !After(INITIAL, events, limits).conns[i].cancelled
    ensures var phase, rs := After(INITIAL, events, limits).conns[i].phase, Stretches(events, i);
            && (phase.Queued? <==> rs == [])
            && (phase.Receiving? <==> rs != [] && Unanswered(rs[1..], limits))
            && (phase == Responding(request) <==> rs != [] && Answered(rs[1..], Done(request), limits))
            && (phase == SendingFailure(error) <==> rs != [] && Answered(rs[1..], Failed(error), limits))
            && (phase == Sending(request) <==> |rs| >= 2 && Answered(rs[1..|rs| - 1], Done(request), limits))
  {
    OpenIsTold(events, limits, i);
    var c, rs := After(INITIAL, events, limits).conns[i], Stretches(events, i);
    PhasesIff(c, rs, limits, request, error);
  }

  // ------------------------------------------------------------ a request is answered

  function Deliveries(i: nat, chunks: seq<string>): seq<Event> {
    seq(|chunks|, k requires 0 <= k < |chunks| => HandlerRan(i, Bytes(chunks[k], false)))
  }

  /** The server serves this connection, and its handler has received so much. */
  ghost predicate Serves(s: Sys, i: nat, g: nat, phase: Phase, received: string) {
    && KnownContinuations(s) && i < |s.conns| && s.lifecycle == Ready(g) && g == s.generation
    && s.conns[i] == Conn(g, phase, received, false, false)
  }

  lemma DeliveryMoves(s: Sys, i: nat, g: nat, received: string, chunk: string, limits: Limits)
    requires Serves(s, i, g, Receiving, received) && chunk != ""
    ensures var t := Step(s, HandlerRan(i, Bytes(chunk, false)), limits);
            match OneShot(received + chunk, limits)
            case Pending => Serves(t, i, g, Receiving, received + chunk)
            case Done(request) => Serves(t, i, g, Responding(request), received + chunk)
            case Failed(error) => Serves(t, i, g, SendingFailure(error), received + chunk)
  {
    assert Digest(s.conns[i], Bytes(chunk, false), limits) == PhaseFor(OneShot(received + chunk, limits));
  }

  lemma {:induction false} ConcatFirst(chunk: string, chunks: seq<string>)
    ensures Concat([chunk] + chunks) == chunk + Concat(chunks)
    decreases |chunks|
  {
    var all := [chunk] + chunks;
    if chunks == [] {
      assert all[..0] == [] && all == [chunk];
    } else {
      var n := |chunks| - 1;
      assert all[..|all| - 1] == [chunk] + chunks[..n] && all[|all| - 1] == chunks[n];
      ConcatFirst(chunk, chunks[..n]);
    }
  }

  lemma PendingBefore(p: string, w: string, request: Request, limits: Limits)
    requires p <= w && p != w && OneShot(w, limits) == Done(request)
    ensures OneShot(p, limits) == Pending
  {
    PrefixOutcome(p, w, limits);
  }

  /** The first chunk of a text and the rest of it. */
  lemma FirstChunk(received: string, chunks: seq<string>)
    requires chunks != [] && NonEmpty(chunks)
    ensures NonEmpty(chunks[1..]) && chunks[0] != ""
    ensures received + Concat(chunks) == (received + chunks[0]) + Concat(chunks[1..])
    ensures chunks[1..] == [] <==> Concat(chunks[1..]) == ""
  {
    var rest := chunks[1..];
    assert chunks == [chunks[0]] + rest;
    ConcatFirst(chunks[0], rest);
    assert forall k :: 0 <= k < |rest| ==> rest[k] == chunks[k + 1];
    Prefixes(rest, 0);
    assert rest[..0] == [];
  }

  lemma {:induction false} OneDelivery(s: Sys, i: nat, chunks: seq<string>, limits: Limits)
    requires chunks != [] && KnownContinuations(s) && Enabled(s, HandlerRan(i, Bytes(chunks[0], false)))
    requires Legal(Step(s, HandlerRan(i, Bytes(chunks[0], false)), limits), Deliveries(i, chunks[1..]), limits)
    ensures Legal(s, Deliveries(i, chunks), limits)
    ensures After(s, Deliveries(i, chunks), limits)
            == After(Step(s, HandlerRan(i, Bytes(chunks[0], false)), limits), Deliveries(i, chunks[1..]), limits)
  {
    assert Deliveries(i, chunks)[1..] == Deliveries(i, chunks[1..]);
  }

  /** The rest of a request arrives, in any non-empty parts. */
  lemma {:induction false} RestArrives(s: Sys, i: nat, g: nat, received: string, chunks: seq<string>, w: string,
                                       request: Request, limits: Limits)
    requires Serves(s, i, g, Receiving, received) && chunks != [] && NonEmpty(chunks)
    requires w == received + Concat(chunks) && OneShot(w, limits) == Done(request)
    ensures Legal(s, Deliveries(i, chunks), limits)
    ensures Serves(After(s, Deliveries(i, chunks), limits), i, g, Responding(request), w)
    decreases |chunks|
  {
    FirstChunk(received, chunks);
    var next := Step(s, HandlerRan(i, Bytes(chunks[0], false)), limits);
    DeliveryMoves(s, i, g, received, chunks[0], limits);
    if chunks[1..] == [] {
      assert received + chunks[0] == w;
      assert Legal(next, Deliveries(i, []), limits);
    } else {
      PendingBefore(received + chunks[0], w, request, limits);
      RestArrives(next, i, g, received + chunks[0], chunks[1..], w, request, limits);
    }
    OneDelivery(s, i, chunks, limits);
  }

  lemma {:induction false} Continued(s: Sys, events: seq<Event>, more: seq<Event>, limits: Limits)
    requires Legal(s, events, limits) && Legal(After(s, events, limits), more, limits)
    ensures Legal(s, events + more, limits)
    ensures After(s, events + more, limits) == After(After(s, events, limits), more, limits)
    decreases |events|
  {
    if events == [] {
      assert events + more == more;
    } else {
      assert (events + more)[1..] == events[1..] + more;
      Continued(Step(s, events[0], limits), events[1..], more, limits);
    }
  }

  lemma OneEvent(s: Sys, e: Event, limits: Limits)
    requires KnownContinuations(s) && Enabled(s, e)
    ensures Legal(s, [e], limits) && After(s, [e], limits) == Step(s, e, limits)
  {
    assert [e][0] == e && [e][1..] == [];
    assert Legal(Step(s, e, limits), [], limits);
  }

  lemma AcceptedAndWoken(s: Sys, g: nat, wake: Received, limits: Limits)
    requires KnownContinuations(s) && IsServing(s, g)
    ensures Legal(s, [NewConnection(g), HandlerRan(|s.conns|, wake)], limits)
    ensures Serves(After(s, [NewConnection(g), HandlerRan(|s.conns|, wake)], limits), |s.conns|, g, Receiving, "")
  {
    var i := |s.conns|;
    var events := [NewConnection(g), HandlerRan(i, wake)];
    var s1 := Step(s, NewConnection(g), limits);
    assert Serves(s1, i, g, Queued, "");
    OneEvent(s1, HandlerRan(i, wake), limits);
    assert events[0] == NewConnection(g) && events[1..] == [HandlerRan(i, wake)];
  }

  lemma ResponseGoesOut(s: Sys, i: nat, g: nat, request: Request, received: string, wake: Received, limits: Limits)
    requires Serves(s, i, g, Responding(request), received)
    ensures Legal(s, [HandlerRan(i, wake)], limits)
    ensures Serves(After(s, [HandlerRan(i, wake)], limits), i, g, Sending(request), received)
  {
    OneEvent(s, HandlerRan(i, wake), limits);
  }

  /** A connection, its request in these parts, and the router's answer. */
  function Exchange(i: nat, g: nat, chunks: seq<string>, wake: Received): seq<Event> {
    [NewConnection(g), HandlerRan(i, wake)] + (Deliveries(i, chunks) + [HandlerRan(i, wake)])
  }

  /**
   While the server serves, a new connection that delivers any text of the request grammar, cut into any
   non-empty parts, is sent the response to exactly that request.
   */
  lemma EveryRequestIsAnswered(events: seq<Event>, limits: Limits, g: nat, w: string, request: Request,
                               chunks: seq<string>, wake: Received)
    requires Legal(INITIAL, events, limits) && IsServing(After(INITIAL, events, limits), g)
    requires HTTPGrammar.IsRequest(w, request, limits) && NonEmpty(chunks) && Concat(chunks) == w
    ensures var s := After(INITIAL, events, limits);
            var i := |s.conns|;
            && Legal(s, Exchange(i, g, chunks, wake), limits)
            && i < |After(s, Exchange(i, g, chunks, wake), limits).conns|
            && After(s, Exchange(i, g, chunks, wake), limits).conns[i].phase == Sending(request)
  {
    var s := After(INITIAL, events, limits);
    RunKeepsInv(INITIAL, events, limits);
    HTTPGrammar.AcceptedIff(w, request, limits);
    EmptyWireIsPending(limits);
    assert chunks != [];
    ExchangeRuns(s, g, chunks, request, wake, limits);
  }

  lemma ExchangeRuns(s: Sys, g: nat, chunks: seq<string>, request: Request, wake: Received, limits: Limits)
    requires KnownContinuations(s) && IsServing(s, g) && chunks != [] && NonEmpty(chunks)
    requires OneShot(Concat(chunks), limits) == Done(request)
    ensures Legal(s, Exchange(|s.conns|, g, chunks, wake), limits)
    ensures var t := After(s, Exchange(|s.conns|, g, chunks, wake), limits);
            |s.conns| < |t.conns| && t.conns[|s.conns|].phase == Sending(request)
  {
    var i := |s.conns|;
    var begin := [NewConnection(g), HandlerRan(i, wake)];
    AcceptedAndWoken(s, g, wake, limits);
    var s1 := After(s, begin, limits);
    assert "" + Concat(chunks) == Concat(chunks);
    RestArrives(s1, i, g, "", chunks, Concat(chunks), request, limits);
    var s2 := After(s1, Deliveries(i, chunks), limits);
    ResponseGoesOut(s2, i, g, request, Concat(chunks), wake, limits);
    Continued(s1, Deliveries(i, chunks), [HandlerRan(i, wake)], limits);
    Continued(s, begin, Deliveries(i, chunks) + [HandlerRan(i, wake)], limits);
  }

  // ------------------------------------------------------------------ the start callers

  /** The listener failed or was cancelled, or the server was stopped. */
  ghost predicate Ceased(events: seq<Event>) {
    StopCalled in events || ListenerUpdate(ListenerFailed, 1) in events || ListenerUpdate(ListenerCancelled, 1) in events
  }

  /** What must have happened for the lifecycle to be where it is. */
  ghost predicate LifecycleTold(events: seq<Event>, s: Sys) {
    && (s.lifecycle.Idle? <==> StartCalled !in events && StopCalled !in events)
    && (s.lifecycle.Starting? || s.lifecycle.Ready? ==> StartCalled in events)
    && (s.lifecycle.Ready? ==> ListenerUpdate(ListenerReady, 1) in events)
    && (s.lifecycle.Stopped? ==> Ceased(events))
    && (StopCalled in events ==> s.lifecycle.Stopped?)
  }

  /** And for a start caller to have its answer. */
  ghost predicate AnswersTold(events: seq<Event>, s: Sys) {
    && (forall k :: 0 <= k < |s.callers| && s.callers[k].state.Returned? ==> ListenerUpdate(ListenerReady, 1) in events)
    && (forall k :: 0 <= k < |s.callers| && s.callers[k].state.Threw? ==>
          Ceased(events) || ListenerUpdate(ListenerReady, 1) in events)
  }

  ghost predicate CallersTold(events: seq<Event>, s: Sys) {
    LifecycleTold(events, s) && AnswersTold(events, s)
  }

  lemma LifecycleStep(events: seq<Event>, s: Sys, e: Event, limits: Limits)
    requires Inv(s, limits) && Enabled(s, e) && LifecycleTold(events, s)
    ensures LifecycleTold(events + [e], Step(s, e, limits))
  {
    assert forall f :: f in events + [e] <==> f in events || f == e;
  }

  /** What one event answers, and to whom. */
  lemma OneEventAnswers(s: Sys, e: Event, limits: Limits, k: nat)
    requires Inv(s, limits) && Enabled(s, e) && k < |Step(s, e, limits).callers|
    ensures var state := Step(s, e, limits).callers[k].state;
            && (state.Returned? ==>
                  (k < |s.callers| && s.callers[k].state.Returned?) || s.lifecycle.Ready?
                  || e == ListenerUpdate(ListenerReady, 1))
            && (state.Threw? ==>
                  (k < |s.callers| && s.callers[k].state.Threw?) || s.lifecycle.Stopped? || s.lifecycle.Ready?
                  || Ceased([e]))
  {
    ResumedOnce(s.callers, s.continuations, true);
    ResumedOnce(s.callers, s.continuations, false);
  }

  lemma AnswersStep(events: seq<Event>, s: Sys, e: Event, limits: Limits)
    requires Inv(s, limits) && Enabled(s, e) && LifecycleTold(events, s) && AnswersTold(events, s)
    ensures AnswersTold(events + [e], Step(s, e, limits))
  {
    assert forall f :: f in events + [e] <==> f in events || f == e;
    forall k: nat | k < |Step(s, e, limits).callers|
      ensures var state := Step(s, e, limits).callers[k].state;
              && (state.Returned? ==> ListenerUpdate(ListenerReady, 1) in events + [e])
              && (state.Threw? ==> Ceased(events + [e]) || ListenerUpdate(ListenerReady, 1) in events + [e])
    {
      OneEventAnswers(s, e, limits, k);
    }
  }

  lemma CallersStep(events: seq<Event>, s: Sys, e: Event, limits: Limits)
    requires Inv(s, limits) && Enabled(s, e) && CallersTold(events, s)
    ensures CallersTold(events + [e], Step(s, e, limits))
  {
    LifecycleStep(events, s, e, limits);
    AnswersStep(events, s, e, limits);
  }

  lemma {:induction false} CallersAreTold(events: seq<Event>, limits: Limits)
    requires Legal(INITIAL, events, limits)
    ensures Inv(After(INITIAL, events, limits), limits) && CallersTold(events, After(INITIAL, events, limits))
  {
    if events != [] {
      var init, e := events[..|events| - 1], events[|events| - 1];
      assert events == init + [e];
      LastEvent(INITIAL, init, e, limits);
      CallersAreTold(init, limits);
      CallersStep(init, After(INITIAL, init, limits), e, limits);
      StepKeepsInv(After(INITIAL, init, limits), e, limits);
    }
  }

  // ---------------------------------------------------------------------- the lifecycle

  /** A state of the listener that was reported after the server had been started. */
  ghost predicate Reported(events: seq<Event>, state: ListenerState) {
    exists k :: 0 <= k < |events| && events[k] == ListenerUpdate(state, 1) && StartCalled in events[..k]
  }

  ghost predicate Over(events: seq<Event>) {
    StopCalled in events || Reported(events, ListenerFailed) || Reported(events, ListenerCancelled)
  }

  ghost predicate Decided(events: seq<Event>, lifecycle: Lifecycle) {
    && (lifecycle.Idle? <==> StartCalled !in events && StopCalled !in events)
    && (lifecycle.Stopped? <==> Over(events))
    && (lifecycle == Ready(1) <==> !Over(events) && Reported(events, ListenerReady))
  }

  lemma ReportedLater(events: seq<Event>, e: Event, state: ListenerState)
    ensures Reported(events + [e], state) <==>
            Reported(events, state) || (e == ListenerUpdate(state, 1) && StartCalled in events)
  {
    var more := events + [e];
    assert more[..|events|] == events;
    forall k | 0 <= k < |events| ensures more[..k] == events[..k] {}
    if Reported(events, state) {
      var k :| 0 <= k < |events| && events[k] == ListenerUpdate(state, 1) && StartCalled in events[..k];
      assert more[k] == ListenerUpdate(state, 1) && StartCalled in more[..k];
    }
    if e == ListenerUpdate(state, 1) && StartCalled in events {
      assert more[|events|] == e && StartCalled in more[..|events|];
    }
  }

  lemma StepDecides(events: seq<Event>, s: Sys, e: Event, limits: Limits)
    requires Inv(s, limits) && Enabled(s, e) && Decided(events, s.lifecycle)
    ensures Decided(events + [e], Step(s, e, limits).lifecycle)
  {
    ReportedLater(events, e, ListenerReady);
    ReportedLater(events, e, ListenerFailed);
    ReportedLater(events, e, ListenerCancelled);
    assert forall f :: f in events + [e] <==> f in events || f == e;
  }

  /**
   The server is stopped exactly when it was told to, or its listener failed or was cancelled, at whatever point
   after the start; it is ready exactly when that did not happen and the listener became ready.
   */
  lemma {:induction false} LifecycleIff(events: seq<Event>, limits: Limits)
    requires Legal(INITIAL, events, limits)
    ensures Inv(After(INITIAL, events, limits), limits) && Decided(events, After(INITIAL, events, limits).lifecycle)
  {
    if events != [] {
      var init, e := events[..|events| - 1], events[|events| - 1];
      assert events == init + [e];
      LastEvent(INITIAL, init, e, limits);
      LifecycleIff(init, limits);
      StepDecides(init, After(INITIAL, init, limits), e, limits);
      StepKeepsInv(After(INITIAL, init, limits), e, limits);
    }
  }

  /** The listener becoming ready lets every suspended start caller return; a stop makes every one of them throw. */
  lemma SuspendedCallersAreAnswered(s: Sys, limits: Limits, k: nat)
    requires Inv(s, limits) && k < |s.callers| && s.callers[k].state.Suspended?
    ensures Step(s, ListenerUpdate(ListenerReady, s.generation), limits).callers[k].state == Returned
    ensures Step(s, ListenerUpdate(ListenerReady, s.generation), limits).lifecycle == Ready(s.generation)
    ensures Step(s, StopCalled, limits).callers[k].state == Threw
    ensures Step(s, ListenerUpdate(ListenerFailed, s.generation), limits).callers[k].state == Threw
  {
    ResumedOnce(s.callers, s.continuations, true);
    ResumedOnce(s.callers, s.continuations, false);
  }

  lemma {:induction false} OneMoreEvent(s: Sys, events: seq<Event>, e: Event, limits: Limits)
    requires Legal(s, events, limits) && KnownContinuations(After(s, events, limits)) && Enabled(After(s, events, limits), e)
    ensures Legal(s, events + [e], limits) && After(s, events + [e], limits) == Step(After(s, events, limits), e, limits)
    decreases |events|
  {
    OneEvent(After(s, events, limits), e, limits);
    Continued(s, events, [e], limits);
  }

  /** The first start caller waits for the listener it started. */
  lemma StartIsSuspended(limits: Limits)
    ensures Legal(INITIAL, [StartCalled, ContinuationReady(0)], limits)
    ensures After(INITIAL, [StartCalled, ContinuationReady(0)], limits)
            == Sys(Starting(1), 1, [Caller(Suspended, 0)], [0], [], {}, {}, 1)
  {
    var s := INITIAL.(lifecycle := Starting(1), generation := 1, callers := [Caller(Entering(1, true), 0)]);
    assert Step(INITIAL, StartCalled, limits) == s;
    OneEvent(INITIAL, StartCalled, limits);
    assert ContinuationBody(s, 0) == Sys(Starting(1), 1, [Caller(Suspended, 0)], [0], [], {}, {}, 1);
    OneMoreEvent(INITIAL, [StartCalled], ContinuationReady(0), limits);
    assert [StartCalled] + [ContinuationReady(0)] == [StartCalled, ContinuationReady(0)];
  }

  /** A first start that nothing disturbs starts the listener, returns when it is ready, and the server serves. */
  lemma UndisturbedStart(limits: Limits)
    ensures var events := [StartCalled, ContinuationReady(0)] + [ListenerUpdate(ListenerReady, 1)];
            && Legal(INITIAL, events, limits)
            && var s := After(INITIAL, events, limits);
               IsServing(s, 1) && s.callers == [Caller(Returned, 1)] && s.listenerStarts == 1
  {
    StartIsSuspended(limits);
    OneMoreEvent(INITIAL, [StartCalled, ContinuationReady(0)], ListenerUpdate(ListenerReady, 1), limits);
    ResumedOnce([Caller(Suspended, 0)], [0], true);
  }
}
