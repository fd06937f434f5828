/**
 The incremental HTTP/1.1 request parser: a strict subset of RFC 9112 (request line
 of section 3, field lines of section 5, Content-Length of section 6.2).

 The wire is a string whose characters stand for bytes; header text is treated as
 ASCII, and whether the head decodes as UTF-8 is an arbitrary predicate of it.
 */
module HTTPRequestParser {
  import opened Prelude
  import opened HTTPText

  const DELIMITER := "\r\n\r\n"
  const CRLF := "\r\n"
  const MAXIMUM_HEADER_BYTES := 32 * 1024
  const MAXIMUM_BODY_BYTES := 1024 * 1024

  datatype Method = GET | HEAD | POST | DELETE

  datatype ParseError =
    | HeaderTooLarge | BodyTooLarge | MalformedRequest | UnsupportedMethod
    | UnsupportedTransferEncoding | InvalidPath | TrailingBytes

  datatype Head = Head(verb: Method, path: string, headers: map<string, string>, length: nat)
  datatype Request = Request(verb: Method, path: string, headers: map<string, string>, body: string)
  datatype Result<T> = Ok(value: T) | Error(error: ParseError)

  /** What one `append` answers: nil, a request, or a thrown error. */
  datatype Outcome = Pending | Done(request: Request) | Failed(error: ParseError)

  datatype Limits = Limits(header: nat, body: nat, utf8: string -> bool)

  // ------------------------------------------------------------------ the head

  function MethodNamed(name: string): Option<Method> {
    if name == "GET" then Some(GET)
    else if name == "HEAD" then Some(HEAD)
    else if name == "POST" then Some(POST)
    else if name == "DELETE" then Some(DELETE)
    else None
  }

  predicate ValidPath(path: string) {
    && "/" <= path && !("//" <= path) && path != "/" && path[|path| - 1] != '/'
    && '?' !in path && '#' !in path
    && "" !in SplitBy(path[1..], "/")
  }

  predicate ValidHeaderName(name: string) {
    name != "" && forall i :: 0 <= i < |name| ==> name[i] < 128 as char
  }

  /** A field line as its lower-case name and trimmed value. */
  function ParseLine(line: string): Option<(string, string)> {
    if line == "" || line[0] == ' ' || line[0] == '\t' then None
    else if Count(line, ':') != 1 || IndexOf(line, ":").None? then None
    else
      var colon := IndexOf(line, ":").value;
      if !ValidHeaderName(line[..colon]) then None
      else Some((Lower(line[..colon]), Trim(line[colon + 1..])))
  }

  /** The header dictionary of the remaining lines; None when any line is malformed or Content-Length repeats. */
  function ParseHeaders(lines: seq<string>, headers: map<string, string>, hasLength: bool): Option<map<string, string>>
    decreases |lines|
  {
    if lines == [] then Some(headers)
    else
      var field := ParseLine(lines[0]);
      if field.None? then None
      else
        var (name, value) := field.value;
        if name == "content-length" && hasLength then None
        else ParseHeaders(lines[1..], headers[name := value], hasLength || name == "content-length")
  }

  function ContentLength(headers: map<string, string>, required: bool): Option<nat> {
    if "content-length" !in headers then
      if required then None else Some(0)
    else
      var value := headers["content-length"];
      if value == "" || !AllDigits(value) || DecimalValue(value) >= INT64_LIMIT then None
      else Some(DecimalValue(value))
  }

  /** The head of a request with this verb and path and these headers. */
  function ReadFields(verb: Method, path: string, headers: Option<map<string, string>>, limits: Limits): Result<Head> {
    if headers.None? then Error(MalformedRequest)
    else if "transfer-encoding" in headers.value then Error(UnsupportedTransferEncoding)
    else
      var length := ContentLength(headers.value, verb == POST);
      if length.None? then Error(MalformedRequest)
      else if length.value > limits.body then Error(BodyTooLarge)
      else if verb != POST && length.value != 0 then Error(MalformedRequest)
      else Ok(Head(verb, path, headers.value, length.value))
  }

  /** The head with these three words in its request line and these lines after it. */
  function ReadWords(verb: string, path: string, version: string, lines: seq<string>, limits: Limits): Result<Head> {
    if version != "HTTP/1.1" then Error(MalformedRequest)
    else if MethodNamed(verb).None? then Error(UnsupportedMethod)
    else if !ValidPath(path) then Error(InvalidPath)
    else ReadFields(MethodNamed(verb).value, path, ParseHeaders(lines, map[], false), limits)
  }

  function ParseHead(head: string, limits: Limits): Result<Head> {
    if !limits.utf8(head) then Error(MalformedRequest)
    else
      var lines := SplitBy(head, CRLF);
      var tokens := SplitBy(lines[0], " ");
      if |tokens| != 3 then Error(MalformedRequest)
      else ReadWords(tokens[0], tokens[1], tokens[2], lines[1..], limits)
  }

  /** Where the head of a wire stands: not complete, rejected, or parsed with the body starting at `start`. */
  datatype Stage = Incomplete | Rejected(error: ParseError) | Parsed(head: Head, start: nat)

  function HeadStage(wire: string, limits: Limits): (stage: Stage)
    ensures stage.Parsed? ==> stage.start <= |wire|
  {
    var i := IndexOf(wire, DELIMITER);
    if i.None? then if |wire| > limits.header then Rejected(HeaderTooLarge) else Incomplete
    else if i.value + 4 > limits.header then Rejected(HeaderTooLarge)
    else
      var parsed := ParseHead(wire[..i.value], limits);
      if parsed.Ok? then Parsed(parsed.value, i.value + 4) else Rejected(parsed.error)
  }

  /** One-shot parsing of a whole wire. */
  function OneShot(wire: string, limits: Limits): Outcome {
    match HeadStage(wire, limits)
    case Incomplete => Pending
    case Rejected(error) => Failed(error)
    case Parsed(head, start) =>
      if |wire| < start + head.length then Pending
      else if |wire| > start + head.length then Failed(TrailingBytes)
      else Done(Request(head.verb, head.path, head.headers, wire[start..]))
  }

  // ------------------------------------------------------------- the mutable parser

  class Parser {
    const limits: Limits
    var buffer: string
    var parsedHead: Option<Head>

    /** A cached head is the head of what has been received. */
    ghost predicate Cached()
      reads this
    {
      parsedHead.Some? ==> HeadStage(buffer, limits).Parsed? && HeadStage(buffer, limits).head == parsedHead.value
    }

    constructor (limits: Limits)
      ensures buffer == "" && parsedHead == None && this.limits == limits && Cached()
    {
      this.limits, buffer, parsedHead := limits, "", None;
    }

    /**
     Appends a chunk: the answer is that of parsing everything received so far at once.
     */
    method Append(bytes: string) returns (outcome: Outcome)
      requires Cached()
      modifies this
      ensures buffer == old(buffer) + bytes && Cached()
      ensures outcome == OneShot(buffer, limits)
    {
      buffer := buffer + bytes;
      if parsedHead.None? {
        var rejected := ParseHeadIfComplete();
        if rejected.Some? { return Failed(rejected.value); }
      } else {
        StageStable(old(buffer), buffer, limits);
      }
      if parsedHead.None? { return Pending; }
      var head := parsedHead.value;
      var delimiter := IndexOf(buffer, DELIMITER);
      if delimiter.None? { return Failed(MalformedRequest); }
      var bodyStart := delimiter.value + |DELIMITER|;
      if |buffer| < bodyStart + head.length { return Pending; }
      if |buffer| != bodyStart + head.length { return Failed(TrailingBytes); }
      outcome := Done(Request(head.verb, head.path, head.headers, buffer[bodyStart..]));
    }

    /** Parses the head once its delimiter has arrived; the error it throws, if any. */
    method ParseHeadIfComplete() returns (rejected: Option<ParseError>)
      requires parsedHead.None?
      modifies this`parsedHead
      ensures Cached()
      ensures match HeadStage(buffer, limits)
              case Incomplete => rejected.None? && parsedHead.None?
              case Rejected(error) => rejected == Some(error) && parsedHead.None?
              case Parsed(head, _) => rejected.None? && parsedHead == Some(head)
    {
      var delimiter := IndexOf(buffer, DELIMITER);
      if delimiter.None? {
        return if |buffer| > limits.header then Some(HeaderTooLarge) else None;
      }
      if delimiter.value + 4 > limits.header { return Some(HeaderTooLarge); }
      var headText := buffer[..delimiter.value];
      if !limits.utf8(headText) { return Some(MalformedRequest); }
      var lines := SplitBy(headText, CRLF);
      var tokens := SplitBy(lines[0], " ");
      if |tokens| != 3 || tokens[2] != "HTTP/1.1" { return Some(MalformedRequest); }
      var verb := MethodNamed(tokens[0]);
      if verb.None? { return Some(UnsupportedMethod); }
      var path := tokens[1];
      if !ValidPath(path) { return Some(InvalidPath); }

      var headers, hasContentLength := map[], false;
      var i := 1;
      while i < |lines|
        invariant 1 <= i <= |lines|
        invariant ParseHeaders(lines[i..], headers, hasContentLength) == ParseHeaders(lines[1..], map[], false)
      {
        var field := ParseLine(lines[i]);
        assert lines[i..][1..] == lines[i + 1..];
        if field.None? { return Some(MalformedRequest); }
        if field.value.0 == "content-length" {
          if hasContentLength { return Some(MalformedRequest); }
          hasContentLength := true;
        }
        headers := headers[field.value.0 := field.value.1];
        i := i + 1;
      }
      if "transfer-encoding" in headers { return Some(UnsupportedTransferEncoding); }
      var length := ContentLength(headers, verb.value == POST);
      if length.None? { return Some(MalformedRequest); }
      if length.value > limits.body { return Some(BodyTooLarge); }
      if verb.value != POST && length.value != 0 { return Some(MalformedRequest); }
      parsedHead := Some(Head(verb.value, path, headers, length.value));
      return None;
    }
  }

  // --------------------------------------------------------- prefixes of a wire

  /** Once the head is parsed or rejected, more bytes do not change that. */
  lemma StageStable(p: string, w: string, limits: Limits)
    requires p <= w && !HeadStage(p, limits).Incomplete?
    ensures HeadStage(w, limits) == HeadStage(p, limits)
  {
    if IndexOf(p, DELIMITER).Some? {
      IndexStable(p, w, DELIMITER);
      var k := IndexOf(p, DELIMITER).value;
      assert p[..k] == w[..k];
    } else if IndexOf(w, DELIMITER).Some? {
      IndexBeyond(p, w, DELIMITER);
    }
  }

  /** Where the first request of a wire ends, once its head is parsed. */
  function RequestEnd(wire: string, limits: Limits): nat
    requires HeadStage(wire, limits).Parsed?
  {
    HeadStage(wire, limits).start + HeadStage(wire, limits).head.length
  }

  /** What a prefix of a wire can answer, given what the whole wire answers. */
  lemma PrefixOutcome(p: string, w: string, limits: Limits)
    requires p <= w
    ensures var a, b := OneShot(p, limits), OneShot(w, limits);
            && (b.Pending? ==> a.Pending?)
            && (b.Done? ==> a == (if p == w then b else Pending))
            && (b.Failed? && b.error != TrailingBytes ==> a == Pending || a == b)
            && (b == Failed(TrailingBytes) ==>
                  && HeadStage(w, limits).Parsed?
                  && (a.Done? <==> |p| == RequestEnd(w, limits))
                  && (a == b <==> |p| > RequestEnd(w, limits))
                  && (a.Pending? <==> |p| < RequestEnd(w, limits)))
  {
    if HeadStage(p, limits).Incomplete? {
      if HeadStage(w, limits).Parsed? {
        var k := HeadStage(w, limits).start;
        if IndexOf(p, DELIMITER).None? { IndexBeyond(p, w, DELIMITER); }
        assert |p| < k;
      }
    } else {
      StageStable(p, w, limits);
      if p != w { assert |p| < |w|; }
    }
  }
}
