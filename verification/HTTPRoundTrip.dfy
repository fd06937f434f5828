/** Printing a request and parsing it again is the identity. */
module HTTPRoundTrip {
  import opened Prelude
  import opened HTTPText
  import opened HTTPRequestParser
  import HTTPChunking

  datatype Field = Field(name: string, value: string)

  function VerbName(verb: Method): string {
    match verb case GET => "GET" case HEAD => "HEAD" case POST => "POST" case DELETE => "DELETE"
  }

  function RequestLine(verb: Method, path: string): string {
    VerbName(verb) + " " + path + " " + "HTTP/1.1"
  }

  function FieldLine(f: Field): string { f.name + ": " + f.value }

  function FieldLines(fields: seq<Field>): (lines: seq<string>)
    ensures |lines| == |fields| && forall i :: 0 <= i < |fields| ==> lines[i] == FieldLine(fields[i])
  {
    if fields == [] then [] else [FieldLine(fields[0])] + FieldLines(fields[1..])
  }

  function PrintHead(verb: Method, path: string, fields: seq<Field>): string {
    Join([RequestLine(verb, path)] + FieldLines(fields), CRLF)
  }

  function Print(verb: Method, path: string, fields: seq<Field>, body: string): string {
    PrintHead(verb, path, fields) + DELIMITER + body
  }

  /** The header dictionary the fields describe. */
  function Headers(start: map<string, string>, fields: seq<Field>): map<string, string>
    decreases |fields|
  {
    if fields == [] then start else Headers(start[fields[0].name := fields[0].value], fields[1..])
  }

  // ------------------------------------------------------- requests that can be printed

  ghost predicate OneLine(s: string) { Clean(s, '\r') && Clean(s, '\n') }

  ghost predicate BareName(name: string) {
    && ValidHeaderName(name) && Lower(name) == name
    && OneLine(name) && Clean(name, ':') && name[0] != ' ' && name[0] != '\t'
  }

  ghost predicate PlainName(name: string) {
    BareName(name) && name != "transfer-encoding"
  }

  ghost predicate PlainValue(value: string) {
    Trimmed(value) && OneLine(value) && Clean(value, ':')
  }

  ghost predicate PlainPath(path: string) {
    ValidPath(path) && OneLine(path) && Clean(path, ' ')
  }

  ghost predicate DistinctNames(fields: seq<Field>) {
    forall i, j :: 0 <= i < j < |fields| ==> fields[i].name != fields[j].name
  }

  ghost predicate PlainFields(fields: seq<Field>) {
    forall i :: 0 <= i < |fields| ==> PlainName(fields[i].name) && PlainValue(fields[i].value)
  }

  ghost predicate Declares(value: string, n: nat) {
    value != "" && AllDigits(value) && DecimalValue(value) == n
  }

  /** Content-Length, where present, is the length of the body; a POST has one and nothing else has a body. */
  ghost predicate LengthDeclared(verb: Method, fields: seq<Field>, body: string) {
    && (forall i :: 0 <= i < |fields| && fields[i].name == "content-length" ==> Declares(fields[i].value, |body|))
    && if verb == POST then exists i :: 0 <= i < |fields| && fields[i].name == "content-length" else body == ""
  }

  ghost predicate Printable(verb: Method, path: string, fields: seq<Field>, body: string, limits: Limits) {
    && PlainPath(path) && PlainFields(fields) && DistinctNames(fields) && LengthDeclared(verb, fields, body)
    && |PrintHead(verb, path, fields)| + 4 <= limits.header && limits.utf8(PrintHead(verb, path, fields))
    && |body| <= limits.body && |body| < INT64_LIMIT
  }

  // ------------------------------------------------------------- finding the head

  ghost predicate GoodLine(line: string) { line != "" && OneLine(line) }

  lemma {:induction false} NoDelimiterInside(lines: seq<string>, tail: string, i: nat)
    requires lines != [] && (forall l :: l in lines ==> GoodLine(l)) && i < |Join(lines, CRLF)|
    ensures !At(Join(lines, CRLF) + tail, DELIMITER, i)
    decreases |lines|
  {
    var l := lines[0];
    var text := Join(lines, CRLF) + tail;
    assert l in lines;
    if i < |l| {
      assert text[i] == l[i] && l[i] != '\r';
      NotAt(text, DELIMITER, i);
    } else {
      var rest := Join(lines[1..], CRLF);
      assert |lines| > 1;
      var more := lines[1..];
      assert text == l + CRLF + (rest + tail);
      assert more[0] in lines && rest[0] == more[0][0];
      if i == |l| {
        assert text[i + 2] == rest[0];
        if i + 4 <= |text| { assert text[i..i + 4][2] == text[i + 2]; }
      } else if i == |l| + 1 {
        assert text[i] == '\n';
        NotAt(text, DELIMITER, i);
      } else {
        var k := i - |l| - 2;
        assert forall m :: m in more ==> m in lines;
        NoDelimiterInside(more, tail, k);
        if i + 4 <= |text| { assert text[i..i + 4] == (rest + tail)[k..k + 4]; }
      }
    }
  }

  lemma DelimiterEndsHead(lines: seq<string>, body: string)
    requires lines != [] && forall l :: l in lines ==> GoodLine(l)
    ensures IndexOf(Join(lines, CRLF) + DELIMITER + body, DELIMITER) == Some(|Join(lines, CRLF)|)
  {
    var head := Join(lines, CRLF);
    var text := head + DELIMITER + body;
    assert text == head + (DELIMITER + body);
    assert text[|head|..|head| + 4] == DELIMITER;
    forall i | 0 <= i < |head| ensures !At(text, DELIMITER, i) {
      NoDelimiterInside(lines, DELIMITER + body, i);
    }
    IndexIs(text, DELIMITER, |head|);
  }

  // ------------------------------------------------------------- the request line

  lemma VerbNames(verb: Method)
    ensures MethodNamed(VerbName(verb)) == Some(verb)
    ensures VerbName(verb) != "" && OneLine(VerbName(verb)) && Clean(VerbName(verb), ' ')
  {
  }

  lemma RequestLineJoins(verb: Method, path: string)
    ensures RequestLine(verb, path) == Join([VerbName(verb), path, "HTTP/1.1"], " ")
  {
    var parts := [VerbName(verb), path, "HTTP/1.1"];
    assert parts[1..] == [path, "HTTP/1.1"] && parts[1..][1..] == ["HTTP/1.1"];
    assert Join(parts[1..], " ") == path + " " + "HTTP/1.1";
    assert VerbName(verb) + " " + path + " " + "HTTP/1.1" == VerbName(verb) + " " + (path + " " + "HTTP/1.1");
  }

  lemma RequestLineSplits(verb: Method, path: string)
    requires Clean(path, ' ')
    ensures SplitBy(RequestLine(verb, path), " ") == [VerbName(verb), path, "HTTP/1.1"]
  {
    VerbNames(verb);
    RequestLineJoins(verb, path);
    SplitJoin([VerbName(verb), path, "HTTP/1.1"], " ");
  }

  lemma RequestLineGood(verb: Method, path: string)
    requires OneLine(path)
    ensures GoodLine(RequestLine(verb, path))
  {
    VerbNames(verb);
    assert OneLine(" ") && OneLine("HTTP/1.1");
  }

  // -------------------------------------------------------------- the field lines

  lemma FieldLineParses(f: Field)
    requires BareName(f.name) && PlainValue(f.value)
    ensures ParseLine(FieldLine(f)) == Some((f.name, f.value))
    ensures GoodLine(FieldLine(f))
  {
    var line := FieldLine(f);
    var colon := |f.name|;
    assert line == f.name + ":" + (" " + f.value);
    FirstSeparator(f.name, ":", " " + f.value);
    assert line[..colon] == f.name && line[colon + 1..] == " " + f.value;
    TrimPadded(f.value);
    CountConcat(f.name + ":", " " + f.value, ':');
    CountConcat(f.name, ":", ':');
    CountClean(f.name, ':');
    CountClean(" " + f.value, ':');
    assert Count(":", ':') == 1;
  }

  lemma ParseFirst(line: string, f: Field, rest: seq<string>, start: map<string, string>, seen: bool)
    requires ParseLine(line) == Some((f.name, f.value)) && !(f.name == "content-length" && seen)
    ensures ParseHeaders([line] + rest, start, seen)
         == ParseHeaders(rest, start[f.name := f.value], seen || f.name == "content-length")
  {
    assert ([line] + rest)[1..] == rest;
  }

  lemma {:induction false} FieldsParse(fields: seq<Field>, start: map<string, string>, seen: bool)
    requires PlainFields(fields) && DistinctNames(fields)
    requires seen ==> forall i :: 0 <= i < |fields| ==> fields[i].name != "content-length"
    ensures ParseHeaders(FieldLines(fields), start, seen) == Some(Headers(start, fields))
    decreases |fields|
  {
    if fields != [] {
      var f, rest := fields[0], fields[1..];
      assert PlainName(f.name) && PlainValue(f.value);
      FieldLineParses(f);
      FieldsParse(rest, start[f.name := f.value], seen || f.name == "content-length");
      ParseFirst(FieldLine(f), f, FieldLines(rest), start, seen);
      assert FieldLines(fields) == [FieldLine(f)] + FieldLines(rest);
    }
  }

  /** The dictionary holds exactly the printed fields. */
  lemma {:induction false} HeadersAre(start: map<string, string>, fields: seq<Field>)
    requires DistinctNames(fields) && forall i :: 0 <= i < |fields| ==> fields[i].name !in start
    ensures forall i :: 0 <= i < |fields| ==>
              fields[i].name in Headers(start, fields) && Headers(start, fields)[fields[i].name] == fields[i].value
    ensures forall n :: n in start ==> n in Headers(start, fields) && Headers(start, fields)[n] == start[n]
    ensures forall n :: n in Headers(start, fields) ==> n in start || exists i :: 0 <= i < |fields| && fields[i].name == n
    decreases |fields|
  {
    if fields != [] {
      var next := start[fields[0].name := fields[0].value];
      var rest := fields[1..];
      HeadersAre(next, rest);
      forall i | 0 <= i < |fields|
        ensures fields[i].name in Headers(start, fields) && Headers(start, fields)[fields[i].name] == fields[i].value
      {
        if i > 0 { assert rest[i - 1] == fields[i]; }
      }
      forall n | n in Headers(start, fields)
        ensures n in start || exists i :: 0 <= i < |fields| && fields[i].name == n
      {
        if n !in next {
          var i :| 0 <= i < |rest| && rest[i].name == n;
          assert fields[i + 1].name == n;
        } else if n !in start {
          assert fields[0].name == n;
        }
      }
    }
  }

  lemma DeclaredLength(verb: Method, fields: seq<Field>, body: string)
    requires DistinctNames(fields) && LengthDeclared(verb, fields, body) && |body| < INT64_LIMIT
    ensures ContentLength(Headers(map[], fields), verb == POST) == Some(|body|)
  {
    HeadersAre(map[], fields);
    var headers := Headers(map[], fields);
    if "content-length" in headers {
      var i :| 0 <= i < |fields| && fields[i].name == "content-length";
      assert headers[fields[i].name] == fields[i].value;
    }
  }

  /** The printed decimal of a length declares it. */
  lemma DecimalDeclares(n: nat)
    ensures Declares(Decimal(n), n)
  {
    DecimalRoundTrip(n);
  }

  // ------------------------------------------------------------------ the theorem

  lemma NoTransferEncoding(fields: seq<Field>)
    requires PlainFields(fields) && DistinctNames(fields)
    ensures "transfer-encoding" !in Headers(map[], fields)
  {
    HeadersAre(map[], fields);
  }

  lemma HeadSplits(verb: Method, path: string, fields: seq<Field>)
    requires PlainPath(path) && PlainFields(fields)
    ensures var lines := SplitBy(PrintHead(verb, path, fields), CRLF);
            lines[0] == RequestLine(verb, path) && lines[1..] == FieldLines(fields)
    ensures SplitBy(RequestLine(verb, path), " ") == [VerbName(verb), path, "HTTP/1.1"]
  {
    var lines := [RequestLine(verb, path)] + FieldLines(fields);
    LinesAreGood(verb, path, fields);
    SplitJoin(lines, CRLF);
    RequestLineSplits(verb, path);
  }

  lemma FieldsDeclare(verb: Method, fields: seq<Field>, body: string)
    requires PlainFields(fields) && DistinctNames(fields) && LengthDeclared(verb, fields, body) && |body| < INT64_LIMIT
    ensures ParseHeaders(FieldLines(fields), map[], false) == Some(Headers(map[], fields))
    ensures "transfer-encoding" !in Headers(map[], fields)
    ensures ContentLength(Headers(map[], fields), verb == POST) == Some(|body|)
  {
    FieldsParse(fields, map[], false);
    NoTransferEncoding(fields);
    DeclaredLength(verb, fields, body);
  }

  lemma HeadParses(verb: Method, path: string, fields: seq<Field>, body: string, limits: Limits)
    requires Printable(verb, path, fields, body, limits)
    ensures ParseHead(PrintHead(verb, path, fields), limits) == Ok(Head(verb, path, Headers(map[], fields), |body|))
  {
    HeadSplits(verb, path, fields);
    VerbNames(verb);
    FieldsDeclare(verb, fields, body);
  }

  lemma LinesAreGood(verb: Method, path: string, fields: seq<Field>)
    requires OneLine(path) && PlainFields(fields)
    ensures forall l :: l in [RequestLine(verb, path)] + FieldLines(fields) ==> GoodLine(l)
  {
    RequestLineGood(verb, path);
    forall i | 0 <= i < |fields| ensures GoodLine(FieldLines(fields)[i]) { FieldLineParses(fields[i]); }
  }

  lemma PrintedHeadIsFound(verb: Method, path: string, fields: seq<Field>, body: string, limits: Limits)
    requires Printable(verb, path, fields, body, limits)
    ensures IndexOf(Print(verb, path, fields, body), DELIMITER) == Some(|PrintHead(verb, path, fields)|)
  {
    var lines := [RequestLine(verb, path)] + FieldLines(fields);
    LinesAreGood(verb, path, fields);
    DelimiterEndsHead(lines, body);
  }

  lemma PrintedParts(head: string, body: string)
    ensures var wire := head + DELIMITER + body;
            wire[..|head|] == head && wire[|head| + 4..] == body && |wire| == |head| + 4 + |body|
  {
  }

  /** Printing then parsing gives the request back. */
  lemma PrintThenParse(verb: Method, path: string, fields: seq<Field>, body: string, limits: Limits)
    requires Printable(verb, path, fields, body, limits)
    ensures OneShot(Print(verb, path, fields, body), limits) == Done(Request(verb, path, Headers(map[], fields), body))
  {
    PrintedHeadIsFound(verb, path, fields, body, limits);
    HeadParses(verb, path, fields, body, limits);
    PrintedParts(PrintHead(verb, path, fields), body);
  }

  // ------------------------------------------------------- what a client would send

  /** The fields with the length of the body, in decimal, after them. */
  function WithLength(fields: seq<Field>, body: string): seq<Field> {
    fields + [Field("content-length", Decimal(|body|))]
  }

  lemma LowerStays(s: string)
    requires forall i :: 0 <= i < |s| ==> LowerChar(s[i]) == s[i]
    ensures Lower(s) == s
  {
  }

  lemma LettersArePlain(name: string)
    requires name != "" && name != "transfer-encoding"
    requires forall i :: 0 <= i < |name| ==> 'a' <= name[i] <= 'z' || name[i] == '-'
    ensures PlainName(name)
  {
    LowerStays(name);
  }

  lemma DigitsArePlain(s: string)
    requires AllDigits(s) && s != ""
    ensures PlainValue(s)
  {
    forall i | 0 <= i < |s| ensures s[i] != '\r' && s[i] != '\n' && s[i] != ':' && !Blank(s[i]) { assert IsDigit(s[i]); }
  }

  lemma OneMoreField(fields: seq<Field>, f: Field)
    requires PlainFields(fields) && DistinctNames(fields) && PlainName(f.name) && PlainValue(f.value)
    requires forall i :: 0 <= i < |fields| ==> fields[i].name != f.name
    ensures PlainFields(fields + [f]) && DistinctNames(fields + [f])
  {
  }

  lemma LengthFieldIsPlain(fields: seq<Field>, f: Field, n: nat)
    requires PlainFields(fields) && DistinctNames(fields) && f.name == "content-length" && f.value == Decimal(n)
    requires forall i :: 0 <= i < |fields| ==> fields[i].name != f.name
    ensures PlainFields(fields + [f]) && DistinctNames(fields + [f])
  {
    var name := f.name;
    LettersArePlain(name);
    DigitsArePlain(f.value);
    OneMoreField(fields, f);
  }

  lemma LengthIsDeclared(fields: seq<Field>, f: Field, body: string)
    requires f.name == "content-length" && f.value == Decimal(|body|)
    requires forall i :: 0 <= i < |fields| ==> fields[i].name != f.name
    ensures LengthDeclared(POST, fields + [f], body)
  {
    DecimalDeclares(|body|);
    assert (fields + [f])[|fields|] == f;
  }

  /** Any body, sent with its length, is what the parser hands on, under the headers that were sent. */
  lemma SendThenParse(path: string, fields: seq<Field>, body: string, limits: Limits)
    requires PlainPath(path) && PlainFields(fields) && DistinctNames(fields)
    requires forall i :: 0 <= i < |fields| ==> fields[i].name != "content-length"
    requires var head := PrintHead(POST, path, WithLength(fields, body)); |head| + 4 <= limits.header && limits.utf8(head)
    requires |body| <= limits.body && |body| < INT64_LIMIT
    ensures var sent := WithLength(fields, body);
            && OneShot(Print(POST, path, sent, body), limits) == Done(Request(POST, path, Headers(map[], sent), body))
            && "content-length" in Headers(map[], sent) && Headers(map[], sent)["content-length"] == Decimal(|body|)
  {
    var sent := WithLength(fields, body);
    var f := Field("content-length", Decimal(|body|));
    LengthFieldIsPlain(fields, f, |body|);
    LengthIsDeclared(fields, f, body);
    assert Printable(POST, path, sent, body, limits);
    PrintThenParse(POST, path, sent, body, limits);
    LengthIsSent(sent, |fields|, body);
  }

  lemma LengthIsSent(sent: seq<Field>, last: nat, body: string)
    requires DistinctNames(sent) && last < |sent| && sent[last] == Field("content-length", Decimal(|body|))
    ensures "content-length" in Headers(map[], sent) && Headers(map[], sent)["content-length"] == Decimal(|body|)
  {
    HeadersAre(map[], sent);
    assert sent[last].name in Headers(map[], sent);
  }

  // ------------------------------------------------------------- bytes after a request

  /**
   Bytes after any request are where the split does matter: cut at the end of the request
   the wire is answered with it, in one piece it is refused.
   */
  lemma BytesAfterARequest(verb: Method, path: string, fields: seq<Field>, body: string, limits: Limits, extra: string)
    requires Printable(verb, path, fields, body, limits) && extra != ""
    ensures var wire := Print(verb, path, fields, body);
            && HTTPChunking.Concat([wire, extra]) == HTTPChunking.Concat([wire + extra]) == wire + extra
            && HTTPChunking.FirstAnswer([wire, extra], 0, limits).0
               == Done(Request(verb, path, Headers(map[], fields), body))
            && HTTPChunking.FirstAnswer([wire + extra], 0, limits).0 == Failed(TrailingBytes)
  {
    var wire := Print(verb, path, fields, body);
    PrintThenParse(verb, path, fields, body, limits);
    TooLong(wire, extra, limits);
    OnePiece(wire + extra);
    TwoPieces(wire, extra);
  }

  lemma TooLong(wire: string, extra: string, limits: Limits)
    requires OneShot(wire, limits).Done? && extra != ""
    ensures OneShot(wire + extra, limits) == Failed(TrailingBytes)
  {
    StageStable(wire, wire + extra, limits);
  }

  lemma OnePiece(a: string)
    ensures HTTPChunking.Concat([a]) == a && [a][..1] == [a]
  {
    assert [a][..0] == [] && HTTPChunking.Concat([]) + a == a;
  }

  lemma TwoPieces(a: string, b: string)
    ensures HTTPChunking.Concat([a, b]) == a + b && HTTPChunking.Concat([a, b][..1]) == a
  {
    OnePiece(a);
    assert [a, b][..1] == [a];
  }

  const ANY_TEXT := Limits(MAXIMUM_HEADER_BYTES, MAXIMUM_BODY_BYTES, _ => true)

  /** One such wire: a status request and one byte. */
  lemma OneByteTooMany()
    ensures var wire := "GET /status HTTP/1.1" + DELIMITER;
            && HTTPChunking.FirstAnswer([wire, "x"], 0, ANY_TEXT).0 == Done(Request(GET, "/status", map[], ""))
            && HTTPChunking.FirstAnswer([wire + "x"], 0, ANY_TEXT).0 == Failed(TrailingBytes)
  {
    StatusIsPrintable();
    BytesAfterARequest(GET, "/status", [], "", ANY_TEXT, "x");
    assert Print(GET, "/status", [], "") == "GET /status HTTP/1.1" + DELIMITER;
  }

  lemma StatusIsPlain()
    ensures PlainPath("/status")
  {
    var path := "/status";
    assert path[1..] == "status" && Clean("status", '/');
    SplitJoin(["status"], "/");
    assert SplitBy(path[1..], "/") == ["status"];
  }

  lemma StatusIsPrintable()
    ensures Printable(GET, "/status", [], "", ANY_TEXT) && PrintHead(GET, "/status", []) == "GET /status HTTP/1.1"
  {
    StatusIsPlain();
    var line := RequestLine(GET, "/status");
    assert [line] + FieldLines([]) == [line];
    assert PrintHead(GET, "/status", []) == line == "GET /status HTTP/1.1";
  }
}
