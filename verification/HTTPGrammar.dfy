/**
 The language the request parser accepts, written down as a grammar of texts: a request
 line, field lines and a body (sections 3, 5 and 6 of RFC 9112). The parser answers a
 request exactly on the texts of this grammar, and every other text with the error of the
 first rule it breaks.
 */
module HTTPGrammar {
  import opened Prelude
  import opened HTTPText
  import opened HTTPRequestParser
  import opened HTTPRoundTrip

  // ------------------------------------------------------------- the rules of the grammar

  /** The pattern occurs nowhere in the text. */
  ghost predicate Lacks(s: string, pattern: string) {
    forall i: nat :: !At(s, pattern, i)
  }

  /** Absolute, with non-empty segments, without query or fragment. */
  ghost predicate PathRule(path: string) {
    && |path| >= 2 && path[0] == '/' && path[|path| - 1] != '/'
    && (forall i :: 0 <= i < |path| ==> path[i] != '?' && path[i] != '#')
    && (forall i :: 0 <= i < |path| - 1 && path[i] == '/' ==> path[i + 1] != '/')
  }

  /** Letters lose their case, nothing else changes. */
  predicate LowerOf(c: char, d: char) {
    if 'A' <= c <= 'Z' then 'a' <= d <= 'z' && d as int - 'a' as int == c as int - 'A' as int else d == c
  }

  /** The value between blanks at both ends. */
  ghost predicate TrimmedFrom(s: string, value: string, a: nat) {
    && a + |value| <= |s| && value == s[a..a + |value|] && Trimmed(value)
    && (forall i :: 0 <= i < a ==> Blank(s[i]))
    && (forall i :: a + |value| <= i < |s| ==> Blank(s[i]))
  }

  ghost predicate TrimRule(s: string, value: string) {
    exists a: nat :: TrimmedFrom(s, value, a)
  }

  /** One colon, an ASCII name before it that does not begin with a blank, and the value after it. */
  ghost predicate FieldAt(line: string, colon: nat, f: Field) {
    && 0 < colon < |line| && !Blank(line[0])
    && (forall i :: 0 <= i < |line| ==> (line[i] == ':' <==> i == colon))
    && |f.name| == colon
    && (forall i :: 0 <= i < colon ==> line[i] < 128 as char && LowerOf(line[i], f.name[i]))
    && TrimRule(line[colon + 1..], f.value)
  }

  ghost predicate FieldRule(line: string, f: Field) {
    exists colon: nat :: FieldAt(line, colon, f)
  }

  ghost predicate FieldRules(lines: seq<string>, fields: seq<Field>) {
    |lines| == |fields| && forall i :: 0 <= i < |lines| ==> FieldRule(lines[i], fields[i])
  }

  /** The number a numeral stands for, read from its first digit on. */
  function NumeralValue(s: string, before: nat): nat
    requires AllDigits(s)
  {
    if s == "" then before else NumeralValue(s[1..], before * 10 + (s[0] as int - '0' as int))
  }

  ghost predicate Numeral(s: string, n: nat) {
    s != "" && AllDigits(s) && NumeralValue(s, 0) == n
  }

  ghost predicate Names(fields: seq<Field>, name: string, i: nat) {
    i < |fields| && fields[i].name == name
  }

  ghost predicate Named(fields: seq<Field>, name: string) {
    exists i: nat :: Names(fields, name, i)
  }

  ghost predicate AtMostOnce(fields: seq<Field>, name: string) {
    forall i: nat, j: nat :: Names(fields, name, i) && Names(fields, name, j) ==> i == j
  }

  /** The dictionary has a key for every field name, and under it what its last field says. */
  ghost predicate Collected(fields: seq<Field>, headers: map<string, string>) {
    && (forall name :: name in headers <==> Named(fields, name))
    && (forall i :: 0 <= i < |fields| && (forall j :: i < j < |fields| ==> fields[j].name != fields[i].name) ==>
          fields[i].name in headers && headers[fields[i].name] == fields[i].value)
  }

  /** The length the fields declare: a POST must declare one, without a declaration it is zero. */
  ghost predicate LengthRule(verb: Method, fields: seq<Field>, n: nat) {
    && n < 0x8000_0000_0000_0000
    && (forall i: nat :: Names(fields, "content-length", i) ==> Numeral(fields[i].value, n))
    && (!Named(fields, "content-length") ==> verb != POST && n == 0)
  }

  /** The text of a head: its request line and field lines. */
  function HeadText(verb: Method, path: string, lines: seq<string>): string {
    Join([RequestLine(verb, path)] + lines, CRLF)
  }

  /** The lines are the field lines of a head, and these are their fields. */
  ghost predicate LinesRule(lines: seq<string>, fields: seq<Field>) {
    (forall l :: l in lines ==> Lacks(l, CRLF)) && FieldRules(lines, fields)
  }

  /** A head for a body of this length. */
  ghost predicate HeadRules(h: Head, limits: Limits, lines: seq<string>, fields: seq<Field>) {
    && PathRule(h.path) && Lacks(h.path, " ") && Lacks(h.path, CRLF)
    && LinesRule(lines, fields) && AtMostOnce(fields, "content-length") && !Named(fields, "transfer-encoding")
    && Collected(fields, h.headers)
    && LengthRule(h.verb, fields, h.length) && (h.verb != POST ==> h.length == 0) && h.length <= limits.body
    && limits.utf8(HeadText(h.verb, h.path, lines))
  }

  ghost predicate Rules(w: string, r: Request, limits: Limits, lines: seq<string>, fields: seq<Field>) {
    && w == HeadText(r.verb, r.path, lines) + DELIMITER + r.body
    && |HeadText(r.verb, r.path, lines)| + 4 <= limits.header
    && HeadRules(Head(r.verb, r.path, r.headers, |r.body|), limits, lines, fields)
  }

  /** The texts of the grammar, with the request each of them is. */
  ghost predicate IsRequest(w: string, r: Request, limits: Limits) {
    exists lines, fields :: Rules(w, r, limits, lines, fields)
  }

  // ---------------------------------------------------------------------- lines

  lemma PrefixLacks(s: string, pattern: string, k: nat)
    requires k <= |s| && pattern != "" && forall i :: 0 <= i < k ==> !At(s, pattern, i)
    ensures Lacks(s[..k], pattern)
  {
    forall i: nat ensures !At(s[..k], pattern, i) {
      if At(s[..k], pattern, i) { AtInPrefix(s[..k], s, pattern, i); }
    }
  }

  /** Splitting gives parts without separators that join to the text. */
  lemma {:induction false} JoinSplit(s: string, separator: string)
    requires separator != ""
    ensures Join(SplitBy(s, separator), separator) == s
    ensures forall p :: p in SplitBy(s, separator) ==> Lacks(p, separator)
    decreases |s|
  {
    var i := IndexOf(s, separator);
    if i.None? {
      forall k: nat ensures !At(s, separator, k) {}
    } else {
      var rest := s[i.value + |separator|..];
      JoinSplit(rest, separator);
      PrefixLacks(s, separator, i.value);
      var parts := SplitBy(s, separator);
      assert parts == [s[..i.value]] + SplitBy(rest, separator) && parts[1..] == SplitBy(rest, separator);
      assert s == s[..i.value] + separator + rest;
    }
  }

  /** The end of a part and the beginning of a separator do not make another separator. */
  ghost predicate NoStraddle(separator: string) {
    separator == CRLF || |separator| == 1
  }

  lemma FirstJoint(part: string, separator: string, rest: string)
    requires separator != "" && NoStraddle(separator) && Lacks(part, separator)
    ensures IndexOf(part + separator + rest, separator) == Some(|part|)
  {
    var s := part + separator + rest;
    assert s[|part|..|part| + |separator|] == separator;
    forall i | 0 <= i < |part| ensures !At(s, separator, i) {
      if i + |separator| <= |part| {
        AtInPrefix(part, s, separator, i);
      } else if i + |separator| <= |s| {
        assert s[i..i + 2][1] == s[i + 1] == '\r';
      }
    }
    IndexIs(s, separator, |part|);
  }

  lemma SplitFirst(part: string, separator: string, rest: string)
    requires separator != "" && NoStraddle(separator) && Lacks(part, separator)
    ensures SplitBy(part + separator + rest, separator) == [part] + SplitBy(rest, separator)
  {
    FirstJoint(part, separator, rest);
    var s := part + separator + rest;
    assert s[..|part|] == part && s[|part| + |separator|..] == rest;
  }

  lemma {:induction false} PartsSplit(parts: seq<string>, separator: string)
    requires parts != [] && separator != "" && NoStraddle(separator) && forall p :: p in parts ==> Lacks(p, separator)
    ensures SplitBy(Join(parts, separator), separator) == parts
    decreases |parts|
  {
    assert Lacks(parts[0], separator);
    if |parts| == 1 {
      assert IndexOf(parts[0], separator).None?;
    } else {
      SplitFirst(parts[0], separator, Join(parts[1..], separator));
      PartsSplit(parts[1..], separator);
    }
  }

  ghost predicate Filled(lines: seq<string>) {
    forall i :: 0 <= i < |lines| ==> lines[i] != "" && Lacks(lines[i], CRLF)
  }

  lemma StartsFilled(line: string, tail: string)
    requires line != "" && Lacks(line, CRLF) && tail != "" && tail[0] == '\r'
    ensures !At(line + tail, CRLF, 0)
  {
    var text := line + tail;
    if |line| >= 2 {
      AtInPrefix(line, text, CRLF, 0);
    } else {
      assert text[1] == '\r';
      assert text[0..2][1] == text[1];
    }
  }

  lemma InsideLine(line: string, tail: string, i: nat)
    requires Lacks(line, CRLF) && tail != "" && tail[0] == '\r' && i < |line|
    ensures !At(line + tail, CRLF, i)
  {
    var text := line + tail;
    if i + 2 <= |line| {
      AtInPrefix(line, text, CRLF, i);
    } else {
      assert text[i + 1] == '\r';
      assert text[i..i + 2][1] == text[i + 1];
    }
  }

  lemma NoDelimiterAt(text: string, i: nat)
    requires !At(text, CRLF, i) || !At(text, CRLF, i + 2)
    ensures !At(text, DELIMITER, i)
  {
    assert DELIMITER[..2] == CRLF && DELIMITER[2..] == CRLF;
    if i + 4 <= |text| {
      assert text[i..i + 4][..2] == text[i..i + 2] && text[i..i + 4][2..] == text[i + 2..i + 4];
    }
  }

  lemma AtBeyond(a: string, b: string, pattern: string, k: nat)
    ensures At(a + b, pattern, |a| + k) <==> At(b, pattern, k)
  {
    if k + |pattern| <= |b| { assert (a + b)[|a| + k..|a| + k + |pattern|] == b[k..k + |pattern|]; }
  }

  /** In the first line, at its end, or beyond it. */
  lemma NoDelimiterInFirst(l: string, rest: string, i: nat)
    requires Lacks(l, CRLF) && i < |l| + 2 && !At(rest, CRLF, 0)
    ensures !At(l + CRLF + rest, DELIMITER, i)
  {
    var text := l + CRLF + rest;
    assert text == l + (CRLF + rest);
    if i < |l| {
      InsideLine(l, CRLF + rest, i);
      NoDelimiterAt(text, i);
    } else if i == |l| {
      AtBeyond(l + CRLF, rest, CRLF, 0);
      NoDelimiterAt(text, i);
    } else {
      NotAt(text, DELIMITER, i);
    }
  }

  lemma {:induction false} NoEarlierDelimiter(lines: seq<string>, tail: string, i: nat)
    requires lines != [] && Filled(lines) && tail != "" && tail[0] == '\r' && i < |Join(lines, CRLF)|
    ensures !At(Join(lines, CRLF) + tail, DELIMITER, i)
    decreases |lines|
  {
    var l := lines[0];
    var text := Join(lines, CRLF) + tail;
    if |lines| == 1 {
      InsideLine(l, tail, i);
      NoDelimiterAt(text, i);
    } else {
      var more := lines[1..];
      MoreFilled(lines);
      var rest := Join(more, CRLF) + tail;
      assert text == l + CRLF + rest;
      if i < |l| + 2 {
        NotAtStart(more, tail);
        NoDelimiterInFirst(l, rest, i);
      } else {
        NoEarlierDelimiter(more, tail, i - |l| - 2);
        AtBeyond(l + CRLF, rest, DELIMITER, i - |l| - 2);
      }
    }
  }

  lemma MoreFilled(lines: seq<string>)
    requires lines != [] && Filled(lines)
    ensures Filled(lines[1..])
  {
    forall j | 0 <= j < |lines[1..]| ensures lines[1..][j] != "" && Lacks(lines[1..][j], CRLF) {
      assert lines[1..][j] == lines[j + 1];
    }
  }

  lemma NotAtStart(lines: seq<string>, tail: string)
    requires lines != [] && Filled(lines) && tail != "" && tail[0] == '\r'
    ensures !At(Join(lines, CRLF) + tail, CRLF, 0)
  {
    var l := lines[0];
    if |lines| == 1 {
      StartsFilled(l, tail);
    } else {
      var rest := CRLF + (Join(lines[1..], CRLF) + tail);
      assert Join(lines, CRLF) + tail == l + rest;
      StartsFilled(l, rest);
    }
  }

  lemma HeadEndsThere(lines: seq<string>, body: string)
    requires lines != [] && Filled(lines)
    ensures IndexOf(Join(lines, CRLF) + DELIMITER + body, DELIMITER) == Some(|Join(lines, CRLF)|)
  {
    var head := Join(lines, CRLF);
    var text := head + DELIMITER + body;
    assert text == head + (DELIMITER + body);
    assert text[|head|..|head| + 4] == DELIMITER;
    forall i | 0 <= i < |head| ensures !At(text, DELIMITER, i) { NoEarlierDelimiter(lines, DELIMITER + body, i); }
    IndexIs(text, DELIMITER, |head|);
  }

  // ------------------------------------------------------------------ the request line

  lemma AtOne(s: string, pattern: string, i: nat)
    requires |pattern| == 1
    ensures At(s, pattern, i) <==> i < |s| && s[i] == pattern[0]
  {
    if i < |s| { assert s[i..i + 1] == [s[i]]; }
  }

  lemma LacksIsClean(s: string, pattern: string)
    requires |pattern| == 1
    ensures Lacks(s, pattern) <==> Clean(s, pattern[0])
  {
    if Lacks(s, pattern) {
      forall i | 0 <= i < |s| ensures s[i] != pattern[0] { AtOne(s, pattern, i); }
    } else {
      var i: nat :| At(s, pattern, i);
      AtOne(s, pattern, i);
    }
  }

  lemma VerbIs(name: string, verb: Method)
    ensures MethodNamed(name) == Some(verb) <==> name == VerbName(verb)
  {
  }

  /** The tokens of a line are a verb, a path and the version exactly when the line is that request line. */
  lemma RequestLineIff(line: string, verb: Method, path: string)
    ensures SplitBy(line, " ") == [VerbName(verb), path, "HTTP/1.1"]
            <==> line == RequestLine(verb, path) && Lacks(path, " ")
  {
    RequestLineJoins(verb, path);
    if SplitBy(line, " ") == [VerbName(verb), path, "HTTP/1.1"] {
      JoinSplit(line, " ");
      assert path in SplitBy(line, " ");
    }
    if line == RequestLine(verb, path) && Lacks(path, " ") {
      LacksIsClean(path, " ");
      RequestLineSplits(verb, path);
    }
  }

  /** No empty segment: neither at an end nor between two slashes. */
  ghost predicate Dense(s: string) {
    && s != "" && s[0] != '/' && s[|s| - 1] != '/'
    && forall i :: 0 <= i < |s| - 1 && s[i] == '/' ==> s[i + 1] != '/'
  }

  lemma SlashFirst(s: string, k: nat)
    requires IndexOf(s, "/") == Some(k)
    ensures k < |s| && s[k] == '/' && forall i :: 0 <= i < k ==> s[i] != '/'
  {
    AtOne(s, "/", k);
    forall i | 0 <= i < k ensures s[i] != '/' { AtOne(s, "/", i); }
  }

  lemma DenseAfter(s: string, k: nat)
    requires k < |s| && s[k] == '/' && forall i :: 0 <= i < k ==> s[i] != '/'
    ensures Dense(s) <==> k > 0 && Dense(s[k + 1..])
  {
    var rest := s[k + 1..];
    if k > 0 && Dense(rest) {
      forall i | 0 <= i < |s| - 1 && s[i] == '/' ensures s[i + 1] != '/' {
        if i > k { assert rest[i - k - 1] == s[i] && rest[i - k] == s[i + 1]; } else { assert s[i + 1] == rest[0]; }
      }
    }
    if Dense(s) {
      assert k > 0 && k + 1 < |s|;
      forall i | 0 <= i < |rest| - 1 && rest[i] == '/' ensures rest[i + 1] != '/' { assert rest[i] == s[i + k + 1]; }
    }
  }

  lemma {:induction false} SegmentsFilled(s: string)
    ensures "" !in SplitBy(s, "/") <==> Dense(s)
    decreases |s|
  {
    var i := IndexOf(s, "/");
    if i.None? {
      forall k | 0 <= k < |s| ensures s[k] != '/' { AtOne(s, "/", k); }
      assert SplitBy(s, "/") == [s];
    } else {
      SlashFirst(s, i.value);
      DenseAfter(s, i.value);
      SegmentsFilled(s[i.value + 1..]);
      assert SplitBy(s, "/") == [s[..i.value]] + SplitBy(s[i.value + 1..], "/");
    }
  }

  lemma PathIff(path: string)
    ensures ValidPath(path) <==> PathRule(path)
  {
    if |path| >= 2 && path[0] == '/' {
      SegmentsFilled(path[1..]);
      assert path[..1] == "/";
      DenseAfterSlash(path);
      if "//" <= path { assert path[1] == "//"[1]; }
    }
  }

  lemma DenseAfterSlash(path: string)
    requires |path| >= 2 && path[0] == '/'
    ensures Dense(path[1..]) <==>
              path[|path| - 1] != '/' && forall i :: 0 <= i < |path| - 1 && path[i] == '/' ==> path[i + 1] != '/'
  {
    var s := path[1..];
    if Dense(s) {
      forall i | 0 <= i < |path| - 1 && path[i] == '/' ensures path[i + 1] != '/' {
        if i > 0 { assert s[i - 1] == path[i] && s[i] == path[i + 1]; } else { assert s[0] == path[1]; }
      }
    }
    if path[|path| - 1] != '/' && forall i :: 0 <= i < |path| - 1 && path[i] == '/' ==> path[i + 1] != '/' {
      assert s[0] == path[0 + 1];
      forall i | 0 <= i < |s| - 1 && s[i] == '/' ensures s[i + 1] != '/' {
        assert s[i] == path[i + 1] && s[i + 1] == path[i + 2];
      }
    }
  }

  // ------------------------------------------------------------------- field lines

  lemma {:induction false} TrimStartDrops(s: string, a: nat)
    requires a <= |s| && (forall i :: 0 <= i < a ==> Blank(s[i])) && (a == |s| || !Blank(s[a]))
    ensures TrimStart(s) == s[a..]
    decreases a
  {
    if a > 0 {
      assert s[1..][a - 1..] == s[a..];
      TrimStartDrops(s[1..], a - 1);
    }
  }

  lemma {:induction false} TrimEndDrops(s: string, b: nat)
    requires b <= |s| && (forall i :: b <= i < |s| ==> Blank(s[i])) && (b == 0 || !Blank(s[b - 1]))
    ensures TrimEnd(s) == s[..b]
    decreases |s| - b
  {
    if b < |s| {
      assert s[..|s| - 1][..b] == s[..b];
      TrimEndDrops(s[..|s| - 1], b);
    } else {
      assert s[..b] == s;
    }
  }

  lemma TrimmedIsTrim(s: string, value: string, a: nat)
    requires TrimmedFrom(s, value, a)
    ensures Trim(s) == value
  {
    if value == "" {
      TrimStartDrops(s, |s|);
      assert TrimStart(s) == "";
    } else {
      TrimStartDrops(s, a);
      TrimEndDrops(s[a..], |value|);
    }
  }

  lemma {:induction false} BlanksBefore(s: string) returns (a: nat)
    ensures a <= |s| && (forall i :: 0 <= i < a ==> Blank(s[i])) && (a == |s| || !Blank(s[a]))
    decreases |s|
  {
    if s != "" && Blank(s[0]) {
      var rest := BlanksBefore(s[1..]);
      a := rest + 1;
      forall i | 0 <= i < a ensures Blank(s[i]) { if i > 0 { assert s[1..][i - 1] == s[i]; } }
    } else {
      a := 0;
    }
  }

  lemma {:induction false} BlanksAfter(s: string) returns (b: nat)
    ensures b <= |s| && (forall i :: b <= i < |s| ==> Blank(s[i])) && (b == 0 || !Blank(s[b - 1]))
    decreases |s|
  {
    if s != "" && Blank(s[|s| - 1]) {
      b := BlanksAfter(s[..|s| - 1]);
      forall i | b <= i < |s| ensures Blank(s[i]) { if i < |s| - 1 { assert s[..|s| - 1][i] == s[i]; } }
    } else {
      b := |s|;
    }
  }

  lemma TrimObeysRule(s: string)
    ensures TrimRule(s, Trim(s))
  {
    var a := BlanksBefore(s);
    TrimStartDrops(s, a);
    var t := s[a..];
    var b := BlanksAfter(t);
    TrimEndDrops(t, b);
    assert t != "" ==> t[0] == s[a];
    assert t[..b] == s[a..a + b];
    if b > 0 { assert t[0] == s[a] && t[b - 1] == s[a + b - 1]; }
    forall i | a + b <= i < |s| ensures Blank(s[i]) { assert t[i - a] == s[i]; }
    assert TrimmedFrom(s, Trim(s), a);
  }

  lemma {:induction false} OneColon(s: string, c: char, k: nat)
    requires k < |s| && s[k] == c && forall i :: 0 <= i < k ==> s[i] != c
    ensures Count(s, c) == 1 <==> forall i :: k < i < |s| ==> s[i] != c
  {
    assert s == (s[..k] + [s[k]]) + s[k + 1..];
    CountConcat(s[..k] + [s[k]], s[k + 1..], c);
    CountConcat(s[..k], [s[k]], c);
    CountClean(s[..k], c);
    assert Count([s[k]], c) == 1 by { assert [s[k]][1..] == ""; }
    var rest := s[k + 1..];
    CountZero(rest, c);
    assert forall i :: k < i < |s| ==> s[i] == rest[i - k - 1];
    assert forall j :: 0 <= j < |rest| ==> rest[j] == s[j + k + 1];
  }

  lemma CleanFirst(s: string, c: char)
    requires s != ""
    ensures Clean(s, c) <==> s[0] != c && Clean(s[1..], c)
  {
    assert forall i :: 0 <= i < |s[1..]| ==> s[1..][i] == s[i + 1];
    assert forall i :: 1 <= i < |s| ==> s[i] == s[1..][i - 1];
  }

  lemma {:induction false} CountZero(s: string, c: char)
    ensures Count(s, c) == 0 <==> Clean(s, c)
  {
    if s != "" {
      CountZero(s[1..], c);
      CleanFirst(s, c);
    }
  }

  lemma LowerRule(s: string, t: string)
    ensures t == Lower(s) <==> |t| == |s| && forall i :: 0 <= i < |s| ==> LowerOf(s[i], t[i])
  {
    var r := Lower(s);
    forall i | 0 <= i < |s| ensures LowerOf(s[i], r[i]) { LowerCharRule(s[i], r[i]); }
    if |t| == |s| && forall i :: 0 <= i < |s| ==> LowerOf(s[i], t[i]) {
      forall i | 0 <= i < |s| ensures t[i] == r[i] { LowerCharRule(s[i], t[i]); }
    }
  }

  lemma LowerCharRule(c: char, d: char)
    ensures d == LowerChar(c) <==> LowerOf(c, d)
  {
  }

  lemma ColonFirst(line: string, colon: nat)
    ensures IndexOf(line, ":") == Some(colon) <==>
              colon < |line| && line[colon] == ':' && forall i :: 0 <= i < colon ==> line[i] != ':'
  {
    AtOne(line, ":", colon);
    forall i: nat | i < colon ensures At(line, ":", i) <==> i < |line| && line[i] == ':' { AtOne(line, ":", i); }
    if colon < |line| && line[colon] == ':' && forall i :: 0 <= i < colon ==> line[i] != ':' {
      IndexIs(line, ":", colon);
    }
  }

  /** A line is read as a field exactly when it is one by the rule. */
  lemma FieldIff(line: string, f: Field)
    ensures ParseLine(line) == Some((f.name, f.value)) <==> FieldRule(line, f)
  {
    if ParseLine(line) == Some((f.name, f.value)) { ParsedIsField(line, f); }
    if FieldRule(line, f) { FieldIsParsed(line, f); }
  }

  lemma ParsedIsField(line: string, f: Field)
    requires ParseLine(line) == Some((f.name, f.value))
    ensures FieldRule(line, f)
  {
    var colon := IndexOf(line, ":").value;
    ColonFirst(line, colon);
    OneColon(line, ':', colon);
    LowerRule(line[..colon], f.name);
    TrimObeysRule(line[colon + 1..]);
    forall i | 0 <= i < colon ensures line[i] < 128 as char && LowerOf(line[i], f.name[i]) {
      assert line[..colon][i] == line[i];
    }
    assert FieldAt(line, colon, f);
  }

  lemma FieldIsParsed(line: string, f: Field)
    requires FieldRule(line, f)
    ensures ParseLine(line) == Some((f.name, f.value))
  {
    var colon: nat :| FieldAt(line, colon, f);
    ColonFirst(line, colon);
    OneColon(line, ':', colon);
    LowerRule(line[..colon], f.name);
    var a: nat :| TrimmedFrom(line[colon + 1..], f.value, a);
    TrimmedIsTrim(line[colon + 1..], f.value, a);
  }

  // ------------------------------------------------------------- the header dictionary

  function LineFields(lines: seq<string>): (fields: seq<Field>)
    requires forall i :: 0 <= i < |lines| ==> ParseLine(lines[i]).Some?
    ensures |fields| == |lines|
    ensures forall i :: 0 <= i < |lines| ==> ParseLine(lines[i]) == Some((fields[i].name, fields[i].value))
  {
    if lines == [] then []
    else [Field(ParseLine(lines[0]).value.0, ParseLine(lines[0]).value.1)] + LineFields(lines[1..])
  }

  lemma FieldsAreRead(lines: seq<string>, fields: seq<Field>)
    requires FieldRules(lines, fields)
    ensures forall i :: 0 <= i < |lines| ==> ParseLine(lines[i]) == Some((fields[i].name, fields[i].value))
  {
    forall i | 0 <= i < |lines| ensures ParseLine(lines[i]) == Some((fields[i].name, fields[i].value)) {
      FieldIff(lines[i], fields[i]);
    }
  }

  /** No further Content-Length when one was seen, and at most one otherwise. */
  ghost predicate LengthsLeft(fields: seq<Field>, seen: bool) {
    AtMostOnce(fields, "content-length") && (seen ==> !Named(fields, "content-length"))
  }

  lemma NamedFirst(fields: seq<Field>, name: string)
    requires fields != []
    ensures Named(fields, name) <==> fields[0].name == name || Named(fields[1..], name)
    ensures AtMostOnce(fields, name) <==>
              AtMostOnce(fields[1..], name) && (fields[0].name == name ==> !Named(fields[1..], name))
  {
    var rest := fields[1..];
    forall i: nat ensures Names(rest, name, i) <==> Names(fields, name, i + 1) {}
    forall i: nat | Names(fields, name, i) && i > 0 ensures Names(rest, name, i - 1) {}
    if Named(fields, name) {
      var i: nat :| Names(fields, name, i);
      if i > 0 { assert Names(rest, name, i - 1); }
    }
    if fields[0].name == name { assert Names(fields, name, 0); }
    if Named(rest, name) {
      var i: nat :| Names(rest, name, i);
      assert Names(fields, name, i + 1);
    }
    if AtMostOnce(fields, name) {
      forall i: nat, j: nat | Names(rest, name, i) && Names(rest, name, j) ensures i == j {
        assert Names(fields, name, i + 1) && Names(fields, name, j + 1);
      }
    }
    if AtMostOnce(rest, name) && (fields[0].name == name ==> !Named(rest, name)) {
      forall i: nat, j: nat | Names(fields, name, i) && Names(fields, name, j) ensures i == j {
        if i > 0 { assert Names(rest, name, i - 1); }
        if j > 0 { assert Names(rest, name, j - 1); }
      }
    }
  }

  /** The lines are read as a dictionary exactly when each is a field and Content-Length does not repeat. */
  lemma {:induction false} HeadersIff(lines: seq<string>, fields: seq<Field>, start: map<string, string>, seen: bool)
    requires |lines| == |fields|
    requires forall i :: 0 <= i < |lines| ==> ParseLine(lines[i]) == Some((fields[i].name, fields[i].value))
    ensures ParseHeaders(lines, start, seen) == if LengthsLeft(fields, seen) then Some(Headers(start, fields)) else None
    decreases |lines|
  {
    var length := "content-length";
    if lines != [] {
      var f := fields[0];
      NamedFirst(fields, length);
      assert ParseLine(lines[0]) == Some((f.name, f.value));
      HeadersIff(lines[1..], fields[1..], start[f.name := f.value], seen || f.name == length);
    }
  }

  lemma {:induction false} BadLine(lines: seq<string>, start: map<string, string>, seen: bool, i: nat)
    requires i < |lines| && ParseLine(lines[i]).None?
    ensures ParseHeaders(lines, start, seen).None?
    decreases |lines|
  {
    var field := ParseLine(lines[0]);
    if i > 0 && field.Some? {
      var (name, value) := field.value;
      BadLine(lines[1..], start[name := value], seen || name == "content-length", i - 1);
    }
  }

  lemma {:induction false} HeadersHold(fields: seq<Field>, start: map<string, string>, name: string)
    ensures name in Headers(start, fields) <==> name in start || Named(fields, name)
    ensures name in start && !Named(fields, name) ==> Headers(start, fields)[name] == start[name]
    decreases |fields|
  {
    if fields != [] {
      NamedFirst(fields, name);
      HeadersHold(fields[1..], start[fields[0].name := fields[0].value], name);
    } else {
      assert !Named(fields, name);
    }
  }

  /** The last field of a name decides. */
  lemma {:induction false} LastDecides(fields: seq<Field>, start: map<string, string>, i: nat)
    requires i < |fields| && forall j :: i < j < |fields| ==> fields[j].name != fields[i].name
    ensures fields[i].name in Headers(start, fields) && Headers(start, fields)[fields[i].name] == fields[i].value
    decreases |fields|
  {
    var f, rest := fields[0], fields[1..];
    var next := start[f.name := f.value];
    assert forall j :: 0 <= j < |rest| ==> rest[j] == fields[j + 1];
    if i > 0 {
      LastDecides(rest, next, i - 1);
    } else {
      forall j: nat ensures !Names(rest, f.name, j) {}
      HeadersHold(rest, next, f.name);
    }
  }

  lemma HeadersCollect(fields: seq<Field>)
    ensures Collected(fields, Headers(map[], fields))
  {
    var h := Headers(map[], fields);
    forall name ensures name in h <==> Named(fields, name) { HeadersHold(fields, map[], name); }
    forall i | 0 <= i < |fields| && (forall j :: i < j < |fields| ==> fields[j].name != fields[i].name)
      ensures fields[i].name in h && h[fields[i].name] == fields[i].value
    {
      LastDecides(fields, map[], i);
    }
  }

  lemma CollectedIs(fields: seq<Field>, headers: map<string, string>)
    ensures Collected(fields, headers) <==> headers == Headers(map[], fields)
  {
    var h := Headers(map[], fields);
    HeadersCollect(fields);
    if Collected(fields, headers) {
      forall name | name in headers ensures name in h && h[name] == headers[name] {
        var i := LastNamed(fields, name);
      }
      assert headers.Keys == h.Keys;
      assert headers == h;
    }
  }

  lemma {:induction false} LastNamed(fields: seq<Field>, name: string) returns (i: nat)
    requires Named(fields, name)
    ensures Names(fields, name, i) && forall j :: i < j < |fields| ==> fields[j].name != name
    decreases |fields|
  {
    var n := |fields| - 1;
    var k: nat :| Names(fields, name, k);
    if fields[n].name == name {
      i := n;
    } else {
      assert Names(fields[..n], name, k);
      i := LastNamed(fields[..n], name);
      assert forall j :: 0 <= j < n ==> fields[..n][j] == fields[j];
    }
  }

  // --------------------------------------------------------------- the declared length

  lemma {:induction false} NumeralFrom(s: string, before: nat)
    requires AllDigits(s)
    ensures s != "" ==> NumeralValue(s, before) == NumeralValue(s[..|s| - 1], before) * 10 + (s[|s| - 1] as int - '0' as int)
    decreases |s|
  {
    if |s| > 1 {
      var next := before * 10 + (s[0] as int - '0' as int);
      NumeralFrom(s[1..], next);
      assert s[1..][..|s| - 2] == s[..|s| - 1][1..];
    } else if |s| == 1 {
      assert s[1..] == "" && s[..0] == "";
    }
  }

  /** Both readings of a numeral give the same number. */
  lemma {:induction false} SameNumber(s: string)
    requires AllDigits(s)
    ensures NumeralValue(s, 0) == DecimalValue(s)
    decreases |s|
  {
    if s != "" {
      NumeralFrom(s, 0);
      SameNumber(s[..|s| - 1]);
    }
  }

  /** The only value under a name that occurs at most once. */
  lemma ValueOf(fields: seq<Field>, name: string, headers: map<string, string>, i: nat)
    requires Collected(fields, headers) && AtMostOnce(fields, name) && Names(fields, name, i)
    ensures name in headers && headers[name] == fields[i].value
  {
    forall j: nat | i < j < |fields| ensures fields[j].name != name { assert !Names(fields, name, j); }
  }

  lemma LengthIff(verb: Method, fields: seq<Field>, headers: map<string, string>, n: nat)
    requires Collected(fields, headers) && AtMostOnce(fields, "content-length")
    ensures ContentLength(headers, verb == POST) == Some(n) <==> LengthRule(verb, fields, n)
  {
    var name := "content-length";
    if Named(fields, name) {
      var i: nat :| Names(fields, name, i);
      ValueOf(fields, name, headers, i);
      if AllDigits(headers[name]) { SameNumber(headers[name]); }
    }
  }

  // ------------------------------------------------------------------------ the head

  lemma RequestLineLacks(verb: Method, path: string)
    ensures Lacks(RequestLine(verb, path), CRLF) <==> Lacks(path, CRLF)
  {
    var name := VerbName(verb) + " ";
    var line := RequestLine(verb, path);
    assert line == name + (path + " HTTP/1.1");
    VerbNames(verb);
    if Lacks(line, CRLF) {
      forall i: nat ensures !At(path, CRLF, i) {
        AtBeyond(name, path + " HTTP/1.1", CRLF, i);
        if i + 2 <= |path| { AtInPrefix(path, path + " HTTP/1.1", CRLF, i); }
      }
    }
    if Lacks(path, CRLF) {
      forall i: nat ensures !At(line, CRLF, i) { RequestLineLacksAt(verb, path, i); }
    }
  }

  lemma SecondDiffers(s: string, i: nat)
    requires i + 1 < |s| ==> s[i + 1] != CRLF[1]
    ensures !At(s, CRLF, i)
  {
    assert i + 2 <= |s| ==> s[i..i + 2][1] == s[i + 1];
  }

  /** The path with what follows it in the line. */
  lemma PathWithVersionLacksAt(path: string, k: nat)
    requires Lacks(path, CRLF)
    ensures !At(path + " HTTP/1.1", CRLF, k)
  {
    var rest := path + " HTTP/1.1";
    if k + 2 <= |path| {
      AtInPrefix(path, rest, CRLF, k);
    } else {
      SecondDiffers(rest, k);
    }
  }

  lemma RequestLineLacksAt(verb: Method, path: string, i: nat)
    requires Lacks(path, CRLF)
    ensures !At(RequestLine(verb, path), CRLF, i)
  {
    var name, rest := VerbName(verb) + " ", path + " HTTP/1.1";
    var line := RequestLine(verb, path);
    assert line == name + rest;
    VerbNames(verb);
    if i < |name| {
      assert line[i] == name[i];
      NotAt(line, CRLF, i);
    } else {
      AtBeyond(name, rest, CRLF, i - |name|);
      PathWithVersionLacksAt(path, i - |name|);
    }
  }

  lemma HeadLines(verb: Method, path: string, lines: seq<string>)
    requires Lacks(path, CRLF) && Lacks(path, " ") && forall l :: l in lines ==> Lacks(l, CRLF)
    ensures SplitBy(HeadText(verb, path, lines), CRLF) == [RequestLine(verb, path)] + lines
    ensures SplitBy(RequestLine(verb, path), " ") == [VerbName(verb), path, "HTTP/1.1"]
  {
    RequestLineLacks(verb, path);
    PartsSplit([RequestLine(verb, path)] + lines, CRLF);
    RequestLineIff(RequestLine(verb, path), verb, path);
  }

  lemma HeadIsRead(head: string, verb: string, path: string, version: string, lines: seq<string>, limits: Limits)
    requires limits.utf8(head) && SplitBy(head, CRLF)[0] == verb + " " + path + " " + version
    requires SplitBy(head, CRLF)[1..] == lines && SplitBy(verb + " " + path + " " + version, " ") == [verb, path, version]
    ensures ParseHead(head, limits) == ReadWords(verb, path, version, lines, limits)
  {
  }

  lemma RulesAreRead(h: Head, limits: Limits, lines: seq<string>, fields: seq<Field>, name: string, version: string)
    requires HeadRules(h, limits, lines, fields) && name == VerbName(h.verb) && version == "HTTP/1.1"
    ensures ReadWords(name, h.path, version, lines, limits) == Ok(h)
  {
    VerbIs(name, h.verb);
    PathIff(h.path);
    FieldsAreRead(lines, fields);
    HeadersIff(lines, fields, map[], false);
    CollectedIs(fields, h.headers);
    TransferNamed(fields, h.headers);
    LengthIff(h.verb, fields, h.headers, h.length);
  }

  lemma RulesAreParsed(h: Head, limits: Limits, lines: seq<string>, fields: seq<Field>)
    requires HeadRules(h, limits, lines, fields)
    ensures ParseHead(HeadText(h.verb, h.path, lines), limits) == Ok(h)
  {
    var version := "HTTP/1.1";
    HeadLines(h.verb, h.path, lines);
    RulesAreRead(h, limits, lines, fields, VerbName(h.verb), version);
    HeadIsRead(HeadText(h.verb, h.path, lines), VerbName(h.verb), h.path, version, lines, limits);
  }

  lemma TransferNamed(fields: seq<Field>, headers: map<string, string>)
    requires Collected(fields, headers)
    ensures "transfer-encoding" in headers <==> Named(fields, "transfer-encoding")
  {
  }

  /** What is parsed was written by the rules. */
  lemma ParsedByRules(head: string, h: Head, limits: Limits) returns (lines: seq<string>, fields: seq<Field>)
    requires ParseHead(head, limits) == Ok(h)
    ensures head == HeadText(h.verb, h.path, lines) && HeadRules(h, limits, lines, fields)
  {
    var parts := SplitBy(head, CRLF);
    lines := parts[1..];
    JoinSplit(head, CRLF);
    assert parts == [parts[0]] + lines;
    LineOfTokens(parts[0], h.verb, h.path);
    RequestLineLacks(h.verb, h.path);
    PathIff(h.path);
    fields := FieldsRead(lines, h.headers);
    TransferNamed(fields, h.headers);
    LengthIff(h.verb, fields, h.headers, h.length);
  }

  lemma LineOfTokens(line: string, verb: Method, path: string)
    requires var tokens := SplitBy(line, " ");
             |tokens| == 3 && tokens[2] == "HTTP/1.1" && MethodNamed(tokens[0]) == Some(verb) && tokens[1] == path
    ensures line == RequestLine(verb, path) && Lacks(path, " ")
  {
    VerbIs(SplitBy(line, " ")[0], verb);
    assert SplitBy(line, " ") == [VerbName(verb), path, "HTTP/1.1"];
    RequestLineIff(line, verb, path);
  }

  lemma FieldsRead(lines: seq<string>, headers: map<string, string>) returns (fields: seq<Field>)
    requires ParseHeaders(lines, map[], false) == Some(headers)
    ensures FieldRules(lines, fields) && AtMostOnce(fields, "content-length") && Collected(fields, headers)
  {
    forall i | 0 <= i < |lines| ensures ParseLine(lines[i]).Some? {
      if ParseLine(lines[i]).None? { BadLine(lines, map[], false, i); }
    }
    fields := LineFields(lines);
    HeadersIff(lines, fields, map[], false);
    CollectedIs(fields, headers);
    forall i | 0 <= i < |lines| ensures FieldRule(lines[i], fields[i]) { FieldIff(lines[i], fields[i]); }
  }

  // ----------------------------------------------------------------- the whole text

  lemma RulesAreFilled(verb: Method, path: string, lines: seq<string>, fields: seq<Field>)
    requires Lacks(path, CRLF) && LinesRule(lines, fields)
    ensures Filled([RequestLine(verb, path)] + lines)
  {
    RequestLineLacks(verb, path);
    forall i | 0 <= i < |lines| ensures lines[i] != "" && Lacks(lines[i], CRLF) {
      assert FieldRule(lines[i], fields[i]);
      var colon: nat :| FieldAt(lines[i], colon, fields[i]);
    }
  }

  lemma HeadIsAnswered(w: string, head: string, h: Head, body: string, limits: Limits)
    requires w == head + DELIMITER + body && IndexOf(w, DELIMITER) == Some(|head|) && |head| + 4 <= limits.header
    requires ParseHead(head, limits) == Ok(h) && h.length == |body|
    ensures OneShot(w, limits) == Done(Request(h.verb, h.path, h.headers, body))
  {
    PrintedParts(head, body);
  }

  lemma RulesAreAnswered(w: string, r: Request, limits: Limits, lines: seq<string>, fields: seq<Field>)
    requires Rules(w, r, limits, lines, fields)
    ensures OneShot(w, limits) == Done(r)
  {
    var h := Head(r.verb, r.path, r.headers, |r.body|);
    RulesAreFilled(r.verb, r.path, lines, fields);
    HeadEndsThere([RequestLine(r.verb, r.path)] + lines, r.body);
    RulesAreParsed(h, limits, lines, fields);
    HeadIsAnswered(w, HeadText(r.verb, r.path, lines), h, r.body, limits);
  }

  lemma CutAt(w: string, pattern: string, k: nat)
    requires IndexOf(w, pattern) == Some(k)
    ensures k + |pattern| <= |w| && w == w[..k] + pattern + w[k + |pattern|..]
  {
    assert w[k..k + |pattern|] == pattern;
  }

  /** The parts of an answered text: its head, the delimiter and the body. */
  lemma AnsweredParts(w: string, r: Request, limits: Limits) returns (head: string)
    requires OneShot(w, limits) == Done(r)
    ensures ParseHead(head, limits) == Ok(Head(r.verb, r.path, r.headers, |r.body|))
    ensures w == head + DELIMITER + r.body && |head| + 4 <= limits.header
  {
    var k := IndexOf(w, DELIMITER).value;
    head := w[..k];
    CutAt(w, DELIMITER, k);
    var h := HeadStage(w, limits).head;
    assert |w| == k + 4 + h.length && r.body == w[k + 4..];
  }

  lemma AnsweredByRules(w: string, r: Request, limits: Limits)
    requires OneShot(w, limits) == Done(r)
    ensures IsRequest(w, r, limits)
  {
    var head := AnsweredParts(w, r, limits);
    var h := Head(r.verb, r.path, r.headers, |r.body|);
    var lines, fields := ParsedByRules(head, h, limits);
    assert Rules(w, r, limits, lines, fields);
  }

  /** The parser answers a request exactly on the texts of the grammar. */
  lemma AcceptedIff(w: string, r: Request, limits: Limits)
    ensures OneShot(w, limits) == Done(r) <==> IsRequest(w, r, limits)
  {
    if OneShot(w, limits) == Done(r) { AnsweredByRules(w, r, limits); }
    if IsRequest(w, r, limits) {
      var lines, fields :| Rules(w, r, limits, lines, fields);
      RulesAreAnswered(w, r, limits, lines, fields);
    }
  }

  // -------------------------------------------------------------------- refused texts

  /** The text begins with this head, the first blank line of it right behind. */
  ghost predicate BeginsWith(w: string, head: string) {
    head + DELIMITER <= w && forall i: nat :: i < |head| ==> !At(w, DELIMITER, i)
  }

  lemma HeadAnswers(w: string, head: string, limits: Limits)
    requires BeginsWith(w, head) && |head| + 4 <= limits.header
    ensures ParseHead(head, limits).Error? ==> OneShot(w, limits) == Failed(ParseHead(head, limits).error)
  {
    assert w[..|head| + 4] == head + DELIMITER;
    assert w[|head|..|head| + 4] == DELIMITER && w[..|head|] == head;
    IndexIs(w, DELIMITER, |head|);
  }

  /** The head is refused as too large exactly when no blank line ends within the limit and more than that has come. */
  lemma HeaderTooLargeIff(w: string, limits: Limits)
    ensures OneShot(w, limits) == Failed(HeaderTooLarge) <==> |w| > limits.header && Lacks(w[..limits.header], DELIMITER)
  {
    var i := IndexOf(w, DELIMITER);
    if |w| > limits.header {
      var p := w[..limits.header];
      if Lacks(p, DELIMITER) {
        if i.Some? && i.value + 4 <= limits.header { AtInPrefix(p, w, DELIMITER, i.value); }
      } else {
        var k: nat :| At(p, DELIMITER, k);
        AtInPrefix(p, w, DELIMITER, k);
      }
    }
  }

  /** The head is a first line and these further lines. */
  ghost predicate SplitsInto(head: string, first: string, lines: seq<string>) {
    head == Join([first] + lines, CRLF) && Lacks(first, CRLF) && forall l :: l in lines ==> Lacks(l, CRLF)
  }

  /** The line is three words between single spaces. */
  ghost predicate ThreeWords(line: string, verb: string, path: string, version: string) {
    line == verb + " " + path + " " + version && Lacks(verb, " ") && Lacks(path, " ") && Lacks(version, " ")
  }

  lemma JoinThree(a: string, b: string, c: string, separator: string)
    ensures Join([a, b, c], separator) == a + separator + b + separator + c
  {
    var parts := [a, b, c];
    assert parts[1..] == [b, c] && parts[1..][1..] == [c];
    assert Join(parts[1..], separator) == b + separator + c;
    assert a + separator + (b + separator + c) == a + separator + b + separator + c;
  }

  lemma WordsSplit(line: string, verb: string, path: string, version: string)
    requires ThreeWords(line, verb, path, version)
    ensures SplitBy(line, " ") == [verb, path, version]
  {
    JoinThree(verb, path, version, " ");
    PartsSplit([verb, path, version], " ");
  }

  lemma SplitIntoWords(line: string, verb: string, path: string, version: string)
    requires SplitBy(line, " ") == [verb, path, version]
    ensures ThreeWords(line, verb, path, version)
  {
    JoinSplit(line, " ");
    JoinThree(verb, path, version, " ");
    assert verb in SplitBy(line, " ") && path in SplitBy(line, " ") && version in SplitBy(line, " ");
  }

  lemma HeadSplitsInto(head: string, first: string, lines: seq<string>)
    requires SplitsInto(head, first, lines)
    ensures SplitBy(head, CRLF) == [first] + lines
  {
    PartsSplit([first] + lines, CRLF);
  }

  /** A head that is no text, or whose first line is not three words ending in the version, is malformed. */
  lemma BadRequestLine(w: string, head: string, first: string, lines: seq<string>, limits: Limits)
    requires BeginsWith(w, head) && |head| + 4 <= limits.header && SplitsInto(head, first, lines)
    requires !limits.utf8(head) || !exists verb, path :: ThreeWords(first, verb, path, "HTTP/1.1")
    ensures OneShot(w, limits) == Failed(MalformedRequest)
  {
    HeadAnswers(w, head, limits);
    HeadSplitsInto(head, first, lines);
    var tokens := SplitBy(first, " ");
    if |tokens| == 3 { SplitIntoWords(first, tokens[0], tokens[1], tokens[2]); }
  }

  /** A line that is no field makes the head malformed. */
  lemma BadFieldLine(w: string, head: string, verb: Method, path: string, lines: seq<string>, i: nat, limits: Limits)
    requires BeginsWith(w, head) && |head| + 4 <= limits.header
    requires SplitsInto(head, RequestLine(verb, path), lines) && Lacks(path, " ") && PathRule(path)
    requires i < |lines| && forall f :: !FieldRule(lines[i], f)
    ensures OneShot(w, limits) == Failed(MalformedRequest)
  {
    HeadAnswers(w, head, limits);
    HeadSplitsInto(head, RequestLine(verb, path), lines);
    RequestLineIff(RequestLine(verb, path), verb, path);
    VerbIs(VerbName(verb), verb);
    PathIff(path);
    NoField(lines[i]);
    BadLine(lines, map[], false, i);
  }

  lemma NoField(line: string)
    requires forall f :: !FieldRule(line, f)
    ensures ParseLine(line).None?
  {
    var r := ParseLine(line);
    if r.Some? { FieldIff(line, Field(r.value.0, r.value.1)); }
  }

  /** The first rule about its fields that a request breaks. */
  ghost function BrokenFields(verb: Method, fields: seq<Field>, limits: Limits): Option<ParseError> {
    if !AtMostOnce(fields, "content-length") then Some(MalformedRequest)
    else if Named(fields, "transfer-encoding") then Some(UnsupportedTransferEncoding)
    else if !exists n: nat :: LengthRule(verb, fields, n) then Some(MalformedRequest)
    else
      var n: nat :| LengthRule(verb, fields, n);
      if n > limits.body then Some(BodyTooLarge)
      else if verb != POST && n > 0 then Some(MalformedRequest)
      else None
  }

  /** The first rule that a request line and fields break. */
  ghost function Broken(verb: string, path: string, version: string, fields: seq<Field>,
      limits: Limits): Option<ParseError> {
    if version != "HTTP/1.1" then Some(MalformedRequest)
    else if !exists m :: verb == VerbName(m) then Some(UnsupportedMethod)
    else if !PathRule(path) then Some(InvalidPath)
    else
      var m :| verb == VerbName(m);
      BrokenFields(m, fields, limits)
  }

  lemma VerbUnknown(verb: string)
    ensures MethodNamed(verb).None? <==> forall m :: verb != VerbName(m)
  {
    if MethodNamed(verb).Some? { VerbIs(verb, MethodNamed(verb).value); }
    forall m | verb == VerbName(m) ensures MethodNamed(verb).Some? { VerbIs(verb, m); }
  }

  lemma LengthUndeclared(verb: Method, fields: seq<Field>, headers: map<string, string>)
    requires Collected(fields, headers) && AtMostOnce(fields, "content-length")
    ensures ContentLength(headers, verb == POST).None? <==> forall n: nat :: !LengthRule(verb, fields, n)
  {
    var r := ContentLength(headers, verb == POST);
    if r.Some? { LengthIff(verb, fields, headers, r.value); }
    forall n: nat | LengthRule(verb, fields, n) ensures r.Some? { LengthIff(verb, fields, headers, n); }
  }

  lemma LengthRefused(verb: Method, path: string, fields: seq<Field>, headers: map<string, string>, limits: Limits)
    requires Collected(fields, headers) && AtMostOnce(fields, "content-length")
    ensures var broken, read := BrokenFields(verb, fields, limits), ReadFields(verb, path, Some(headers), limits);
            if broken.Some? then read == Error(broken.value) else read.Ok?
  {
    TransferNamed(fields, headers);
    LengthUndeclared(verb, fields, headers);
    if exists n: nat :: LengthRule(verb, fields, n) {
      forall n: nat | LengthRule(verb, fields, n) ensures ContentLength(headers, verb == POST) == Some(n) {
        LengthIff(verb, fields, headers, n);
      }
    }
  }

  lemma FieldsRefused(verb: Method, path: string, fields: seq<Field>, limits: Limits)
    ensures var headers := if AtMostOnce(fields, "content-length") then Some(Headers(map[], fields)) else None;
            var broken, read := BrokenFields(verb, fields, limits), ReadFields(verb, path, headers, limits);
            if broken.Some? then read == Error(broken.value) else read.Ok?
  {
    CollectedIs(fields, Headers(map[], fields));
    if AtMostOnce(fields, "content-length") { LengthRefused(verb, path, fields, Headers(map[], fields), limits); }
  }

  lemma OneVerb(name: string, verb: Method)
    requires name == VerbName(verb)
    ensures forall m :: name == VerbName(m) <==> m == verb
  {
  }

  lemma BrokenHead(head: string, verb: string, path: string, version: string, lines: seq<string>, fields: seq<Field>,
                   limits: Limits)
    requires limits.utf8(head) && SplitsInto(head, verb + " " + path + " " + version, lines)
    requires ThreeWords(verb + " " + path + " " + version, verb, path, version) && LinesRule(lines, fields)
    ensures var broken, parsed := Broken(verb, path, version, fields, limits), ParseHead(head, limits);
            if broken.Some? then parsed == Error(broken.value) else parsed.Ok?
  {
    HeadSplitsInto(head, verb + " " + path + " " + version, lines);
    WordsSplit(verb + " " + path + " " + version, verb, path, version);
    HeadIsRead(head, verb, path, version, lines, limits);
    WordsRefused(verb, path, version, lines, fields, limits);
  }

  lemma GoodWords(verb: string, m: Method, path: string, version: string, fields: seq<Field>, limits: Limits)
    requires version == "HTTP/1.1" && verb == VerbName(m) && PathRule(path)
    ensures Broken(verb, path, version, fields, limits) == BrokenFields(m, fields, limits)
  {
    OneVerb(verb, m);
  }

  lemma WordsRefused(verb: string, path: string, version: string, lines: seq<string>, fields: seq<Field>, limits: Limits)
    requires FieldRules(lines, fields)
    ensures var broken, read := Broken(verb, path, version, fields, limits), ReadWords(verb, path, version, lines, limits);
            if broken.Some? then read == Error(broken.value) else read.Ok?
  {
    PathIff(path);
    VerbUnknown(verb);
    if version == "HTTP/1.1" && PathRule(path) && MethodNamed(verb).Some? {
      var m := MethodNamed(verb).value;
      VerbIs(verb, m);
      FieldsAreRead(lines, fields);
      HeadersIff(lines, fields, map[], false);
      FieldsRefused(m, path, fields, limits);
      GoodWords(verb, m, path, version, fields, limits);
    }
  }

  /** Every other head of three words and field lines is refused with the error of the first rule it breaks, whatever
      follows. */
  lemma RefusedByTheFirstBrokenRule(w: string, head: string, verb: string, path: string, version: string,
                                    lines: seq<string>, fields: seq<Field>, limits: Limits)
    requires BeginsWith(w, head) && |head| + 4 <= limits.header && limits.utf8(head)
    requires SplitsInto(head, verb + " " + path + " " + version, lines) && LinesRule(lines, fields)
    requires ThreeWords(verb + " " + path + " " + version, verb, path, version)
    ensures Broken(verb, path, version, fields, limits).Some? ==>
              OneShot(w, limits) == Failed(Broken(verb, path, version, fields, limits).value)
  {
    BrokenHead(head, verb, path, version, lines, fields, limits);
    HeadAnswers(w, head, limits);
  }

  // ------------------------------------------------------------- refused, once printed

  ghost predicate BareFields(fields: seq<Field>) {
    forall i :: 0 <= i < |fields| ==> BareName(fields[i].name) && PlainValue(fields[i].value)
  }

  lemma OneLineLacks(s: string)
    requires OneLine(s)
    ensures Lacks(s, CRLF)
  {
    forall i: nat ensures !At(s, CRLF, i) { if i < |s| { NotAt(s, CRLF, i); } }
  }

  lemma PrintedLines(fields: seq<Field>)
    requires BareFields(fields)
    ensures LinesRule(FieldLines(fields), fields)
  {
    forall i | 0 <= i < |fields| ensures FieldRule(FieldLines(fields)[i], fields[i]) && Lacks(FieldLines(fields)[i], CRLF) {
      FieldLineParses(fields[i]);
      FieldIff(FieldLine(fields[i]), fields[i]);
      OneLineLacks(FieldLine(fields[i]));
    }
  }

  ghost predicate Sent(path: string, fields: seq<Field>, head: string, limits: Limits) {
    PlainPath(path) && BareFields(fields) && |head| + 4 <= limits.header && limits.utf8(head)
  }

  /** A printed request is refused with the error of the first rule its fields break. */
  lemma PrintedIsRefused(verb: Method, path: string, fields: seq<Field>, body: string, limits: Limits, e: ParseError)
    requires Sent(path, fields, PrintHead(verb, path, fields), limits) && BrokenFields(verb, fields, limits) == Some(e)
    ensures OneShot(Print(verb, path, fields, body), limits) == Failed(e)
  {
    var version := "HTTP/1.1";
    var name, head, lines := VerbName(verb), PrintHead(verb, path, fields), FieldLines(fields);
    var w := Print(verb, path, fields, body);
    PathIff(path);
    PrintedLines(fields);
    OneLineLacks(path);
    RequestLineLacks(verb, path);
    RulesAreFilled(verb, path, lines, fields);
    HeadEndsThere([RequestLine(verb, path)] + lines, body);
    LacksIsClean(path, " ");
    RequestLineIff(RequestLine(verb, path), verb, path);
    SplitIntoWords(RequestLine(verb, path), name, path, version);
    GoodWords(name, verb, path, version, fields, limits);
    RefusedByTheFirstBrokenRule(w, head, name, path, version, lines, fields, limits);
  }

  lemma TransferEncodingIsRefused(verb: Method, path: string, fields: seq<Field>, body: string, limits: Limits)
    requires Sent(path, fields, PrintHead(verb, path, fields), limits)
    requires AtMostOnce(fields, "content-length") && Named(fields, "transfer-encoding")
    ensures OneShot(Print(verb, path, fields, body), limits) == Failed(UnsupportedTransferEncoding)
  {
    PrintedIsRefused(verb, path, fields, body, limits, UnsupportedTransferEncoding);
  }

  lemma RepeatedLengthIsRefused(verb: Method, path: string, fields: seq<Field>, body: string, limits: Limits)
    requires Sent(path, fields, PrintHead(verb, path, fields), limits) && !AtMostOnce(fields, "content-length")
    ensures OneShot(Print(verb, path, fields, body), limits) == Failed(MalformedRequest)
  {
    PrintedIsRefused(verb, path, fields, body, limits, MalformedRequest);
  }

  lemma NeverNamed(fields: seq<Field>, name: string)
    requires !Named(fields, name)
    ensures AtMostOnce(fields, name)
  {
    forall i: nat ensures !Names(fields, name, i) {}
  }

  lemma MissingLengthIsRefused(path: string, fields: seq<Field>, body: string, limits: Limits)
    requires Sent(path, fields, PrintHead(POST, path, fields), limits)
    requires !Named(fields, "content-length") && !Named(fields, "transfer-encoding")
    ensures OneShot(Print(POST, path, fields, body), limits) == Failed(MalformedRequest)
  {
    NeverNamed(fields, "content-length");
    PrintedIsRefused(POST, path, fields, body, limits, MalformedRequest);
  }

  lemma OneLength(verb: Method, fields: seq<Field>, n: nat, m: nat)
    requires LengthRule(verb, fields, n) && LengthRule(verb, fields, m)
    ensures n == m
  {
    var name := "content-length";
    if Named(fields, name) {
      var i: nat :| Names(fields, name, i);
    }
  }

  lemma DeclaredIsBroken(verb: Method, fields: seq<Field>, limits: Limits, n: nat)
    requires AtMostOnce(fields, "content-length") && !Named(fields, "transfer-encoding") && LengthRule(verb, fields, n)
    ensures BrokenFields(verb, fields, limits)
            == if n > limits.body then Some(BodyTooLarge) else if verb != POST && n > 0 then Some(MalformedRequest) else None
  {
    forall m: nat | LengthRule(verb, fields, m) ensures m == n { OneLength(verb, fields, n, m); }
  }

  lemma OverlongBodyIsRefused(verb: Method, path: string, fields: seq<Field>, body: string, limits: Limits, n: nat)
    requires Sent(path, fields, PrintHead(verb, path, fields), limits) && n > limits.body
    requires AtMostOnce(fields, "content-length") && !Named(fields, "transfer-encoding") && LengthRule(verb, fields, n)
    ensures OneShot(Print(verb, path, fields, body), limits) == Failed(BodyTooLarge)
  {
    DeclaredIsBroken(verb, fields, limits, n);
    PrintedIsRefused(verb, path, fields, body, limits, BodyTooLarge);
  }

  lemma BodyWithoutPostIsRefused(verb: Method, path: string, fields: seq<Field>, body: string, limits: Limits, n: nat)
    requires Sent(path, fields, PrintHead(verb, path, fields), limits) && 0 < n <= limits.body && verb != POST
    requires AtMostOnce(fields, "content-length") && !Named(fields, "transfer-encoding") && LengthRule(verb, fields, n)
    ensures OneShot(Print(verb, path, fields, body), limits) == Failed(MalformedRequest)
  {
    DeclaredIsBroken(verb, fields, limits, n);
    PrintedIsRefused(verb, path, fields, body, limits, MalformedRequest);
  }
}
