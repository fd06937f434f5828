/**
 Text operations the request parser uses: searching, splitting, trimming, ASCII
 case, decimal numbers. A character stands for one byte of the wire.
 */
module HTTPText {
  import opened Prelude

  // ------------------------------------------------------------------- searching

  predicate At(s: string, pattern: string, i: nat) {
    i + |pattern| <= |s| && s[i..i + |pattern|] == pattern
  }

  /** The first occurrence of a pattern. */
  function IndexOf(s: string, pattern: string): (r: Option<nat>)
    ensures r.Some? ==> At(s, pattern, r.value) && forall i :: 0 <= i < r.value ==> !At(s, pattern, i)
    ensures r.None? ==> forall i :: 0 <= i <= |s| ==> !At(s, pattern, i)
  {
    IndexFrom(s, pattern, 0)
  }

  function IndexFrom(s: string, pattern: string, from: nat): (r: Option<nat>)
    requires from <= |s| + 1
    ensures r.Some? ==> from <= r.value && At(s, pattern, r.value) && forall i :: from <= i < r.value ==> !At(s, pattern, i)
    ensures r.None? ==> forall i :: from <= i <= |s| ==> !At(s, pattern, i)
    decreases |s| + 1 - from
  {
    if from > |s| then None
    else if At(s, pattern, from) then Some(from)
    else IndexFrom(s, pattern, from + 1)
  }

  /** The first occurrence is determined by being one with none before it. */
  lemma IndexIs(s: string, pattern: string, k: nat)
    requires At(s, pattern, k) && forall i :: 0 <= i < k ==> !At(s, pattern, i)
    ensures IndexOf(s, pattern) == Some(k)
  {
    var r := IndexOf(s, pattern);
    assert r.Some? && r.value <= k;
  }

  lemma NotAt(s: string, pattern: string, i: nat)
    requires pattern != "" && i < |s| && s[i] != pattern[0]
    ensures !At(s, pattern, i)
  {
    if i + |pattern| <= |s| { assert s[i..i + |pattern|][0] == s[i]; }
  }

  /** An occurrence inside a prefix is an occurrence in the whole, and the other way round. */
  lemma AtInPrefix(p: string, w: string, pattern: string, i: nat)
    requires p <= w && i + |pattern| <= |p|
    ensures At(p, pattern, i) <==> At(w, pattern, i)
  {
    assert p[i..i + |pattern|] == w[i..i + |pattern|];
  }

  /** Once found, the first occurrence stays where it is as the text grows. */
  lemma IndexStable(p: string, w: string, pattern: string)
    requires p <= w && IndexOf(p, pattern).Some?
    ensures IndexOf(w, pattern) == IndexOf(p, pattern)
  {
    var k := IndexOf(p, pattern).value;
    AtInPrefix(p, w, pattern, k);
    forall i | 0 <= i < k ensures !At(w, pattern, i) { AtInPrefix(p, w, pattern, i); }
    IndexIs(w, pattern, k);
  }

  /** What a longer text contains and a prefix does not must reach beyond the prefix. */
  lemma IndexBeyond(p: string, w: string, pattern: string)
    requires p <= w && IndexOf(p, pattern).None? && IndexOf(w, pattern).Some?
    ensures IndexOf(w, pattern).value + |pattern| > |p|
  {
    var k := IndexOf(w, pattern).value;
    if k + |pattern| <= |p| { AtInPrefix(p, w, pattern, k); }
  }

  // -------------------------------------------------------------------- splitting

  /** components(separatedBy:) */
  function SplitBy(s: string, separator: string): (parts: seq<string>)
    requires separator != ""
    ensures parts != []
    decreases |s|
  {
    var i := IndexOf(s, separator);
    if i.None? then [s] else [s[..i.value]] + SplitBy(s[i.value + |separator|..], separator)
  }

  function Join(parts: seq<string>, separator: string): string
    requires parts != []
  {
    if |parts| == 1 then parts[0] else parts[0] + separator + Join(parts[1..], separator)
  }

  /** No character of the separator's first occurs in the part. */
  ghost predicate Clean(part: string, c: char) {
    forall i :: 0 <= i < |part| ==> part[i] != c
  }

  lemma FirstSeparator(part: string, separator: string, rest: string)
    requires separator != "" && Clean(part, separator[0])
    ensures IndexOf(part + separator + rest, separator) == Some(|part|)
  {
    var s := part + separator + rest;
    assert s[|part|..|part| + |separator|] == separator;
    forall i | 0 <= i < |part| ensures !At(s, separator, i) {
      assert s[i] == part[i];
      NotAt(s, separator, i);
    }
    IndexIs(s, separator, |part|);
  }

  lemma NoSeparator(part: string, separator: string)
    requires separator != "" && Clean(part, separator[0])
    ensures IndexOf(part, separator) == None
  {
    forall i | 0 <= i < |part| ensures !At(part, separator, i) { NotAt(part, separator, i); }
  }

  /** Joining clean parts and splitting again gives the parts back. */
  lemma {:induction false} SplitJoin(parts: seq<string>, separator: string)
    requires parts != [] && separator != "" && forall p :: p in parts ==> Clean(p, separator[0])
    ensures SplitBy(Join(parts, separator), separator) == parts
    decreases |parts|
  {
    if |parts| == 1 {
      NoSeparator(parts[0], separator);
    } else {
      var rest := Join(parts[1..], separator);
      FirstSeparator(parts[0], separator, rest);
      var s := parts[0] + separator + rest;
      assert s[..|parts[0]|] == parts[0] && s[|parts[0]| + |separator|..] == rest;
      SplitJoin(parts[1..], separator);
    }
  }

  // ---------------------------------------------------------------- trimming, case

  predicate Blank(c: char) { c == ' ' || c == '\t' }

  function TrimStart(s: string): string {
    if s != "" && Blank(s[0]) then TrimStart(s[1..]) else s
  }

  function TrimEnd(s: string): string {
    if s != "" && Blank(s[|s| - 1]) then TrimEnd(s[..|s| - 1]) else s
  }

  function Trim(s: string): string { TrimEnd(TrimStart(s)) }

  /** No blank at either end. */
  predicate Trimmed(s: string) {
    s != "" ==> !Blank(s[0]) && !Blank(s[|s| - 1])
  }

  lemma TrimPadded(s: string)
    requires Trimmed(s)
    ensures Trim(" " + s) == s
  {
    assert (" " + s)[1..] == s;
    assert TrimStart(s) == s && TrimEnd(s) == s;
    assert TrimStart(" " + s) == TrimStart(s);
  }

  function LowerChar(c: char): char {
    if 'A' <= c <= 'Z' then (c as int + 32) as char else c
  }

  function Lower(s: string): (r: string)
    ensures |r| == |s| && forall i :: 0 <= i < |s| ==> r[i] == LowerChar(s[i])
  {
    if s == "" then "" else [LowerChar(s[0])] + Lower(s[1..])
  }

  function Count(s: string, c: char): nat {
    if s == "" then 0 else (if s[0] == c then 1 else 0) + Count(s[1..], c)
  }

  lemma {:induction false} CountConcat(s: string, t: string, c: char)
    ensures Count(s + t, c) == Count(s, c) + Count(t, c)
  {
    if s == "" { assert s + t == t; }
    else {
      assert (s + t)[1..] == s[1..] + t;
      CountConcat(s[1..], t, c);
    }
  }

  lemma {:induction false} CountClean(s: string, c: char)
    requires Clean(s, c)
    ensures Count(s, c) == 0
  {
    if s != "" {
      assert s[0] != c && forall i :: 0 <= i < |s[1..]| ==> s[1..][i] == s[i + 1];
      CountClean(s[1..], c);
    }
  }

  // ---------------------------------------------------------------------- decimals

  const INT64_LIMIT := 0x8000_0000_0000_0000

  predicate IsDigit(c: char) { '0' <= c <= '9' }

  predicate AllDigits(s: string) {
    forall i :: 0 <= i < |s| ==> IsDigit(s[i])
  }

  function DecimalValue(s: string): nat
    requires AllDigits(s)
  {
    if s == "" then 0 else 10 * DecimalValue(s[..|s| - 1]) + (s[|s| - 1] as int - '0' as int)
  }

  function Decimal(n: nat): (s: string)
    ensures s != "" && AllDigits(s)
  {
    var digit := [('0' as int + n % 10) as char];
    if n < 10 then digit else Decimal(n / 10) + digit
  }

  lemma {:induction false} DecimalRoundTrip(n: nat)
    ensures DecimalValue(Decimal(n)) == n
    decreases n
  {
    var digit := [('0' as int + n % 10) as char];
    if n < 10 {
      assert digit[..0] == "";
    } else {
      DecimalRoundTrip(n / 10);
      var s := Decimal(n / 10) + digit;
      assert s[..|s| - 1] == Decimal(n / 10);
    }
  }
}
