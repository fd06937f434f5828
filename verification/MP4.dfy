/**
 The structural check of a downloaded recording: a walk over the top-level boxes of an
 ISO base media file (ISO/IEC 14496-12, sections 4.2 and 4.3).

 The specification is the other way round: boxes are written down, and a file is
 acceptable when it is what some acceptable list of boxes is written as.
 */
module MP4 {
  import opened Prelude
  import opened BigEndian

  newtype uint64 = x: int | 0 <= x < 0x1_0000_0000_0000_0000

  type FourCC = code: seq<byte> | |code| == 4 witness [0, 0, 0, 0]

  const FTYP: FourCC := [0x66, 0x74, 0x79, 0x70]
  const MOOV: FourCC := [0x6d, 0x6f, 0x6f, 0x76]

  predicate CompatibleBrand(code: seq<byte>) {
    || code == [0x69, 0x73, 0x6f, 0x6d]    // isom
    || code == [0x6d, 0x70, 0x34, 0x31]    // mp41
    || code == [0x6d, 0x70, 0x34, 0x32]    // mp42
    || code == [0x71, 0x74, 0x20, 0x20]    // qt
  }

  // ------------------------------------------------------------------ the format

  /** How a box states its size: 32 bits, 64 bits, or as reaching to the end of the file. */
  datatype Form = Short | Long | ToEnd

  datatype Box = Box(form: Form, kind: FourCC, payload: seq<byte>)

  predicate Sized(b: Box) {
    match b.form
    case Short => 8 + |b.payload| < 0x1_0000_0000
    case Long => 16 + |b.payload| < 0x1_0000_0000_0000_0000
    case ToEnd => true
  }

  function Header(b: Box): seq<byte> {
    match b.form
    case Short => Bytes(8 + |b.payload|, 4) + b.kind
    case Long => Bytes(1, 4) + b.kind + Bytes(16 + |b.payload|, 8)
    case ToEnd => Bytes(0, 4) + b.kind
  }

  function Write(boxes: seq<Box>): seq<byte> {
    if boxes == [] then [] else Header(boxes[0]) + boxes[0].payload + Write(boxes[1..])
  }

  /** Sizes fit their fields, and only the last box reaches to the end. */
  ghost predicate WellFormed(boxes: seq<Box>) {
    && (forall i :: 0 <= i < |boxes| ==> Sized(boxes[i]))
    && (forall i :: 0 <= i < |boxes| - 1 ==> !boxes[i].form.ToEnd?)
  }

  /** A major brand, a minor version, and whole compatible brands. */
  predicate BrandList(payload: seq<byte>) { |payload| >= 8 && (|payload| - 8) % 4 == 0 }

  predicate BrandAt(payload: seq<byte>, p: nat) { p + 4 <= |payload| && CompatibleBrand(payload[p..p + 4]) }

  /** The major brand or a listed brand is compatible; the minor version does not count. */
  predicate NamesCompatibleBrand(payload: seq<byte>)
    requires BrandList(payload)
  {
    BrandAt(payload, 0) || exists p :: 8 <= p < |payload| && p % 4 == 0 && BrandAt(payload, p)
  }

  predicate Playable(boxes: seq<Box>) {
    && boxes != [] && boxes[0].kind == FTYP
    && BrandList(boxes[0].payload) && NamesCompatibleBrand(boxes[0].payload)
    && exists i :: 1 <= i < |boxes| && boxes[i].kind == MOOV
  }

  ghost predicate Acceptable(file: seq<byte>) {
    exists boxes :: WellFormed(boxes) && Playable(boxes) && Write(boxes) == file
  }

  // ------------------------------------------------------------------ one box

  /** The first box of what remains of a file, if its header is complete and its size in range. */
  function FirstBox(rest: seq<byte>): Option<Box> {
    if |rest| < 8 then None
    else
      var size := Value(rest[..4]);
      var kind := rest[4..8];
      if size == 1 then
        if |rest| < 16 || Value(rest[8..16]) < 16 || Value(rest[8..16]) > |rest| then None
        else Some(Box(Long, kind, rest[16..Value(rest[8..16])]))
      else if size == 0 then Some(Box(ToEnd, kind, rest[8..]))
      else if size < 8 || size > |rest| then None
      else Some(Box(Short, kind, rest[8..size]))
  }

  function Length(b: Box): nat { |Header(b)| + |b.payload| }

  function Parse(rest: seq<byte>): Option<seq<Box>>
    decreases |rest|
  {
    if rest == [] then Some([])
    else
      var first := FirstBox(rest);
      if first.None? || Length(first.value) > |rest| || Length(first.value) == 0 then None
      else
        var more := Parse(rest[Length(first.value)..]);
        if more.None? then None else Some([first.value] + more.value)
  }

  lemma FourBytes()
    ensures Power256(4) == 0x1_0000_0000
  {
  }

  /** Where the parts of a concatenation lie. */
  lemma Parts(size: seq<byte>, kind: seq<byte>, tail: seq<byte>)
    requires |size| == 4 && |kind| == 4
    ensures var file := size + kind + tail;
            |file| == 8 + |tail| && file[..4] == size && file[4..8] == kind && file[8..] == tail
  {
  }

  lemma Middle(a: seq<byte>, b: seq<byte>, c: seq<byte>)
    ensures (a + b + c)[|a|..|a| + |b|] == b && (a + b + c)[..|a|] == a
  {
  }

  lemma ShortOfWritten(b: Box, rest: seq<byte>)
    requires b.form.Short? && Sized(b)
    ensures FirstBox(Header(b) + b.payload + rest) == Some(b)
  {
    var n := 8 + |b.payload|;
    var size, file := Bytes(n, 4), Header(b) + b.payload + rest;
    FourBytes();
    ValueOfBytes(n, 4);
    assert file == size + b.kind + (b.payload + rest);
    Parts(size, b.kind, b.payload + rest);
    Middle(Header(b), b.payload, rest);
    assert file[8..n] == b.payload;
  }

  lemma LongOfWritten(b: Box, rest: seq<byte>)
    requires b.form.Long? && Sized(b)
    ensures FirstBox(Header(b) + b.payload + rest) == Some(b)
  {
    var n := 16 + |b.payload|;
    var size, large, file := Bytes(1, 4), Bytes(n, 8), Header(b) + b.payload + rest;
    FourBytes();
    WidthEight();
    ValueOfBytes(1, 4);
    ValueOfBytes(n, 8);
    assert file == size + b.kind + (large + b.payload + rest);
    Parts(size, b.kind, large + b.payload + rest);
    Middle(size + b.kind, large, b.payload + rest);
    assert file == size + b.kind + large + (b.payload + rest);
    assert file[8..16] == large;
    Middle(Header(b), b.payload, rest);
    assert file[16..n] == b.payload;
  }

  lemma ToEndOfWritten(b: Box)
    requires b.form.ToEnd?
    ensures FirstBox(Header(b) + b.payload) == Some(b)
  {
    FourBytes();
    ValueOfBytes(0, 4);
    Parts(Bytes(0, 4), b.kind, b.payload);
  }

  /** Reading a box back gives it, whatever follows, unless it claims the rest of the file. */
  lemma FirstBoxOfWritten(b: Box, rest: seq<byte>)
    requires Sized(b) && (b.form.ToEnd? ==> rest == [])
    ensures FirstBox(Header(b) + b.payload + rest) == Some(b)
  {
    match b.form {
      case Short => ShortOfWritten(b, rest);
      case Long => LongOfWritten(b, rest);
      case ToEnd =>
        assert Header(b) + b.payload + rest == Header(b) + b.payload;
        ToEndOfWritten(b);
    }
  }

  /** What is read as a box is what that box is written as. */
  lemma FirstBoxIsWritten(rest: seq<byte>)
    requires FirstBox(rest).Some?
    ensures var b := FirstBox(rest).value;
            && 8 <= Length(b) <= |rest| && Header(b) + b.payload == rest[..Length(b)]
            && (b.form.Short? ==> Sized(b)) && (b.form.ToEnd? ==> Length(b) == |rest|)
            && (|rest| < 0x1_0000_0000_0000_0000 ==> Sized(b))
  {
    var b := FirstBox(rest).value;
    ValueBound(rest[..4]);
    BytesOfValue(rest[..4]);
    assert rest[..8] == rest[..4] + rest[4..8];
    if b.form.Long? {
      BytesOfValue(rest[8..16]);
      assert rest[..16] == rest[..8] + rest[8..16];
    }
    assert rest[..Length(b)] == rest[..|Header(b)|] + rest[|Header(b)|..Length(b)];
  }

  // ------------------------------------------------------------------ all boxes

  /** Writing and reading back is the identity on well-formed lists of boxes. */
  lemma {:induction false} ParseWritten(boxes: seq<Box>)
    requires WellFormed(boxes)
    ensures Parse(Write(boxes)) == Some(boxes)
    decreases |boxes|
  {
    if boxes != [] {
      var first, more := boxes[0], boxes[1..];
      if first.form.ToEnd? { assert more == []; }
      FirstBoxOfWritten(first, Write(more));
      assert Write(boxes)[Length(first)..] == Write(more);
      assert WellFormed(more);
      ParseWritten(more);
      assert boxes == [first] + more;
    }
  }

  /** And what was read is well-formed and writes to the file it was read from. */
  lemma {:induction false} WriteParsed(file: seq<byte>)
    requires |file| < 0x1_0000_0000_0000_0000 && Parse(file).Some?
    ensures WellFormed(Parse(file).value) && Write(Parse(file).value) == file
    decreases |file|
  {
    if file != [] {
      var first := FirstBox(file).value;
      FirstBoxIsWritten(file);
      var rest := file[Length(first)..];
      WriteParsed(rest);
      var more := Parse(rest).value;
      assert Parse(file).value == [first] + more;
      assert file == file[..Length(first)] + rest;
      FirstThenMore(first, more, rest);
    }
  }

  lemma FirstThenMore(first: Box, more: seq<Box>, rest: seq<byte>)
    requires Sized(first) && WellFormed(more) && Write(more) == rest && (first.form.ToEnd? ==> more == [])
    ensures WellFormed([first] + more) && Write([first] + more) == Header(first) + first.payload + rest
  {
    var boxes := [first] + more;
    assert boxes[1..] == more;
  }

  predicate Plays(file: seq<byte>) { Parse(file).Some? && Playable(Parse(file).value) }

  /** So a file is acceptable exactly when it parses into playable boxes. */
  lemma AcceptableIffPlays(file: seq<byte>)
    requires |file| < 0x1_0000_0000_0000_0000
    ensures Acceptable(file) <==> Plays(file)
  {
    if Acceptable(file) {
      var boxes :| WellFormed(boxes) && Playable(boxes) && Write(boxes) == file;
      ParseWritten(boxes);
    }
    if Parse(file).Some? { WriteParsed(file); }
  }

  // -------------------------------------------------------------------- the walk

  lemma SliceOfRest(file: seq<byte>, offset: nat, i: nat, j: nat)
    requires i <= j && offset + j <= |file|
    ensures file[offset..][i..j] == file[offset + i..offset + j]
  {
  }

  lemma SliceOfSlice(file: seq<byte>, offset: nat, length: nat, i: nat, j: nat)
    requires i <= j <= length && offset + length <= |file|
    ensures file[offset..offset + length][i..j] == file[offset + i..offset + j]
  {
    var slice := file[offset..offset + length];
    assert forall k :: i <= k < j ==> slice[k] == file[offset + k];
    assert |slice[i..j]| == j - i;
  }

  /** Reads `length` bytes at an offset; reading past the end is ruled out, not reported. */
  method ReadAt(file: seq<byte>, offset: uint64, length: uint64) returns (bytes: seq<byte>)
    requires offset as int + length as int <= |file|
    ensures bytes == file[offset as int..offset as int + length as int]
  {
    bytes := file[offset as int..offset as int + length as int];
  }

  /** The 32-bit size and the kind at an offset. */
  method ReadShortHeader(file: seq<byte>, offset: uint64) returns (size: uint64, kind: seq<byte>)
    requires offset as int + 8 <= |file|
    ensures var rest := file[offset as int..]; size as int == Value(rest[..4]) && kind == rest[4..8]
  {
    var header := ReadAt(file, offset, 8);
    SliceOfRest(file, offset as nat, 0, 4);
    SliceOfRest(file, offset as nat, 4, 8);
    SliceOfSlice(file, offset as nat, 8, 0, 4);
    SliceOfSlice(file, offset as nat, 8, 4, 8);
    ValueBound(header[0..4]);
    assert header[..4] == header[0..4];
    size := Value(header[..4]) as uint64;
    kind := header[4..8];
  }

  method ReadLongSize(file: seq<byte>, offset: uint64) returns (size: uint64)
    requires offset as int + 16 <= |file| < 0x8000_0000_0000_0000
    ensures size as int == Value(file[offset as int..][8..16])
  {
    var large := ReadAt(file, offset + 8, 8);
    SliceOfRest(file, offset as nat, 8, 16);
    ValueBound(large);
    WidthEight();
    size := Value(large) as uint64;
  }

  /** The size, header size and kind of the box at an offset; ok is false for an error. */
  method ReadBox(file: seq<byte>, offset: uint64, fileSize: uint64)
    returns (ok: bool, size: uint64, headerSize: uint64, kind: seq<byte>)
    requires fileSize as int == |file| < 0x8000_0000_0000_0000 && offset < fileSize
    ensures ok <==> FirstBox(file[offset as int..]).Some?
    ensures ok ==> Describes(file[offset as int..], size as int, headerSize as int, kind)
  {
    if fileSize - offset < 8 { return false, 0, 0, []; }
    size, kind := ReadShortHeader(file, offset);
    headerSize := 8;
    if size == 1 {
      if fileSize - offset < 16 { return false, 0, 0, []; }
      size := ReadLongSize(file, offset);
      headerSize := 16;
    } else if size == 0 {
      size := fileSize - offset;
    }
    if size < headerSize || size > fileSize - offset { return false, 0, 0, []; }
    return true, size, headerSize, kind;
  }

  /** The numbers read for a box are those of the first box of what remains. */
  ghost predicate Describes(rest: seq<byte>, size: int, headerSize: int, kind: seq<byte>) {
    && FirstBox(rest).Some?
    && var b := FirstBox(rest).value;
    && size == Length(b) && headerSize == |Header(b)| && kind == b.kind
    && 8 <= headerSize <= size <= |rest| && rest[headerSize..size] == b.payload
  }

  method ReadBrand(file: seq<byte>, offset: uint64, ghost payload: seq<byte>, position: uint64) returns (compatible: bool)
    requires offset as int + |payload| <= |file| < 0x8000_0000_0000_0000
    requires payload == file[offset as int..offset as int + |payload|] && position as int + 4 <= |payload|
    ensures compatible <==> BrandAt(payload, position as nat)
  {
    var brand := ReadAt(file, offset + position, 4);
    SliceOfSlice(file, offset as nat, |payload|, position as nat, position as nat + 4);
    compatible := CompatibleBrand(brand);
  }

  /** Whether a brand list is malformed, and whether it names a compatible brand. */
  method ReadBrands(file: seq<byte>, offset: uint64, payloadSize: uint64, ghost payload: seq<byte>)
    returns (ok: bool, compatible: bool)
    requires offset as int + payloadSize as int <= |file| < 0x8000_0000_0000_0000 && |payload| == payloadSize as int
    requires payload == file[offset as int..offset as int + payloadSize as int]
    ensures ok <==> BrandList(payload)
    ensures ok ==> (compatible <==> NamesCompatibleBrand(payload))
  {
    if payloadSize < 8 || (payloadSize - 8) % 4 != 0 { return false, false; }
    compatible := ReadBrand(file, offset, payload, 0);
    var position: uint64 := 8;
    while position < payloadSize
      invariant 8 <= position as int <= |payload| && position % 4 == 0
      invariant compatible <==>
                BrandAt(payload, 0) || exists p :: 8 <= p < position as int && p % 4 == 0 && BrandAt(payload, p)
      decreases payloadSize - position
    {
      var here := ReadBrand(file, offset, payload, position);
      if here { compatible := true; }
      NoMultipleBetween(position as nat);
      position := position + 4;
    }
    return true, compatible;
  }

  lemma NoMultipleBetween(position: nat)
    requires position % 4 == 0
    ensures forall p :: position < p < position + 4 ==> p % 4 != 0
  {
  }

  function Prepend(done: seq<Box>, more: Option<seq<Box>>): Option<seq<Box>> {
    if more.None? then None else Some(done + more.value)
  }

  predicate Good(parsed: Option<seq<Box>>) { parsed.Some? && Playable(parsed.value) }

  /** What parsing gives from each offset on. The trigger keeps the parser folded away from the walk. */
  ghost predicate Tails(file: seq<byte>, tails: seq<Option<seq<Box>>>) {
    && |tails| == |file| + 1
    && forall o {:trigger file[o..]} :: 0 <= o <= |file| ==> tails[o] == Parse(file[o..])
  }

  ghost function TailsOf(file: seq<byte>): (tails: seq<Option<seq<Box>>>)
    ensures Tails(file, tails) && tails[0] == Parse(file)
  {
    assert file[0..] == file;
    seq(|file| + 1, o requires 0 <= o <= |file| => Parse(file[o..]))
  }

  /** The parse goes on at an offset, after the boxes passed. */
  ghost predicate GoesOn(tails: seq<Option<seq<Box>>>, offset: nat, done: seq<Box>) {
    offset < |tails| && tails[0] == Prepend(done, tails[offset])
  }

  /** What the walk has established about the boxes it has passed. */
  ghost predicate Passed(done: seq<Box>, compatible: bool, movie: bool) {
    && (done != [] ==>
        done[0].kind == FTYP && BrandList(done[0].payload) && compatible == NamesCompatibleBrand(done[0].payload))
    && (done == [] ==> !compatible && !movie)
    && (movie <==> exists i :: 1 <= i < |done| && done[i].kind == MOOV)
  }

  lemma TailStep(file: seq<byte>, tails: seq<Option<seq<Box>>>, offset: nat)
    requires Tails(file, tails) && offset < |file|
    ensures FirstBox(file[offset..]).None? ==> tails[offset].None?
    ensures FirstBox(file[offset..]).Some? ==>
              var b := FirstBox(file[offset..]).value;
              8 <= Length(b) && offset + Length(b) <= |file| && tails[offset] == Prepend([b], tails[offset + Length(b)])
  {
    var rest := file[offset..];
    if FirstBox(rest).Some? {
      var b := FirstBox(rest).value;
      FirstBoxIsWritten(rest);
      assert rest[Length(b)..] == file[offset + Length(b)..];
    }
  }

  lemma PrependTwice(done: seq<Box>, b: Box, more: Option<seq<Box>>)
    ensures Prepend(done, Prepend([b], more)) == Prepend(done + [b], more)
  {
    if more.Some? { assert done + ([b] + more.value) == done + [b] + more.value; }
  }

  lemma PassedNext(done: seq<Box>, b: Box, compatible: bool, movie: bool)
    requires Passed(done, compatible, movie) && done != []
    ensures Passed(done + [b], compatible, movie || b.kind == MOOV)
  {
    var next := done + [b];
    assert next[|done|] == b && forall i :: 0 <= i < |done| ==> next[i] == done[i];
  }

  /** The first box decides whether the rest matters. */
  lemma FirstDecides(tails: seq<Option<seq<Box>>>, b: Box, offset: nat)
    requires GoesOn(tails, offset, [b])
    ensures Good(tails[0]) ==> b.kind == FTYP && BrandList(b.payload)
  {
  }

  lemma WalkEnds(parsed: Option<seq<Box>>, done: seq<Box>, compatible: bool, movie: bool)
    requires parsed == Prepend(done, Some([])) && Passed(done, compatible, movie)
    ensures Good(parsed) <==> compatible && movie
  {
    assert done + [] == done;
  }

  /** The checks on the first box. */
  method CheckFirst(file: seq<byte>, kind: seq<byte>, payloadStart: uint64, payloadSize: uint64, ghost b: Box)
    returns (ok: bool, compatible: bool)
    requires payloadStart as int + payloadSize as int <= |file| < 0x8000_0000_0000_0000 && kind == b.kind
    requires |b.payload| == payloadSize as int
    requires b.payload == file[payloadStart as int..payloadStart as int + payloadSize as int]
    ensures ok <==> b.kind == FTYP && BrandList(b.payload)
    ensures ok ==> Passed([b], compatible, false)
  {
    if kind != FTYP { return false, false; }
    ok, compatible := ReadBrands(file, payloadStart, payloadSize, b.payload);
  }

  /** Reads the box at an offset as the next one of the parse. */
  method NextBox(file: seq<byte>, offset: uint64, ghost tails: seq<Option<seq<Box>>>, ghost done: seq<Box>)
    returns (ok: bool, size: uint64, headerSize: uint64, kind: seq<byte>, ghost b: Box)
    requires offset as int < |file| < 0x8000_0000_0000_0000 && Tails(file, tails) && GoesOn(tails, offset as int, done)
    ensures !ok ==> tails[0].None?
    ensures ok ==>
              && 8 <= headerSize as int <= size as int <= |file| - offset as int && kind == b.kind
              && |b.payload| == size as int - headerSize as int
              && file[offset as int + headerSize as int..offset as int + size as int] == b.payload
              && GoesOn(tails, offset as int + size as int, done + [b])
  {
    TailStep(file, tails, offset as nat);
    ok, size, headerSize, kind := ReadBox(file, offset, |file| as uint64);
    b := Box(ToEnd, FTYP, []);
    if ok {
      b := FirstBox(file[offset as int..]).value;
      PrependTwice(done, b, tails[offset as int + size as int]);
      SliceOfRest(file, offset as nat, headerSize as nat, size as nat);
    }
  }

  /** One turn of the walk: an error, or one more box passed. */
  method VisitBox(file: seq<byte>, offset: uint64, boxIndex: nat, compatible: bool, movie: bool,
                  ghost tails: seq<Option<seq<Box>>>, ghost done: seq<Box>)
    returns (ok: bool, next: uint64, nextCompatible: bool, nextMovie: bool, ghost b: Box)
    requires offset as int < |file| < 0x8000_0000_0000_0000 && boxIndex == |done|
    requires Tails(file, tails) && GoesOn(tails, offset as int, done) && Passed(done, compatible, movie)
    ensures !ok ==> !Good(tails[0])
    ensures ok ==> offset < next && GoesOn(tails, next as int, done + [b]) && Passed(done + [b], nextCompatible, nextMovie)
  {
    nextCompatible, nextMovie := compatible, movie;
    var boxSize, headerSize, kind;
    ok, boxSize, headerSize, kind, b := NextBox(file, offset, tails, done);
    next := offset;
    if !ok { return; }
    next := offset + boxSize;
    if boxIndex == 0 {
      assert done + [b] == [b];
      FirstDecides(tails, b, next as int);
      ok, nextCompatible := CheckFirst(file, kind, offset + headerSize, boxSize - headerSize, b);
    } else {
      PassedNext(done, b, compatible, movie);
      nextMovie := movie || kind == MOOV;
    }
  }

  method Walk(file: seq<byte>, ghost tails: seq<Option<seq<Box>>>) returns (valid: bool)
    requires |file| < 0x8000_0000_0000_0000 && Tails(file, tails) && tails[|file|] == Some([]) && GoesOn(tails, 0, [])
    ensures valid <==> Good(tails[0])
  {
    var fileSize := |file| as uint64;
    var offset: uint64 := 0;
    var boxIndex := 0;
    var hasCompatibleBrand, hasMovieBox := false, false;
    ghost var done: seq<Box> := [];
    while offset < fileSize
      invariant boxIndex == |done| && GoesOn(tails, offset as int, done)
      invariant Passed(done, hasCompatibleBrand, hasMovieBox)
      decreases fileSize - offset
    {
      ghost var b;
      var ok;
      ok, offset, hasCompatibleBrand, hasMovieBox, b :=
        VisitBox(file, offset, boxIndex, hasCompatibleBrand, hasMovieBox, tails, done);
      if !ok { return false; }
      done := done + [b];
      boxIndex := boxIndex + 1;
    }
    WalkEnds(tails[0], done, hasCompatibleBrand, hasMovieBox);
    valid := offset == fileSize && hasCompatibleBrand && hasMovieBox;
  }

  lemma WalkBegins(file: seq<byte>)
    ensures var tails := TailsOf(file);
            tails[|file|] == Some([]) && GoesOn(tails, 0, []) && (Good(tails[0]) <==> Plays(file))
  {
    var tails := TailsOf(file);
    assert file[|file|..] == [];
    if tails[0].Some? { assert [] + tails[0].value == tails[0].value; }
  }

  /** The walk accepts a regular file exactly when it is written boxes that can be played. */
  method Validate(file: seq<byte>, regular: bool) returns (valid: bool)
    requires |file| < 0x8000_0000_0000_0000
    ensures valid <==> regular && Acceptable(file)
  {
    AcceptableIffPlays(file);
    if !regular { return false; }
    if |file| < 8 {
      ShortFilesDoNotPlay(file);
      return false;
    }
    WalkBegins(file);
    valid := Walk(file, TailsOf(file));
  }

  lemma ShortFilesDoNotPlay(file: seq<byte>)
    requires |file| < 8
    ensures !Plays(file)
  {
  }
}
