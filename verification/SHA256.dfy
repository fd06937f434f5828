/**
 SHA-256 as the loops compute it, against FIPS 180-4 (sections 3.2, 4.1.2, 4.2.2,
 5.1.1, 5.2.1, 5.3.3 and 6.2.2) written as recursive functions.

 A word is an integer below 2^32: addition wraps, a shift multiplies or divides by a
 power of two, and the logical operations are defined bit by bit.
 */
module SHA256 {
  import opened Prelude
  import opened BigEndian

  const WORDS := 0x1_0000_0000

  newtype Word = x: int | 0 <= x < WORDS

  // ------------------------------------------------ operations on words, section 3.2

  function Power2(n: nat): (p: nat)
    ensures p > 0
  {
    if n == 0 then 1 else 2 * Power2(n - 1)
  }

  datatype Operation = Conjunction | Disjunction | Exclusive

  predicate Combine(op: Operation, a: bool, b: bool) {
    match op case Conjunction => a && b case Disjunction => a || b case Exclusive => a != b
  }

  /** The number whose bits are op of the corresponding bits of x and y, width bits wide. */
  function Bitwise(op: Operation, x: nat, y: nat, width: nat): (z: nat)
    ensures z < Power2(width)
  {
    if width == 0 then 0
    else 2 * Bitwise(op, x / 2, y / 2, width - 1) + if Combine(op, x % 2 == 1, y % 2 == 1) then 1 else 0
  }

  predicate Bit(x: nat, i: nat) {
    if i == 0 then x % 2 == 1 else Bit(x / 2, i - 1)
  }

  lemma {:induction false} BitOfBitwise(op: Operation, x: nat, y: nat, width: nat, i: nat)
    requires i < width
    ensures Bit(Bitwise(op, x, y, width), i) == Combine(op, Bit(x, i), Bit(y, i))
    decreases i
  {
    if i > 0 { BitOfBitwise(op, x / 2, y / 2, width - 1, i - 1); }
  }

  function OnWords(op: Operation, x: Word, y: Word): Word {
    WordRange();
    Bitwise(op, x as nat, y as nat, 32) as Word
  }

  lemma WordRange()
    ensures Power2(32) == WORDS
  {
    assert Power2(8) == 256 && Power2(16) == 256 * 256 && Power2(24) == 256 * 256 * 256;
  }

  function And(x: Word, y: Word): Word { OnWords(Conjunction, x, y) }
  function Or(x: Word, y: Word): Word { OnWords(Disjunction, x, y) }
  function Xor(x: Word, y: Word): Word { OnWords(Exclusive, x, y) }
  function Not(x: Word): Word { (WORDS - 1 - x as int) as Word }
  function Plus(x: Word, y: Word): Word {
    if x as int + y as int < WORDS then x + y else (x as int + y as int - WORDS) as Word
  }
  function ShiftRight(x: Word, n: nat): Word { if n == 0 then x else ShiftRight(x / 2, n - 1) }
  function ShiftLeft(x: Word, n: nat): Word { ((x as nat * Power2(n)) % WORDS) as Word }

  // ------------------------------------------------- functions, section 4.1.2

  function Rotate(x: Word, n: nat): Word
    requires 0 < n < 32
  {
    Or(ShiftRight(x, n), ShiftLeft(x, 32 - n))
  }

  function Ch(x: Word, y: Word, z: Word): Word { Xor(And(x, y), And(Not(x), z)) }
  function Maj(x: Word, y: Word, z: Word): Word { Xor(Xor(And(x, y), And(x, z)), And(y, z)) }
  function BigSigma0(x: Word): Word { Xor(Xor(Rotate(x, 2), Rotate(x, 13)), Rotate(x, 22)) }
  function BigSigma1(x: Word): Word { Xor(Xor(Rotate(x, 6), Rotate(x, 11)), Rotate(x, 25)) }
  function SmallSigma0(x: Word): Word { Xor(Xor(Rotate(x, 7), Rotate(x, 18)), ShiftRight(x, 3)) }
  function SmallSigma1(x: Word): Word { Xor(Xor(Rotate(x, 17), Rotate(x, 19)), ShiftRight(x, 10)) }

  // ------------------------------------------------ constants, sections 4.2.2 and 5.3.3

  /** Eight of the round constants. */
  function ConstantRow(r: nat): (row: seq<Word>)
    requires r < 8
    ensures |row| == 8
  {
    match r
    case 0 => [0x428a_2f98, 0x7137_4491, 0xb5c0_fbcf, 0xe9b5_dba5, 0x3956_c25b, 0x59f1_11f1, 0x923f_82a4, 0xab1c_5ed5]
    case 1 => [0xd807_aa98, 0x1283_5b01, 0x2431_85be, 0x550c_7dc3, 0x72be_5d74, 0x80de_b1fe, 0x9bdc_06a7, 0xc19b_f174]
    case 2 => [0xe49b_69c1, 0xefbe_4786, 0x0fc1_9dc6, 0x240c_a1cc, 0x2de9_2c6f, 0x4a74_84aa, 0x5cb0_a9dc, 0x76f9_88da]
    case 3 => [0x983e_5152, 0xa831_c66d, 0xb003_27c8, 0xbf59_7fc7, 0xc6e0_0bf3, 0xd5a7_9147, 0x06ca_6351, 0x1429_2967]
    case 4 => [0x27b7_0a85, 0x2e1b_2138, 0x4d2c_6dfc, 0x5338_0d13, 0x650a_7354, 0x766a_0abb, 0x81c2_c92e, 0x9272_2c85]
    case 5 => [0xa2bf_e8a1, 0xa81a_664b, 0xc24b_8b70, 0xc76c_51a3, 0xd192_e819, 0xd699_0624, 0xf40e_3585, 0x106a_a070]
    case 6 => [0x19a4_c116, 0x1e37_6c08, 0x2748_774c, 0x34b0_bcb5, 0x391c_0cb3, 0x4ed8_aa4a, 0x5b9c_ca4f, 0x682e_6ff3]
    case _ => [0x748f_82ee, 0x78a5_636f, 0x84c8_7814, 0x8cc7_0208, 0x90be_fffa, 0xa450_6ceb, 0xbef9_a3f7, 0xc671_78f2]
  }

  function Constants(): (k: seq<Word>)
    ensures |k| == 64 && forall t :: 0 <= t < 64 ==> k[t] == ConstantRow(t / 8)[t % 8]
  {
    seq(64, t requires 0 <= t < 64 => ConstantRow(t / 8)[t % 8])
  }

  /** The eight working variables, or a hash value: a to h of section 6.2.2 in order. */
  type Eight = words: seq<Word> | |words| == 8 witness [0, 0, 0, 0, 0, 0, 0, 0]

  const INITIAL_HASH: Eight :=
    [0x6a09_e667, 0xbb67_ae85, 0x3c6e_f372, 0xa54f_f53a, 0x510e_527f, 0x9b05_688c, 0x1f83_d9ab, 0x5be0_cd19]

  // ------------------------------------------------------------- padding, section 5.1.1

  function Zeros(n: nat): (z: seq<byte>)
    ensures |z| == n && forall i :: 0 <= i < n ==> z[i] == 0
  {
    seq(n, _ => 0 as byte)
  }

  /** The number of zero bytes between the 0x80 byte and the length. */
  function ZeroCount(length: nat): nat { (55 - length) % 64 }

  function Pad(message: seq<byte>): seq<byte> {
    message + [0x80] + Zeros(ZeroCount(|message|)) + Bytes(8 * |message|, 8)
  }

  // -------------------------------------------------- schedule and compression (6.2.2)

  /** The big-endian value of the four bytes at a position. */
  function WordAt(bytes: seq<byte>, start: nat): Word
    requires start + 4 <= |bytes|
  {
    ValueBound(bytes[start..start + 4]);
    Value(bytes[start..start + 4]) as Word
  }

  function Schedule(block: seq<byte>, t: nat): Word
    requires |block| == 64
  {
    if t < 16 then WordAt(block, 4 * t)
    else Plus(Plus(Plus(SmallSigma1(Schedule(block, t - 2)), Schedule(block, t - 7)),
                   SmallSigma0(Schedule(block, t - 15))), Schedule(block, t - 16))
  }

  function Round(s: Eight, k: Word, w: Word): Eight {
    var (a, b, c, d) := (s[0], s[1], s[2], s[3]);
    var (e, f, g, h) := (s[4], s[5], s[6], s[7]);
    var t1 := Plus(Plus(Plus(Plus(h, BigSigma1(e)), Ch(e, f, g)), k), w);
    var t2 := Plus(BigSigma0(a), Maj(a, b, c));
    [Plus(t1, t2), a, b, c, Plus(d, t1), e, f, g]
  }

  /** The working variables after t rounds. */
  function Rounds(s: Eight, block: seq<byte>, t: nat): Eight
    requires |block| == 64 && t <= 64
  {
    if t == 0 then s else Round(Rounds(s, block, t - 1), Constants()[t - 1], Schedule(block, t - 1))
  }

  function Add(s: Eight, t: Eight): Eight {
    seq(8, i requires 0 <= i < 8 => Plus(s[i], t[i]))
  }

  function Compress(s: Eight, block: seq<byte>): Eight
    requires |block| == 64
  {
    Add(s, Rounds(s, block, 64))
  }

  function Block(bytes: seq<byte>, i: nat): (block: seq<byte>)
    requires 64 * i + 64 <= |bytes|
    ensures |block| == 64
  {
    bytes[64 * i..64 * i + 64]
  }

  /** n steps from a start value, step i being given its number. */
  function Iterate(step: (Eight, nat) -> Eight, start: Eight, n: nat): Eight {
    if n == 0 then start else step(Iterate(step, start, n - 1), n - 1)
  }

  /** The compression of block i, as a step. */
  function BlockStep(bytes: seq<byte>): (Eight, nat) -> Eight {
    (hash: Eight, i: nat) => if 64 * i + 64 <= |bytes| then Compress(hash, Block(bytes, i)) else hash
  }

  /** The hash value after the first n blocks. */
  function HashBlocks(bytes: seq<byte>, n: nat): Eight {
    Iterate(BlockStep(bytes), INITIAL_HASH, n)
  }

  function Concat(words: seq<Word>): (bytes: seq<byte>)
    ensures |bytes| == 4 * |words|
  {
    if words == [] then [] else Concat(words[..|words| - 1]) + Bytes(words[|words| - 1] as int, 4)
  }

  /** SHA-256 of a message. */
  function Hash(message: seq<byte>): (digest: seq<byte>)
    ensures |digest| == 32
  {
    Concat(HashBlocks(Pad(message), |Pad(message)| / 64))
  }

  lemma ZeroCountAligns(length: nat)
    ensures ZeroCount(length) < 64 && (length + 1 + ZeroCount(length)) % 64 == 56
  {
    var q := (55 - length) / 64;
    assert length + 1 + ZeroCount(length) == 56 + 64 * -q;
  }

  lemma ZeroCountIsFirst(length: nat, zeros: nat)
    requires zeros <= ZeroCount(length) && (length + 1 + zeros) % 64 == 56
    ensures zeros == ZeroCount(length)
  {
    ZeroCountAligns(length);
  }

  lemma PaddedLength(message: seq<byte>)
    ensures |Pad(message)| % 64 == 0 && |Pad(message)| == |message| + 1 + ZeroCount(|message|) + 8
  {
    ZeroCountAligns(|message|);
    EightMore(|message| + 1 + ZeroCount(|message|));
  }

  lemma EightMore(n: nat)
    requires n % 64 == 56
    ensures (n + 8) % 64 == 0
  {
  }

  // ----------------------------------------------------------------- about the padding

  /** Padding ends on a block boundary, and no shorter block-aligned text has room for the marker and the length. */
  lemma PaddingIsMinimal(message: seq<byte>, length: nat)
    requires length % 64 == 0 && length >= |message| + 1 + 8
    ensures |Pad(message)| % 64 == 0 && |message| + 9 <= |Pad(message)| <= length
  {
    PaddedLength(message);
    ZeroCountAligns(|message|);
    Aligned(|Pad(message)|, length);
  }

  lemma Aligned(a: nat, b: nat)
    requires a % 64 == 0 && b % 64 == 0 && a < b + 64
    ensures a <= b
  {
  }

  /** Different messages are padded differently. */
  lemma PaddingIsInjective(m: seq<byte>, n: seq<byte>)
    requires |m| < 0x2000_0000_0000_0000 && |n| < 0x2000_0000_0000_0000 && Pad(m) == Pad(n)
    ensures m == n
  {
    WidthEight();
    assert Pad(m)[|Pad(m)| - 8..] == Bytes(8 * |m|, 8);
    assert Pad(n)[|Pad(n)| - 8..] == Bytes(8 * |n|, 8);
    ValueOfBytes(8 * |m|, 8);
    ValueOfBytes(8 * |n|, 8);
    assert Pad(m)[..|m|] == m && Pad(n)[..|n|] == n;
  }

  // ------------------------------------------------------------------ the computation

  /** Or of a number shifted left by k bits and one of k bits puts them side by side. */
  lemma {:induction false} OrSideBySide(x: nat, low: nat, k: nat, width: nat)
    requires low < Power2(k) && k <= width && x < Power2(width - k)
    ensures Bitwise(Disjunction, x * Power2(k), low, width) == x * Power2(k) + low
  {
    if k == 0 {
      OrWithZero(x, width);
    } else {
      assert x * Power2(k) == 2 * (x * Power2(k - 1));
      OrSideBySide(x, low / 2, k - 1, width - 1);
    }
  }

  lemma {:induction false} OrWithZero(x: nat, width: nat)
    requires x < Power2(width)
    ensures Bitwise(Disjunction, x, 0, width) == x
  {
    if width > 0 { OrWithZero(x / 2, width - 1); }
  }

  lemma SmallPowersOfTwo()
    ensures Power2(8) == 256 && Power2(24) == 0x100_0000
  {
    assert Power2(8) == 256 && Power2(16) == 256 * 256;
  }

  lemma ShiftedByte(word: Word)
    requires word < 0x100_0000
    ensures ShiftLeft(word, 8) as int == 256 * word as int
  {
    SmallPowersOfTwo();
  }

  lemma PushByte(word: Word, b: byte)
    requires word < 0x100_0000
    ensures Or(ShiftLeft(word, 8), b as Word) as int == 256 * word as int + b as int
  {
    SmallPowersOfTwo();
    ShiftedByte(word);
    OrSideBySide(word as nat, b as nat, 8, 32);
  }

  lemma SmallPowers()
    ensures Power256(1) == 0x100 && Power256(2) == 0x1_0000 && Power256(3) == 0x100_0000
  {
  }

  method BigEndianWord(bytes: seq<byte>) returns (word: Word)
    requires |bytes| == 4
    ensures word == WordAt(bytes, 0)
  {
    word := 0;
    for i := 0 to 4
      invariant word as int == Value(bytes[..i])
    {
      assert bytes[..i + 1][..i] == bytes[..i];
      ValueBound(bytes[..i]);
      SmallPowers();
      PushByte(word, bytes[i]);
      word := Or(ShiftLeft(word, 8), bytes[i] as Word);
    }
    assert bytes[..4] == bytes == bytes[0..4];
  }

  lemma SumOrder(a: Word, b: Word, c: Word, d: Word)
    ensures Plus(Plus(Plus(a, b), c), d) == Plus(Plus(Plus(d, c), b), a)
  {
  }

  /** The first sixteen words of the schedule are the block's own. */
  method LoadBlock(words: array<Word>, bytes: seq<byte>, offset: nat)
    requires words.Length == 64 && offset + 64 <= |bytes|
    modifies words
    ensures forall t :: 0 <= t < 16 ==> words[t] == Schedule(bytes[offset..offset + 64], t)
  {
    ghost var block := bytes[offset..offset + 64];
    for index := 0 to 16
      invariant forall t :: 0 <= t < index ==> words[t] == Schedule(block, t)
    {
      var start := offset + index * 4;
      var part := bytes[start..start + 4];
      words[index] := BigEndianWord(part);
      WordOfPart(bytes, offset, index);
    }
  }

  lemma WordOfPart(bytes: seq<byte>, offset: nat, index: nat)
    requires offset + 64 <= |bytes| && index < 16
    ensures WordAt(bytes[offset + index * 4..offset + index * 4 + 4], 0) == Schedule(bytes[offset..offset + 64], index)
  {
    var part, block := bytes[offset + index * 4..offset + index * 4 + 4], bytes[offset..offset + 64];
    var there := block[4 * index..4 * index + 4];
    assert forall j :: 0 <= j < 4 ==> part[j] == bytes[offset + index * 4 + j] == there[j];
    assert part[0..4] == part == there;
  }

  method NextWord(w16: Word, w15: Word, w7: Word, w2: Word) returns (word: Word)
    ensures word == Plus(Plus(Plus(SmallSigma1(w2), w7), SmallSigma0(w15)), w16)
  {
    var s0 := Xor(Xor(Rotate(w15, 7), Rotate(w15, 18)), ShiftRight(w15, 3));
    var s1 := Xor(Xor(Rotate(w2, 17), Rotate(w2, 19)), ShiftRight(w2, 10));
    SumOrder(w16, s0, w7, s1);
    word := Plus(Plus(Plus(w16, s0), w7), s1);
  }

  /** The other words of the schedule follow from them. */
  method ExpandSchedule(words: array<Word>, ghost block: seq<byte>)
    requires words.Length == 64 && |block| == 64
    requires forall t :: 0 <= t < 16 ==> words[t] == Schedule(block, t)
    modifies words
    ensures forall t :: 0 <= t < 64 ==> words[t] == Schedule(block, t)
  {
    for index := 16 to 64
      invariant forall t :: 0 <= t < index ==> words[t] == Schedule(block, t)
    {
      words[index] := NextWord(words[index - 16], words[index - 15], words[index - 7], words[index - 2]);
    }
  }

  /** One round on the list of working variables. */
  method RoundOnList(work: Eight, constant: Word, word: Word) returns (next: Eight)
    ensures next == Round(work, constant, word)
  {
    var s1 := Xor(Xor(Rotate(work[4], 6), Rotate(work[4], 11)), Rotate(work[4], 25));
    var choice := Xor(And(work[4], work[5]), And(Not(work[4]), work[6]));
    var temp1 := Plus(Plus(Plus(Plus(work[7], s1), choice), constant), word);
    var s0 := Xor(Xor(Rotate(work[0], 2), Rotate(work[0], 13)), Rotate(work[0], 22));
    var majority := Xor(Xor(And(work[0], work[1]), And(work[0], work[2])), And(work[1], work[2]));
    var temp2 := Plus(s0, majority);
    next := [Plus(temp1, temp2), work[0], work[1], work[2], Plus(work[3], temp1), work[4], work[5], work[6]];
  }

  method RunRounds(hash: Eight, words: array<Word>, ghost block: seq<byte>) returns (work: Eight)
    requires words.Length == 64 && |block| == 64
    requires forall t :: 0 <= t < 64 ==> words[t] == Schedule(block, t)
    ensures work == Rounds(hash, block, 64)
  {
    var constants := Constants();
    work := hash;
    for index := 0 to 64
      invariant work == Rounds(hash, block, index)
    {
      work := RoundOnList(work, constants[index], words[index]);
    }
  }

  method AddWords(hash: Eight, work: Eight) returns (sum: Eight)
    ensures sum == Add(hash, work)
  {
    sum := hash;
    for i := 0 to 8
      invariant forall j :: 0 <= j < 8 ==> sum[j] == if j < i then Plus(hash[j], work[j]) else hash[j]
    {
      sum := sum[i := Plus(sum[i], work[i])];
    }
  }

  method Padded(data: seq<byte>) returns (bytes: seq<byte>)
    requires |data| < 0x2000_0000_0000_0000
    ensures bytes == Pad(data)
  {
    bytes := data;
    var bitCount := |bytes| * 8;
    bytes := bytes + [0x80];
    ghost var zeros := 0;
    ZeroCountAligns(|data|);
    while |bytes| % 64 != 56
      invariant zeros <= ZeroCount(|data|) && bytes == data + [0x80] + Zeros(zeros)
      decreases ZeroCount(|data|) - zeros
    {
      bytes := bytes + [0];
      zeros := zeros + 1;
    }
    ZeroCountIsFirst(|data|, zeros);
    bytes := bytes + Bytes(bitCount, 8);
  }

  /** The hash value after the block at an offset. */
  method HashBlock(hash: Eight, bytes: seq<byte>, offset: nat, ghost block: seq<byte>) returns (next: Eight)
    requires offset + 64 <= |bytes| && block == bytes[offset..offset + 64]
    ensures next == Compress(hash, block)
  {
    var words := new Word[64](_ => 0);
    LoadBlock(words, bytes, offset);
    ExpandSchedule(words, block);
    var work := RunRounds(hash, words, block);
    next := AddWords(hash, work);
  }

  /** The trigger keeps the compression function folded where only the order of blocks matters. */
  ghost predicate Compresses(step: (Eight, nat) -> Eight, bytes: seq<byte>, blocks: nat) {
    && |bytes| == 64 * blocks
    && forall hash: Eight, i: nat {:trigger step(hash, i), Block(bytes, i)} ::
         i < blocks ==> step(hash, i) == Compress(hash, Block(bytes, i))
  }

  method HashNext(hash: Eight, bytes: seq<byte>, offset: nat, ghost n: nat, ghost blocks: nat,
      ghost step: (Eight, nat) -> Eight)
    returns (next: Eight)
    requires Compresses(step, bytes, blocks) && n < blocks && offset == 64 * n
    ensures next == step(hash, n)
  {
    next := HashBlock(hash, bytes, offset, Block(bytes, n));
  }

  lemma WholeBlocks(offset: nat, n: nat, blocks: nat)
    requires offset == 64 * n && n <= blocks
    ensures if offset < 64 * blocks then n < blocks && offset + 64 <= 64 * blocks else n == blocks
  {
  }

  method HashAll(bytes: seq<byte>, ghost blocks: nat, ghost step: (Eight, nat) -> Eight) returns (hash: Eight)
    requires Compresses(step, bytes, blocks)
    ensures hash == Iterate(step, INITIAL_HASH, blocks)
  {
    ghost var n := 0;
    hash := INITIAL_HASH;
    var offset := 0;
    while offset < |bytes|
      invariant 0 <= n <= blocks && offset == 64 * n
      invariant hash == Iterate(step, INITIAL_HASH, n)
    {
      WholeBlocks(offset, n, blocks);
      hash := HashNext(hash, bytes, offset, n, blocks, step);
      offset := offset + 64;
      n := n + 1;
    }
    WholeBlocks(offset, n, blocks);
  }

  lemma BlockStepCompresses(bytes: seq<byte>, blocks: nat)
    requires |bytes| == 64 * blocks
    ensures Compresses(BlockStep(bytes), bytes, blocks)
  {
  }

  /** The big-endian bytes of each word in turn. */
  method Flatten(words: seq<Word>) returns (bytes: seq<byte>)
    ensures bytes == Concat(words)
  {
    bytes := [];
    for i := 0 to |words|
      invariant bytes == Concat(words[..i])
    {
      assert words[..i + 1][..i] == words[..i];
      bytes := bytes + Bytes(words[i] as int, 4);
    }
    assert words[..|words|] == words;
  }

  /** The loops compute SHA-256 of every message whose bit length fits 64 bits. */
  method Digest(data: seq<byte>) returns (digest: seq<byte>)
    requires |data| < 0x2000_0000_0000_0000
    ensures digest == Hash(data)
  {
    var bytes := Padded(data);
    PaddedLength(data);
    ghost var blocks := |bytes| / 64;
    BlockStepCompresses(bytes, blocks);
    var hash := HashAll(bytes, blocks, BlockStep(bytes));
    digest := Flatten(hash);
  }

  // ------------------------------------------------------------------------ hexadecimal

  function HexDigit(n: nat): char
    requires n < 16
  {
    if n < 10 then ('0' as int + n) as char else ('a' as int + n - 10) as char
  }

  predicate IsHexDigit(c: char) { '0' <= c <= '9' || 'a' <= c <= 'f' }

  function Hex(bytes: seq<byte>): string {
    if bytes == [] then ""
    else Hex(bytes[..|bytes| - 1]) + [HexDigit(bytes[|bytes| - 1] as int / 16), HexDigit(bytes[|bytes| - 1] as int % 16)]
  }

  /** Two lower-case digits a byte. */
  lemma {:induction false} HexDigits(bytes: seq<byte>)
    ensures |Hex(bytes)| == 2 * |bytes| && forall i :: 0 <= i < |Hex(bytes)| ==> IsHexDigit(Hex(bytes)[i])
  {
    if bytes != [] { HexDigits(bytes[..|bytes| - 1]); }
  }

  /** And different bytes give different text. */
  lemma {:induction false} HexIsInjective(a: seq<byte>, b: seq<byte>)
    requires Hex(a) == Hex(b)
    ensures a == b
    decreases |a|
  {
    HexDigits(a);
    HexDigits(b);
    if a != [] {
      var x, y := a[|a| - 1], b[|b| - 1];
      var s, t := Hex(a), Hex(b);
      assert s[..|s| - 2] == Hex(a[..|a| - 1]) && t[..|t| - 2] == Hex(b[..|b| - 1]);
      HexIsInjective(a[..|a| - 1], b[..|b| - 1]);
      assert s[|s| - 2] == t[|t| - 2] && s[|s| - 1] == t[|t| - 1];
      assert x as int / 16 == y as int / 16 && x as int % 16 == y as int % 16;
      assert a == a[..|a| - 1] + [x] && b == b[..|b| - 1] + [y];
    }
  }

  /** The text of a digest is 64 lower-case hexadecimal digits. */
  method HexDigest(data: seq<byte>) returns (text: string)
    requires |data| < 0x2000_0000_0000_0000
    ensures text == Hex(Hash(data))
    ensures |text| == 64 && forall i :: 0 <= i < 64 ==> IsHexDigit(text[i])
  {
    var digest := Digest(data);
    text := "";
    for i := 0 to |digest|
      invariant text == Hex(digest[..i])
    {
      assert digest[..i + 1][..i] == digest[..i];
      text := text + [HexDigit(digest[i] as int / 16), HexDigit(digest[i] as int % 16)];
    }
    assert digest[..|digest|] == digest;
    HexDigits(digest);
  }
}
