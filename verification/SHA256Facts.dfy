/**
 What the functions and constants of SHA-256 are, said without the words they are computed
 with: rotations and shifts bit by bit, Ch as a choice, Maj as a majority, the sigma
 functions as parities of three bits, and the constants as the first bits of the fractional
 parts of roots of the first primes (sections 3.2, 4.1.2, 4.2.2 and 5.3.3 of FIPS 180-4).
 */
module SHA256Facts {
  import opened Prelude
  import opened SHA256

  /** Bit i of a word, bit 0 being the least significant. */
  predicate On(x: Word, i: nat) { Bit(x as nat, i) }

  // ----------------------------------------------------------- the logical operations

  lemma OperationBits(op: Operation, x: Word, y: Word, i: nat)
    requires i < 32
    ensures On(OnWords(op, x, y), i) == Combine(op, On(x, i), On(y, i))
  {
    WordRange();
    BitOfBitwise(op, x as nat, y as nat, 32, i);
  }

  lemma {:induction false} ComplementBits(x: nat, y: nat, width: nat, i: nat)
    requires i < width && x + y == Power2(width) - 1
    ensures Bit(y, i) == !Bit(x, i)
    decreases i
  {
    if i > 0 { ComplementBits(x / 2, y / 2, width - 1, i - 1); }
  }

  lemma NotBits(x: Word, i: nat)
    requires i < 32
    ensures On(Not(x), i) == !On(x, i)
  {
    WordRange();
    ComplementBits(x as nat, Not(x) as nat, 32, i);
  }

  // -------------------------------------------------------------- shifts and rotations

  lemma {:induction false} RightBits(x: Word, n: nat, i: nat)
    ensures On(ShiftRight(x, n), i) == On(x, i + n)
    decreases n
  {
    if n > 0 {
      RightBits(x / 2, n - 1, i);
      assert (x / 2) as nat == x as nat / 2;
    }
  }

  lemma {:induction false} HighBits(x: nat, width: nat, i: nat)
    requires x < Power2(width) && i >= width
    ensures !Bit(x, i)
    decreases width
  {
    if width > 0 { HighBits(x / 2, width - 1, i - 1); } else { ZeroBits(i); }
  }

  lemma {:induction false} ZeroBits(i: nat)
    ensures !Bit(0, i)
  {
    if i > 0 { ZeroBits(i - 1); }
  }

  lemma {:induction false} LeftBits(x: nat, n: nat, i: nat)
    ensures Bit(x * Power2(n), i) == (i >= n && Bit(x, i - n))
    decreases n
  {
    if n > 0 {
      assert x * Power2(n) == 2 * (x * Power2(n - 1));
      if i > 0 { LeftBits(x, n - 1, i - 1); }
    } else {
      assert x * Power2(0) == x;
    }
  }

  /** The low bits of a number are those of its remainder. */
  lemma {:induction false} RemainderBits(x: nat, width: nat, i: nat)
    requires i < width
    ensures Bit(x % Power2(width), i) == Bit(x, i)
    decreases i
  {
    HalfOfRemainder(x, Power2(width - 1));
    if i > 0 { RemainderBits(x / 2, width - 1, i - 1); }
  }

  lemma HalfOfRemainder(x: nat, m: nat)
    requires m > 0
    ensures (x % (2 * m)) / 2 == (x / 2) % m && (x % (2 * m)) % 2 == x % 2
  {
    var q, r := x / (2 * m), x % (2 * m);
    assert x == 2 * (m * q) + r;
    assert x / 2 == m * q + r / 2 && r / 2 < m;
    RemainderIs(x / 2, m, q, r / 2);
  }

  lemma RemainderIs(x: nat, m: nat, q: nat, r: nat)
    requires m > 0 && x == m * q + r && r < m
    ensures x % m == r
  {
    var p, s := x / m, x % m;
    SameQuotient(m, p, s, q, r);
  }

  lemma SameQuotient(m: int, p: int, s: int, q: int, r: int)
    requires m > 0 && 0 <= s < m && 0 <= r < m && m * p + s == m * q + r
    ensures p == q
  {
    var d := p - q;
    assert m * d == r - s;
    if d > 0 { AtLeast(m, d); } else if d < 0 { AtLeast(m, -d); }
  }

  lemma AtLeast(m: int, d: int)
    requires m > 0 && d > 0
    ensures m * d >= m
  {
  }

  lemma ShiftLeftBits(x: Word, n: nat, i: nat)
    requires i < 32
    ensures On(ShiftLeft(x, n), i) == (i >= n && On(x, i - n))
  {
    WordRange();
    RemainderBits(x as nat * Power2(n), 32, i);
    LeftBits(x as nat, n, i);
  }

  lemma ShiftRightBits(x: Word, n: nat, i: nat)
    ensures On(ShiftRight(x, n), i) == (i + n < 32 && On(x, i + n))
  {
    RightBits(x, n, i);
    WordRange();
    if i + n >= 32 { HighBits(x as nat, 32, i + n); }
  }

  lemma Around(i: nat, n: nat)
    requires i < 32 && n < 32
    ensures (i + n) % 32 == if i + n < 32 then i + n else i - (32 - n)
  {
  }

  /** Rotating right by n moves every bit n places down, the lowest n bits round to the top. */
  lemma RotateBits(x: Word, n: nat, i: nat)
    requires 0 < n < 32 && i < 32
    ensures On(Rotate(x, n), i) == On(x, (i + n) % 32)
  {
    var right, left := ShiftRight(x, n), ShiftLeft(x, 32 - n);
    OperationBits(Disjunction, right, left, i);
    ShiftRightBits(x, n, i);
    ShiftLeftBits(x, 32 - n, i);
    Around(i, n);
  }

  // ------------------------------------------------------------- the functions of 4.1.2

  /** Ch takes the bit of y where x has one, and that of z elsewhere. */
  lemma ChChooses(x: Word, y: Word, z: Word, i: nat)
    requires i < 32
    ensures On(Ch(x, y, z), i) == if On(x, i) then On(y, i) else On(z, i)
  {
    OperationBits(Conjunction, x, y, i);
    NotBits(x, i);
    OperationBits(Conjunction, Not(x), z, i);
    OperationBits(Exclusive, And(x, y), And(Not(x), z), i);
  }

  function Ones(a: bool, b: bool, c: bool): nat {
    (if a then 1 else 0) + (if b then 1 else 0) + (if c then 1 else 0)
  }

  /** Maj has a bit where at least two of its arguments have one. */
  lemma MajIsMajority(x: Word, y: Word, z: Word, i: nat)
    requires i < 32
    ensures On(Maj(x, y, z), i) == (Ones(On(x, i), On(y, i), On(z, i)) >= 2)
  {
    OperationBits(Conjunction, x, y, i);
    OperationBits(Conjunction, x, z, i);
    OperationBits(Conjunction, y, z, i);
    ThreeBits(And(x, y), And(x, z), And(y, z), i);
  }

  lemma ThreeBits(a: Word, b: Word, c: Word, i: nat)
    requires i < 32
    ensures On(Xor(Xor(a, b), c), i) == (Ones(On(a, i), On(b, i), On(c, i)) % 2 == 1)
  {
    OperationBits(Exclusive, a, b, i);
    OperationBits(Exclusive, Xor(a, b), c, i);
  }

  lemma RotatedThrice(x: Word, n: nat, m: nat, k: nat, i: nat)
    requires 0 < n < 32 && 0 < m < 32 && 0 < k < 32 && i < 32
    ensures On(Xor(Xor(Rotate(x, n), Rotate(x, m)), Rotate(x, k)), i)
            == (Ones(On(x, (i + n) % 32), On(x, (i + m) % 32), On(x, (i + k) % 32)) % 2 == 1)
  {
    RotateBits(x, n, i);
    RotateBits(x, m, i);
    RotateBits(x, k, i);
    ThreeBits(Rotate(x, n), Rotate(x, m), Rotate(x, k), i);
  }

  lemma RotatedAndShifted(x: Word, n: nat, m: nat, k: nat, i: nat)
    requires 0 < n < 32 && 0 < m < 32 && i < 32
    ensures On(Xor(Xor(Rotate(x, n), Rotate(x, m)), ShiftRight(x, k)), i)
            == (Ones(On(x, (i + n) % 32), On(x, (i + m) % 32), i + k < 32 && On(x, i + k)) % 2 == 1)
  {
    RotateBits(x, n, i);
    RotateBits(x, m, i);
    ShiftRightBits(x, k, i);
    ThreeBits(Rotate(x, n), Rotate(x, m), ShiftRight(x, k), i);
  }

  /** Each sigma function is the parity of three bits, at the distances the standard gives. */
  lemma BigSigma0Bits(x: Word, i: nat)
    requires i < 32
    ensures On(BigSigma0(x), i) == (Ones(On(x, (i + 2) % 32), On(x, (i + 13) % 32), On(x, (i + 22) % 32)) % 2 == 1)
  {
    RotatedThrice(x, 2, 13, 22, i);
  }

  lemma BigSigma1Bits(x: Word, i: nat)
    requires i < 32
    ensures On(BigSigma1(x), i) == (Ones(On(x, (i + 6) % 32), On(x, (i + 11) % 32), On(x, (i + 25) % 32)) % 2 == 1)
  {
    RotatedThrice(x, 6, 11, 25, i);
  }

  lemma SmallSigma0Bits(x: Word, i: nat)
    requires i < 32
    ensures On(SmallSigma0(x), i)
            == (Ones(On(x, (i + 7) % 32), On(x, (i + 18) % 32), i + 3 < 32 && On(x, i + 3)) % 2 == 1)
  {
    RotatedAndShifted(x, 7, 18, 3, i);
  }

  lemma SmallSigma1Bits(x: Word, i: nat)
    requires i < 32
    ensures On(SmallSigma1(x), i)
            == (Ones(On(x, (i + 17) % 32), On(x, (i + 19) % 32), i + 10 < 32 && On(x, i + 10)) % 2 == 1)
  {
    RotatedAndShifted(x, 17, 19, 10, i);
  }

  /** A word is determined by its bits, so these say all there is to say. */
  lemma {:induction false} BitsDetermine(x: nat, y: nat, width: nat)
    requires x < Power2(width) && y < Power2(width) && forall i :: 0 <= i < width ==> Bit(x, i) == Bit(y, i)
    ensures x == y
    decreases width
  {
    if width > 0 {
      assert Bit(x, 0) == Bit(y, 0);
      forall i | 0 <= i < width - 1 ensures Bit(x / 2, i) == Bit(y / 2, i) { assert Bit(x, i + 1) == Bit(y, i + 1); }
      BitsDetermine(x / 2, y / 2, width - 1);
    }
  }

  // ------------------------------------------------------------------------ primes

  predicate Divides(d: nat, n: nat)
    requires d > 0
  {
    n % d == 0
  }

  ghost predicate IsPrime(n: nat) {
    n >= 2 && forall d :: 2 <= d < n ==> !Divides(d, n)
  }

  lemma OtherDivisor(n: nat, d: nat) returns (e: nat)
    requires 2 <= d < n && Divides(d, n)
    ensures n == d * e && 2 <= e < n && Divides(e, n)
  {
    e := n / d;
    assert n == d * e;
    assert e != 0 && e != 1;
    RemainderIs(n, e, d, 0);
  }

  // ----------------------------------------------------- the first sixty-four primes

  lemma FactorOfFactor(n: nat, d: nat, f: nat)
    requires f > 0 && d > 0 && d % f == 0 && Divides(d, n)
    ensures n % f == 0
  {
    var e, q := d / f, n / d;
    assert n == d * q && d == f * e;
    assert n == f * (e * q);
    RemainderIs(n, f, e * q, 0);
  }

  lemma SmallFactor(n: nat, d: nat)
    requires 2 <= d <= 18 && Divides(d, n)
    ensures !Sieved(n)
  {
    var f := if d % 2 == 0 then 2 else if d % 3 == 0 then 3 else d;
    assert d % f == 0 && f in [2, 3, 5, 7, 11, 13, 17];
    FactorOfFactor(n, d, f);
  }

  lemma SquareGrows(d: nat, m: nat)
    ensures d >= m ==> d * d >= m * m
  {
    if d >= m { assert d * d == m * m + (d - m) * (d + m); }
  }

  /** None of the primes up to 17 divides the number. */
  predicate Sieved(n: nat) {
    n % 2 != 0 && n % 3 != 0 && n % 5 != 0 && n % 7 != 0 && n % 11 != 0 && n % 13 != 0 && n % 17 != 0
  }

  lemma Smaller(d: nat, e: nat)
    ensures if e < d then e * e <= d * e else d * d <= d * e
  {
    if e < d { assert d * e == e * e + (d - e) * e; } else { assert d * e == d * d + d * (e - d); }
  }

  /** What two and three leave. */
  lemma Wheel(n: nat)
    ensures n % 2 != 0 && n % 3 != 0 ==> n == 6 * (n / 6) + 1 || n == 6 * (n / 6) + 5
  {
    var h, r := n / 6, n % 6;
    assert n == 6 * h + r;
    RemainderIs(n, 2, 3 * h + r / 2, r % 2);
    RemainderIs(n, 3, 2 * h + r / 3, r % 3);
  }

  /** A composite number has a divisor no greater than its square root. */
  lemma CompositeHas(n: nat) returns (d: nat)
    requires n >= 2 && !IsPrime(n)
    ensures 2 <= d < n && d * d <= n && Divides(d, n)
  {
    d :| 2 <= d < n && Divides(d, n);
    var e := OtherDivisor(n, d);
    Smaller(d, e);
    if e < d { d := e; }
  }

  lemma SieveDecides(n: nat)
    requires 17 < n < 361
    ensures IsPrime(n) <==> Sieved(n)
  {
    if IsPrime(n) {
      assert !Divides(2, n) && !Divides(3, n) && !Divides(5, n) && !Divides(7, n);
      assert !Divides(11, n) && !Divides(13, n) && !Divides(17, n);
    } else {
      var d := CompositeHas(n);
      SquareGrows(d, 19);
      SmallFactor(n, d);
    }
  }

  /** Eight of the first primes. */
  function PrimeRow(r: nat): (row: seq<nat>)
    requires r < 8
    ensures |row| == 8
  {
    match r
    case 0 => [2, 3, 5, 7, 11, 13, 17, 19]
    case 1 => [23, 29, 31, 37, 41, 43, 47, 53]
    case 2 => [59, 61, 67, 71, 73, 79, 83, 89]
    case 3 => [97, 101, 103, 107, 109, 113, 127, 131]
    case 4 => [137, 139, 149, 151, 157, 163, 167, 173]
    case 5 => [179, 181, 191, 193, 197, 199, 211, 223]
    case 6 => [227, 229, 233, 239, 241, 251, 257, 263]
    case _ => [269, 271, 277, 281, 283, 293, 307, 311]
  }

  /** The numbers after the last prime of the row before, up to the last of this one. */
  predicate InRow(r: nat, n: nat)
    requires r < 8
  {
    (if r == 0 then 2 else PrimeRow(r - 1)[7] + 1) <= n <= PrimeRow(r)[7]
  }

  lemma SmallSieve(n: nat)
    requires 2 <= n < 25
    ensures IsPrime(n) <==> n == 2 || n == 3 || (n % 2 != 0 && n % 3 != 0)
  {
    if !IsPrime(n) {
      var d := CompositeHas(n);
      SquareGrows(d, 5);
      FactorOfFactor(n, d, if d == 3 then 3 else 2);
    } else if n > 3 {
      assert !Divides(2, n) && !Divides(3, n);
    }
  }

  lemma SmallRow(n: nat)
    requires 2 <= n <= 19
    ensures IsPrime(n) <==> n in [2, 3, 5, 7, 11, 13, 17, 19]
  {
    SmallSieve(n);
  }

  lemma Low1(n: nat)
    requires 20 <= n <= 37
    ensures Sieved(n) <==> n in [23, 29, 31, 37]
  {
    Wheel(n);
  }

  lemma High1(n: nat)
    requires 38 <= n <= 53
    ensures Sieved(n) <==> n in [41, 43, 47, 53]
  {
    Wheel(n);
  }

  lemma Row1(n: nat)
    requires 20 <= n <= 53
    ensures Sieved(n) <==> n in PrimeRow(1)
  {
    if n <= 37 { Low1(n); } else { High1(n); }
  }

  lemma Low2(n: nat)
    requires 54 <= n <= 71
    ensures Sieved(n) <==> n in [59, 61, 67, 71]
  {
    Wheel(n);
  }

  lemma High2(n: nat)
    requires 72 <= n <= 89
    ensures Sieved(n) <==> n in [73, 79, 83, 89]
  {
    Wheel(n);
  }

  lemma Row2(n: nat)
    requires 54 <= n <= 89
    ensures Sieved(n) <==> n in PrimeRow(2)
  {
    if n <= 71 { Low2(n); } else { High2(n); }
  }

  lemma Low3(n: nat)
    requires 90 <= n <= 107
    ensures Sieved(n) <==> n in [97, 101, 103, 107]
  {
    Wheel(n);
  }

  lemma High3(n: nat)
    requires 108 <= n <= 131
    ensures Sieved(n) <==> n in [109, 113, 127, 131]
  {
    Wheel(n);
  }

  lemma Row3(n: nat)
    requires 90 <= n <= 131
    ensures Sieved(n) <==> n in PrimeRow(3)
  {
    if n <= 107 { Low3(n); } else { High3(n); }
  }

  lemma Low4(n: nat)
    requires 132 <= n <= 151
    ensures Sieved(n) <==> n in [137, 139, 149, 151]
  {
    Wheel(n);
  }

  lemma High4(n: nat)
    requires 152 <= n <= 173
    ensures Sieved(n) <==> n in [157, 163, 167, 173]
  {
    Wheel(n);
  }

  lemma Row4(n: nat)
    requires 132 <= n <= 173
    ensures Sieved(n) <==> n in PrimeRow(4)
  {
    if n <= 151 { Low4(n); } else { High4(n); }
  }

  lemma Low5(n: nat)
    requires 174 <= n <= 193
    ensures Sieved(n) <==> n in [179, 181, 191, 193]
  {
    Wheel(n);
  }

  lemma High5(n: nat)
    requires 194 <= n <= 223
    ensures Sieved(n) <==> n in [197, 199, 211, 223]
  {
    Wheel(n);
  }

  lemma Row5(n: nat)
    requires 174 <= n <= 223
    ensures Sieved(n) <==> n in PrimeRow(5)
  {
    if n <= 193 { Low5(n); } else { High5(n); }
  }

  lemma Low6(n: nat)
    requires 224 <= n <= 239
    ensures Sieved(n) <==> n in [227, 229, 233, 239]
  {
    Wheel(n);
  }

  lemma High6(n: nat)
    requires 240 <= n <= 263
    ensures Sieved(n) <==> n in [241, 251, 257, 263]
  {
    Wheel(n);
  }

  lemma Row6(n: nat)
    requires 224 <= n <= 263
    ensures Sieved(n) <==> n in PrimeRow(6)
  {
    if n <= 239 { Low6(n); } else { High6(n); }
  }

  lemma Low7(n: nat)
    requires 264 <= n <= 281
    ensures Sieved(n) <==> n in [269, 271, 277, 281]
  {
    Wheel(n);
  }

  lemma Middle7(n: nat)
    requires 282 <= n <= 295
    ensures Sieved(n) <==> n in [283, 293]
  {
    Wheel(n);
  }

  lemma High7(n: nat)
    requires 296 <= n <= 311
    ensures Sieved(n) <==> n in [307, 311]
  {
    Wheel(n);
  }

  lemma Row7(n: nat)
    requires 264 <= n <= 311
    ensures Sieved(n) <==> n in PrimeRow(7)
  {
    if n <= 281 { Low7(n); } else if n <= 295 { Middle7(n); } else { High7(n); }
  }

  /** The rows hold the first sixty-four primes: every prime up to 311, and nothing else. */
  lemma RowsAreThePrimes(r: nat, n: nat)
    requires r < 8 && InRow(r, n)
    ensures IsPrime(n) <==> n in PrimeRow(r)
  {
    if r == 0 {
      SmallRow(n);
    } else {
      SieveDecides(n);
      match r {
        case 1 => Row1(n); case 2 => Row2(n); case 3 => Row3(n); case 4 => Row4(n);
        case 5 => Row5(n); case 6 => Row6(n); case _ => Row7(n);
      }
    }
  }

  // ------------------------------------------------------------------- the constants

  /** The number is the integer part of the cube root of p, thirty-two binary places moved. */
  predicate ShiftedCubeRoot(p: nat, c: nat) {
    c * c * c <= p * 0x1_0000_0000_0000_0000_0000_0000 < (c + 1) * (c + 1) * (c + 1)
  }

  predicate ShiftedSquareRoot(p: nat, c: nat) {
    c * c <= p * 0x1_0000_0000_0000_0000 < (c + 1) * (c + 1)
  }

  /** The word is the first thirty-two bits of the fractional part of such a root. */
  ghost predicate CubeRootBits(p: nat, k: Word) {
    exists whole: nat :: ShiftedCubeRoot(p, whole * 0x1_0000_0000 + k as nat)
  }

  ghost predicate SquareRootBits(p: nat, k: Word) {
    exists whole: nat :: ShiftedSquareRoot(p, whole * 0x1_0000_0000 + k as nat)
  }

  lemma CubeRootIs(p: nat, whole: nat, k: Word)
    requires ShiftedCubeRoot(p, whole * 0x1_0000_0000 + k as nat)
    ensures CubeRootBits(p, k)
  {
  }

  lemma SquareRootIs(p: nat, whole: nat, k: Word)
    requires ShiftedSquareRoot(p, whole * 0x1_0000_0000 + k as nat)
    ensures SquareRootBits(p, k)
  {
  }

  ghost predicate RowOfCubeRoots(r: nat)
    requires r < 8
  {
    forall j :: 0 <= j < 8 ==> CubeRootBits(PrimeRow(r)[j], ConstantRow(r)[j])
  }

  lemma CubeRootRow0()
    ensures RowOfCubeRoots(0)
  {
    CubeRootIs(2, 1, 0x428a_2f98);
    CubeRootIs(3, 1, 0x7137_4491);
    CubeRootIs(5, 1, 0xb5c0_fbcf);
    CubeRootIs(7, 1, 0xe9b5_dba5);
    CubeRootIs(11, 2, 0x3956_c25b);
    CubeRootIs(13, 2, 0x59f1_11f1);
    CubeRootIs(17, 2, 0x923f_82a4);
    CubeRootIs(19, 2, 0xab1c_5ed5);
  }

  lemma CubeRootRow1()
    ensures RowOfCubeRoots(1)
  {
    CubeRootIs(23, 2, 0xd807_aa98);
    CubeRootIs(29, 3, 0x1283_5b01);
    CubeRootIs(31, 3, 0x2431_85be);
    CubeRootIs(37, 3, 0x550c_7dc3);
    CubeRootIs(41, 3, 0x72be_5d74);
    CubeRootIs(43, 3, 0x80de_b1fe);
    CubeRootIs(47, 3, 0x9bdc_06a7);
    CubeRootIs(53, 3, 0xc19b_f174);
  }

  lemma CubeRootRow2()
    ensures RowOfCubeRoots(2)
  {
    CubeRootIs(59, 3, 0xe49b_69c1);
    CubeRootIs(61, 3, 0xefbe_4786);
    CubeRootIs(67, 4, 0x0fc1_9dc6);
    CubeRootIs(71, 4, 0x240c_a1cc);
    CubeRootIs(73, 4, 0x2de9_2c6f);
    CubeRootIs(79, 4, 0x4a74_84aa);
    CubeRootIs(83, 4, 0x5cb0_a9dc);
    CubeRootIs(89, 4, 0x76f9_88da);
  }

  lemma CubeRootRow3()
    ensures RowOfCubeRoots(3)
  {
    CubeRootIs(97, 4, 0x983e_5152);
    CubeRootIs(101, 4, 0xa831_c66d);
    CubeRootIs(103, 4, 0xb003_27c8);
    CubeRootIs(107, 4, 0xbf59_7fc7);
    CubeRootIs(109, 4, 0xc6e0_0bf3);
    CubeRootIs(113, 4, 0xd5a7_9147);
    CubeRootIs(127, 5, 0x06ca_6351);
    CubeRootIs(131, 5, 0x1429_2967);
  }

  lemma CubeRootRow4()
    ensures RowOfCubeRoots(4)
  {
    CubeRootIs(137, 5, 0x27b7_0a85);
    CubeRootIs(139, 5, 0x2e1b_2138);
    CubeRootIs(149, 5, 0x4d2c_6dfc);
    CubeRootIs(151, 5, 0x5338_0d13);
    CubeRootIs(157, 5, 0x650a_7354);
    CubeRootIs(163, 5, 0x766a_0abb);
    CubeRootIs(167, 5, 0x81c2_c92e);
    CubeRootIs(173, 5, 0x9272_2c85);
  }

  lemma CubeRootRow5()
    ensures RowOfCubeRoots(5)
  {
    CubeRootIs(179, 5, 0xa2bf_e8a1);
    CubeRootIs(181, 5, 0xa81a_664b);
    CubeRootIs(191, 5, 0xc24b_8b70);
    CubeRootIs(193, 5, 0xc76c_51a3);
    CubeRootIs(197, 5, 0xd192_e819);
    CubeRootIs(199, 5, 0xd699_0624);
    CubeRootIs(211, 5, 0xf40e_3585);
    CubeRootIs(223, 6, 0x106a_a070);
  }

  lemma CubeRootRow6()
    ensures RowOfCubeRoots(6)
  {
    CubeRootIs(227, 6, 0x19a4_c116);
    CubeRootIs(229, 6, 0x1e37_6c08);
    CubeRootIs(233, 6, 0x2748_774c);
    CubeRootIs(239, 6, 0x34b0_bcb5);
    CubeRootIs(241, 6, 0x391c_0cb3);
    CubeRootIs(251, 6, 0x4ed8_aa4a);
    CubeRootIs(257, 6, 0x5b9c_ca4f);
    CubeRootIs(263, 6, 0x682e_6ff3);
  }

  lemma CubeRootRow7()
    ensures RowOfCubeRoots(7)
  {
    CubeRootIs(269, 6, 0x748f_82ee);
    CubeRootIs(271, 6, 0x78a5_636f);
    CubeRootIs(277, 6, 0x84c8_7814);
    CubeRootIs(281, 6, 0x8cc7_0208);
    CubeRootIs(283, 6, 0x90be_fffa);
    CubeRootIs(293, 6, 0xa450_6ceb);
    CubeRootIs(307, 6, 0xbef9_a3f7);
    CubeRootIs(311, 6, 0xc671_78f2);
  }

  /** Each round constant is the first bits of the fractional part of the cube root of its prime. */
  lemma ConstantsAreCubeRoots(t: nat)
    requires t < 64
    ensures CubeRootBits(PrimeRow(t / 8)[t % 8], Constants()[t])
  {
    match t / 8 {
      case 0 => CubeRootRow0(); case 1 => CubeRootRow1(); case 2 => CubeRootRow2(); case 3 => CubeRootRow3();
      case 4 => CubeRootRow4(); case 5 => CubeRootRow5(); case 6 => CubeRootRow6(); case _ => CubeRootRow7();
    }
  }

  /** And each word of the initial hash value that of the square root of its prime. */
  lemma InitialHashIsSquareRoots(t: nat)
    requires t < 8
    ensures SquareRootBits(PrimeRow(0)[t], INITIAL_HASH[t])
  {
    SquareRootIs(2, 1, 0x6a09_e667);
    SquareRootIs(3, 1, 0xbb67_ae85);
    SquareRootIs(5, 2, 0x3c6e_f372);
    SquareRootIs(7, 2, 0xa54f_f53a);
    SquareRootIs(11, 3, 0x510e_527f);
    SquareRootIs(13, 3, 0x9b05_688c);
    SquareRootIs(17, 4, 0x1f83_d9ab);
    SquareRootIs(19, 4, 0x5be0_cd19);
  }
}
