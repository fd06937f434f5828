/** Big-endian numbers: their bytes, their values, and that each determines the other. */
module BigEndian {
  import opened Prelude

  function Power256(width: nat): nat {
    if width == 0 then 1 else 256 * Power256(width - 1)
  }

  function Bytes(n: nat, width: nat): (bytes: seq<byte>)
    ensures |bytes| == width
  {
    if width == 0 then [] else Bytes(n / 256, width - 1) + [(n % 256) as byte]
  }

  function Value(bytes: seq<byte>): nat {
    if bytes == [] then 0 else 256 * Value(bytes[..|bytes| - 1]) + bytes[|bytes| - 1] as int
  }

  lemma {:induction false} ValueOfBytes(n: nat, width: nat)
    requires n < Power256(width)
    ensures Value(Bytes(n, width)) == n
  {
    if width > 0 {
      ValueOfBytes(n / 256, width - 1);
      var bytes := Bytes(n, width);
      assert bytes[..width - 1] == Bytes(n / 256, width - 1);
    }
  }

  lemma {:induction false} ValueBound(bytes: seq<byte>)
    ensures Value(bytes) < Power256(|bytes|)
    ensures |bytes| == 4 ==> Value(bytes) < 0x1_0000_0000
  {
    if bytes != [] { ValueBound(bytes[..|bytes| - 1]); }
    if |bytes| == 4 { assert Power256(4) == 0x1_0000_0000; }
  }

  lemma {:induction false} BytesOfValue(bytes: seq<byte>)
    ensures Bytes(Value(bytes), |bytes|) == bytes
  {
    if bytes != [] {
      var front, last := bytes[..|bytes| - 1], bytes[|bytes| - 1];
      BytesOfValue(front);
      assert Value(bytes) / 256 == Value(front) && Value(bytes) % 256 == last as int;
      assert bytes == front + [last];
    }
  }

  lemma WidthEight()
    ensures Power256(8) == 0x1_0000_0000_0000_0000
  {
  }
}
