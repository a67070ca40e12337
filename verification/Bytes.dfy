/** Byte strings and big-endian numbers. */
module Bytes {
  import opened Arithmetic

  type Byte = b: nat | b < 256

  function Pow256(n: nat): (p: nat)
    ensures p > 0
  {
    if n == 0 then 1 else 256 * Pow256(n - 1)
  }

  function FromBigEndian(bytes: seq<Byte>): nat {
    if bytes == [] then 0 else 256 * FromBigEndian(bytes[..|bytes| - 1]) + bytes[|bytes| - 1]
  }

  /** The low `len` bytes of n, most significant first. */
  function ToBigEndian(n: nat, len: nat): (bytes: seq<Byte>)
    ensures |bytes| == len
  {
    if len == 0 then [] else ToBigEndian(n / 256, len - 1) + [n % 256]
  }

  lemma {:induction false} BigEndianRoundTrip(n: nat, len: nat)
    requires n < Pow256(len)
    ensures FromBigEndian(ToBigEndian(n, len)) == n
  {
    if len > 0 {
      BigEndianRoundTrip(n / 256, len - 1);
      assert ToBigEndian(n, len)[..len - 1] == ToBigEndian(n / 256, len - 1);
    }
  }

  /** The first byte weighs most: what precedes k bytes counts 256^k times. */
  lemma {:induction false} BigEndianWeighs(high: seq<Byte>, low: seq<Byte>)
    ensures FromBigEndian(high + low) == FromBigEndian(high) * Pow256(|low|) + FromBigEndian(low)
  {
    if low == [] {
      assert high + low == high;
    } else {
      var n := |low| - 1;
      BigEndianWeighs(high, low[..n]);
      assert (high + low)[..|high + low| - 1] == high + low[..n];
      ShiftByte(FromBigEndian(high), Pow256(n), FromBigEndian(low[..n]), low[n]);
    }
  }

  lemma ShiftByte(a: nat, p: nat, b: nat, c: nat)
    ensures 256 * (a * p + b) + c == a * (256 * p) + (256 * b + c)
  {
  }

  /** The last `len` bytes of a longer encoding are the encoding of the low part. */
  lemma {:induction false} LowBytes(n: nat, len: nat, extra: nat)
    ensures ToBigEndian(n, extra + len)[extra..] == ToBigEndian(n, len)
  {
    if len > 0 {
      LowBytes(n / 256, len - 1, extra);
      var long := ToBigEndian(n / 256, extra + len - 1);
      assert (long + [n % 256])[extra..] == long[extra..] + [n % 256];
    }
  }

  lemma {:induction false} Pow256Add(a: nat, b: nat)
    ensures Pow256(a + b) == Pow256(a) * Pow256(b)
  {
    if a > 0 {
      Pow256Add(a - 1, b);
    }
  }

  /** 32 bytes hold a word. */
  lemma WordBytes()
    ensures Pow256(32) == WORD
  {
    EightBytes();
    Pow256Add(8, 8);
    Pow256Add(16, 16);
  }

  lemma EightBytes()
    ensures Pow256(8) == 0x1_0000_0000_0000_0000
  {
    assert Pow256(2) == 65536;
    Pow256Add(2, 2);
    Pow256Add(4, 4);
  }

  lemma {:induction false} FromBigEndianBound(bytes: seq<Byte>)
    ensures FromBigEndian(bytes) < Pow256(|bytes|)
  {
    if bytes != [] {
      FromBigEndianBound(bytes[..|bytes| - 1]);
    }
  }

  /** `U256::from_big_endian` on 32 bytes. */
  function WordOf(bytes: seq<Byte>): (w: U256)
    requires |bytes| == 32
    ensures w == FromBigEndian(bytes)
  {
    FromBigEndianBound(bytes);
    WordBytes();
    FromBigEndian(bytes)
  }

  lemma WordOfEncoding(w: U256)
    ensures WordOf(ToBigEndian(w, 32)) == w
  {
    WordBytes();
    BigEndianRoundTrip(w, 32);
  }
}
