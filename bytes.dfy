/** Bytes and the fixed-width little-endian integers of the wire format. */
module Bytes {

  newtype byte = x: int | 0 <= x < 256

  /** 256 to the power n: one more than the largest value that fits in n bytes. */
  function Pow256(n: nat): (p: nat)
    ensures p >= 1
  {
    if n == 0 then 1 else 256 * Pow256(n - 1)
  }

  lemma {:induction false} Pow256AtLeast256(n: nat)
    requires n >= 1
    ensures Pow256(n) >= 256
  {
    assert Pow256(n) == 256 * Pow256(n - 1);
  }

  /** The width-byte little-endian encoding of v (an unsigned integer field). */
  function LittleEndian(v: nat, width: nat): (r: seq<byte>)
    requires v < Pow256(width)
    ensures |r| == width
  {
    if width == 0 then []
    else
      assert v / 256 < Pow256(width - 1) by { DivBound(v, Pow256(width - 1)); }
      [(v % 256) as byte] + LittleEndian(v / 256, width - 1)
  }

  /** The unsigned integer that little-endian bytes s stand for. */
  function FromLittleEndian(s: seq<byte>): (v: nat)
    ensures v < Pow256(|s|)
  {
    if s == [] then 0
    else
      var rest := FromLittleEndian(s[1..]);
      assert rest <= Pow256(|s| - 1) - 1;
      assert 256 * rest <= 256 * Pow256(|s| - 1) - 256;
      s[0] as nat + 256 * rest
  }

  /** A run of n zero bytes. */
  function Zeros(n: nat): seq<byte>
  {
    seq(n, i => 0)
  }

  lemma DivBound(v: nat, p: nat)
    requires v < 256 * p
    ensures v / 256 < p
  {
  }

  /** Decoding undoes encoding. */
  lemma {:induction false} FromLittleEndianOfLittleEndian(v: nat, width: nat)
    requires v < Pow256(width)
    ensures FromLittleEndian(LittleEndian(v, width)) == v
  {
    if width > 0 {
      assert v / 256 < Pow256(width - 1) by { DivBound(v, Pow256(width - 1)); }
      var s := LittleEndian(v, width);
      assert s[1..] == LittleEndian(v / 256, width - 1);
      FromLittleEndianOfLittleEndian(v / 256, width - 1);
      assert FromLittleEndian(s) == v % 256 + 256 * (v / 256);
    }
  }

  /** Encoding undoes decoding: every byte string is the encoding of its value. */
  lemma {:induction false} LittleEndianOfFromLittleEndian(s: seq<byte>)
    ensures LittleEndian(FromLittleEndian(s), |s|) == s
  {
    if s != [] {
      var rest := FromLittleEndian(s[1..]);
      var v := FromLittleEndian(s);
      assert v == s[0] as nat + 256 * rest;
      assert v % 256 == s[0] as nat;
      assert v / 256 == rest;
      LittleEndianOfFromLittleEndian(s[1..]);
      assert LittleEndian(v, |s|) == [s[0]] + s[1..];
    }
  }

  /** Zero encodes as all zero bytes. */
  lemma {:induction false} LittleEndianZero(width: nat)
    ensures LittleEndian(0, width) == Zeros(width)
  {
    if width > 0 {
      LittleEndianZero(width - 1);
      assert Zeros(width) == [0] + Zeros(width - 1);
    }
  }

  /** A little-endian value is zero exactly when all of its bytes are. */
  lemma {:induction false} FromLittleEndianZero(s: seq<byte>)
    ensures FromLittleEndian(s) == 0 <==> s == Zeros(|s|)
  {
    if s != [] {
      FromLittleEndianZero(s[1..]);
      assert Zeros(|s|) == [0] + Zeros(|s| - 1);
      if s == Zeros(|s|) {
        assert s[1..] == Zeros(|s| - 1);
      }
    }
  }
}
