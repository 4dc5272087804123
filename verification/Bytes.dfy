// Byte strings and integers in network order.
module Bytes {
  type Byte = x: int | 0 <= x < 256
  type Bytes = seq<Byte>

  function Range(n: nat): nat { if n == 0 then 1 else 256 * Range(n - 1) }

  // The `n` bytes of `v`, most significant first.
  function BigEndian(v: nat, n: nat): (b: Bytes)
    ensures |b| == n
  {
    if n == 0 then [] else BigEndian(v / 256, n - 1) + [v % 256]
  }

  function FromBigEndian(b: Bytes): nat
  {
    if b == [] then 0 else 256 * FromBigEndian(b[..|b| - 1]) + b[|b| - 1]
  }

  // The bytes of `v` as an x86 holds them.
  function LittleEndian(v: nat, n: nat): (b: Bytes)
    ensures |b| == n
  {
    if n == 0 then [] else [v % 256] + LittleEndian(v / 256, n - 1)
  }

  function Reversed(b: Bytes): (r: Bytes)
    ensures |r| == |b|
  {
    if b == [] then [] else Reversed(b[1..]) + [b[0]]
  }

  lemma {:induction false} BigEndianRoundTrip(v: nat, n: nat)
    requires v < Range(n)
    ensures FromBigEndian(BigEndian(v, n)) == v
  {
    if n > 0 {
      var b := BigEndian(v, n);
      assert v / 256 < Range(n - 1);
      BigEndianRoundTrip(v / 256, n - 1);
      assert b[..n - 1] == BigEndian(v / 256, n - 1);
    }
  }

  lemma {:induction false} FromBigEndianRoundTrip(b: Bytes)
    ensures FromBigEndian(b) < Range(|b|) && BigEndian(FromBigEndian(b), |b|) == b
  {
    if b != [] {
      FromBigEndianRoundTrip(b[..|b| - 1]);
      assert b == b[..|b| - 1] + [b[|b| - 1]];
    }
  }

  // hton64 and its kin: reversing the bytes of a little-endian host gives network order.
  lemma {:induction false} ReversalIsNetworkOrder(v: nat, n: nat)
    ensures Reversed(LittleEndian(v, n)) == BigEndian(v, n)
  {
    if n > 0 {
      ReversalIsNetworkOrder(v / 256, n - 1);
      assert LittleEndian(v, n)[1..] == LittleEndian(v / 256, n - 1);
    }
  }
}
