/** Byte-block helpers shared by the banking engine and the persistence code:
    the 32-byte bus blocks, splicing a block into a buffer, and a little-endian
    integer codec used by the RTC trailer. */
module Bytes {

  /** The bus transfers exactly this many bytes per read or write. */
  const BlockSize: nat := 32

  /** A block of `n` copies of `v` (what ZeroMemory and the RTC broadcast loop produce). */
  function Fill(n: nat, v: bv8): (r: seq<bv8>)
    ensures |r| == n
    ensures forall i :: 0 <= i < n ==> r[i] == v
  {
    seq(n, _ => v)
  }

  function Zeros(n: nat): (r: seq<bv8>)
    ensures |r| == n
    ensures forall i :: 0 <= i < n ==> r[i] == 0
  {
    Fill(n, 0)
  }

  /** `s` with the bytes at `off .. off+|b|` replaced by `b` (what CopyMemory into a buffer does). */
  function Splice(s: seq<bv8>, off: nat, b: seq<bv8>): (r: seq<bv8>)
    requires off + |b| <= |s|
    ensures |r| == |s|
    ensures forall i :: 0 <= i < |s| ==> r[i] == if off <= i < off + |b| then b[i - off] else s[i]
    ensures r[off..off + |b|] == b
  {
    s[..off] + b + s[off + |b|..]
  }

  function Pow256(k: nat): (r: nat)
    ensures r >= 1
  {
    if k == 0 then 1 else 256 * Pow256(k - 1)
  }

  /** The `k` low-order bytes of `n`, least significant first. */
  function EncodeLe(n: nat, k: nat): (r: seq<bv8>)
    ensures |r| == k
  {
    if k == 0 then [] else [(n % 256) as bv8] + EncodeLe(n / 256, k - 1)
  }

  /** The unsigned value of a little-endian byte string. */
  function DecodeLe(s: seq<bv8>): (r: nat)
    ensures r < Pow256(|s|)
  {
    if s == [] then 0 else s[0] as nat + 256 * DecodeLe(s[1..])
  }

  lemma NatOfByte(b: bv8)
    ensures (b as nat) as bv8 == b
  {
  }

  /** Incrementing a byte below 255 does not wrap. */
  lemma SuccByte(b: bv8)
    requires b as nat < 255
    ensures (b + 1) as nat == b as nat + 1
  {
  }

  lemma ByteOfNatStep(b: bv8, m: nat)
    requires 0 < m < 256 && b as nat == m - 1
    ensures (m as bv8) as nat == m
  {
    SuccByte(b);
    NatOfByte(b + 1);
  }

  /** A count below 256 survives the round trip through a byte (by counting up
      from 0, which keeps the solver on the cheap byte-to-integer direction). */
  lemma {:induction false} ByteOfNat(m: nat)
    requires m < 256
    ensures (m as bv8) as nat == m
    decreases m
  {
    if m > 0 {
      ByteOfNat(m - 1);
      ByteOfNatStep((m - 1) as bv8, m);
    }
  }

  lemma ByteBound(b: bv8)
    ensures b as nat < 256
  {
  }

  lemma DivMod256(n: nat, p: nat)
    ensures n == 256 * (n / 256) + n % 256
    ensures n < 256 * p ==> n / 256 < p
  {
  }

  lemma SplitLowByte(b: nat, t: nat)
    requires b < 256
    ensures (b + 256 * t) % 256 == b && (b + 256 * t) / 256 == t
  {
  }

  /** Splitting `b + 256 * t` recovers the byte `b` and the rest `t`. */
  lemma LowByteOf(b: bv8, t: nat)
    ensures ((b as nat + 256 * t) % 256) as bv8 == b && (b as nat + 256 * t) / 256 == t
  {
    ByteBound(b);
    SplitLowByte(b as nat, t);
    NatOfByte(b);
  }

  lemma {:induction false} DecodeEncodeLe(n: nat, k: nat)
    requires n < Pow256(k)
    ensures DecodeLe(EncodeLe(n, k)) == n
  {
    if k > 0 {
      var e := EncodeLe(n, k);
      var q, m := n / 256, n % 256;
      DivMod256(n, Pow256(k - 1));
      ByteOfNat(m);
      assert e[0] as nat == m;
      assert e[1..] == EncodeLe(q, k - 1);
      DecodeEncodeLe(q, k - 1);
    }
  }

  /** Encoding `b + 256 * t` gives the byte `b` followed by the encoding of `t`. */
  lemma EncodeCons(b: bv8, t: nat, k: nat)
    ensures EncodeLe(b as nat + 256 * t, k + 1) == [b] + EncodeLe(t, k)
  {
    LowByteOf(b, t);
  }

  lemma {:induction false} EncodeDecodeLe(s: seq<bv8>)
    ensures EncodeLe(DecodeLe(s), |s|) == s
  {
    if s != [] {
      var t := DecodeLe(s[1..]);
      assert DecodeLe(s) == s[0] as nat + 256 * t;
      EncodeCons(s[0], t, |s| - 1);
      EncodeDecodeLe(s[1..]);
      assert s == [s[0]] + s[1..];
    }
  }
}
