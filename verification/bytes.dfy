/** Byte strings: the exclusive or of two strings, zeros, keystreams, and big-endian numbers. */
module Bytes {

  type byte = n: nat | n < 256

  type Bytes = seq<byte>

  function Min(a: nat, b: nat): nat {
    if a < b then a else b
  }

  function Pow2(k: nat): (r: nat)
    ensures 1 <= r
  {
    if k == 0 then 1 else 2 * Pow2(k - 1)
  }

  /** The exclusive or of the `k` lowest bits. */
  function XorBits(a: nat, b: nat, k: nat): (r: nat)
    ensures r < Pow2(k)
  {
    if k == 0 then 0 else (if a % 2 == b % 2 then 0 else 1) + 2 * XorBits(a / 2, b / 2, k - 1)
  }

  lemma {:induction false} XorBitsLaws(a: nat, b: nat, k: nat)
    requires a < Pow2(k)
    ensures XorBits(XorBits(a, b, k), b, k) == a
    ensures XorBits(a, b, k) == XorBits(b, a, k)
    ensures XorBits(0, a, k) == a
  {
    if k > 0 {
      XorBitsLaws(a / 2, b / 2, k - 1);
      var r := XorBits(a, b, k);
      assert r / 2 == XorBits(a / 2, b / 2, k - 1) && r % 2 == (if a % 2 == b % 2 then 0 else 1);
    }
  }

  lemma ByteBits()
    ensures Pow2(8) == 256
  {
  }

  function XorByte(a: byte, b: byte): byte {
    ByteBits();
    XorBits(a, b, 8)
  }

  lemma XorByteLaws(a: byte, b: byte)
    ensures XorByte(XorByte(a, b), b) == a
    ensures XorByte(a, b) == XorByte(b, a)
    ensures XorByte(0, a) == a
  {
    ByteBits();
    XorBitsLaws(a, b, 8);
  }

  /** The longer string is cut off, as by `zip`. */
  function Xor(a: Bytes, b: Bytes): (r: Bytes)
    ensures |r| == Min(|a|, |b|)
    ensures forall i :: 0 <= i < |r| ==> r[i] == XorByte(a[i], b[i])
  {
    seq(Min(|a|, |b|), i requires 0 <= i < |a| && i < |b| => XorByte(a[i], b[i]))
  }

  lemma XorCancels(a: Bytes, b: Bytes)
    requires |a| <= |b|
    ensures Xor(Xor(a, b), b) == a
  {
    hide XorByte;
    forall i | 0 <= i < |a|
      ensures Xor(Xor(a, b), b)[i] == a[i]
    {
      XorByteLaws(a[i], b[i]);
    }
  }

  lemma XorSlice(a: Bytes, b: Bytes, lo: nat, hi: nat)
    requires lo <= hi <= |a| && hi <= |b|
    ensures Xor(a, b)[lo..hi] == Xor(a[lo..hi], b[lo..hi])
  {
  }

  /** A string that is long enough may be cut without changing the result. */
  lemma XorCut(a: Bytes, b: Bytes, n: nat)
    requires |a| <= n <= |b|
    ensures Xor(a, b) == Xor(a, b[..n])
  {
  }

  lemma XorConcat(a: Bytes, c: Bytes, b: Bytes, d: Bytes)
    requires |a| == |b|
    ensures Xor(a + c, b + d) == Xor(a, b) + Xor(c, d)
  {
  }

  function Zeros(n: nat): (r: Bytes)
    ensures |r| == n
    ensures forall i :: 0 <= i < n ==> r[i] == 0
  {
    seq(n, _ => 0)
  }

  lemma XorZeros(a: Bytes)
    ensures Xor(Zeros(|a|), a) == a
  {
    hide XorByte;
    forall i | 0 <= i < |a|
      ensures Xor(Zeros(|a|), a)[i] == a[i]
    {
      XorByteLaws(a[i], a[i]);
    }
  }

  // ---------- Keystreams ----------

  /** A pseudorandom generator gives every key an endless stream of bytes. */
  type Generator = (Bytes, nat) -> byte

  /** The first `n` bytes of the stream of `key`. */
  function Stream(rho: Generator, key: Bytes, n: nat): (r: Bytes)
    ensures |r| == n
  {
    seq(n, i requires 0 <= i => rho(key, i))
  }

  lemma StreamPrefix(rho: Generator, key: Bytes, m: nat, n: nat)
    requires m <= n
    ensures Stream(rho, key, n)[..m] == Stream(rho, key, m)
  {
  }

  // ---------- Concatenation ----------

  function Flatten(parts: seq<Bytes>): Bytes {
    if parts == [] then [] else parts[0] + Flatten(parts[1..])
  }

  lemma {:induction false} FlattenAppend(parts: seq<Bytes>, last: Bytes)
    ensures Flatten(parts + [last]) == Flatten(parts) + last
  {
    if parts == [] {
      assert [last][1..] == [];
    } else {
      assert (parts + [last])[1..] == parts[1..] + [last];
      FlattenAppend(parts[1..], last);
    }
  }

  // ---------- Big-endian numbers ----------

  function Pow256(n: nat): (r: nat)
    ensures 1 <= r
  {
    if n == 0 then 1 else 256 * Pow256(n - 1)
  }

  /** The `len` low bytes of `n`, the most significant first. */
  function ToBE(n: nat, len: nat): (r: Bytes)
    ensures |r| == len
  {
    if len == 0 then [] else ToBE(n / 256, len - 1) + [n % 256]
  }

  function FromBE(b: Bytes): nat {
    if b == [] then 0 else FromBE(b[..|b| - 1]) * 256 + b[|b| - 1]
  }

  lemma {:induction false} BERoundTrip(n: nat, len: nat)
    requires n < Pow256(len)
    ensures FromBE(ToBE(n, len)) == n
  {
    if len > 0 {
      var b := ToBE(n, len);
      assert b[..len - 1] == ToBE(n / 256, len - 1);
      BERoundTrip(n / 256, len - 1);
    }
  }

  lemma {:induction false} FromBEBounded(b: Bytes)
    ensures FromBE(b) < Pow256(|b|)
  {
    if b != [] {
      FromBEBounded(b[..|b| - 1]);
    }
  }

  lemma HighAndLow(high: nat, low: nat)
    requires low < 256
    ensures (high * 256 + low) / 256 == high && (high * 256 + low) % 256 == low
  {
  }

  lemma {:induction false} BEInverse(b: Bytes)
    ensures ToBE(FromBE(b), |b|) == b
  {
    if b != [] {
      var high, low := FromBE(b[..|b| - 1]), b[|b| - 1];
      BEInverse(b[..|b| - 1]);
      HighAndLow(high, low);
      assert ToBE(high * 256 + low, |b|) == ToBE(high, |b| - 1) + [low];
      assert b == b[..|b| - 1] + [b[|b| - 1]];
    }
  }

  lemma {:induction false} LeadingZeros(k: nat, b: Bytes)
    ensures FromBE(Zeros(k) + b) == FromBE(b)
    decreases |b|, k
  {
    if b == [] {
      assert Zeros(k) + b == Zeros(k);
      if k > 0 {
        assert Zeros(k)[..k - 1] == Zeros(k - 1) + [];
        LeadingZeros(k - 1, []);
      }
    } else {
      assert (Zeros(k) + b)[..k + |b| - 1] == Zeros(k) + b[..|b| - 1];
      LeadingZeros(k, b[..|b| - 1]);
    }
  }
}
