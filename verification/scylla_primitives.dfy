/** The primitives of Scylla, known by their laws only: a group action for the key exchange, hash functions,
    a stream cipher, a message authentication code and a wide-block cipher. */
module ScyllaPrimitives {
  import opened Bytes
  import opened Residues
  import opened WideBlock
  import opened Wrappers

  /** Points and scalars go by numbers; which number stands for which point is left open. */
  type Point = nat
  type Scalar = nat

  const KAPPA: nat := 16
  const ALPHA_LEN: nat := 32

  datatype Suite = Suite(
    base: Point,
    act: (Point, Scalar) -> Point,
    mul: (Scalar, Scalar) -> Scalar,
    compress: Point -> Bytes,
    decompress: Bytes -> Option<Point>,
    hB: (Point, Point) -> Scalar,
    hRho: Point -> Bytes,
    hMu: Point -> Bytes,
    hPi: Point -> Bytes,
    rho: Generator,
    mu: (Bytes, Bytes) -> Bytes,
    cipher: Cipher,
    sha256: Bytes -> Bytes,
    shake128: Generator)

  /** Scalars act on the multiples of the base point, in any order, and these points can be written down
      in 32 bytes. */
  ghost predicate GroupLaws(suite: Suite) {
    && (forall a, b :: suite.act(suite.act(suite.base, a), b) == suite.act(suite.base, suite.mul(a, b)))
    && (forall a, b :: suite.mul(a, b) == suite.mul(b, a))
    && (forall a :: |suite.compress(suite.act(suite.base, a))| == ALPHA_LEN)
    && (forall a :: suite.decompress(suite.compress(suite.act(suite.base, a))) == Some(suite.act(suite.base, a)))
  }

  ghost predicate CipherLaws(suite: Suite) {
    Permutes(suite.cipher)
  }

  ghost predicate HashLaws(suite: Suite) {
    && (forall k, d :: |suite.mu(k, d)| == KAPPA)
    && (forall d :: |suite.sha256(d)| == 32)
  }

  ghost predicate Lawful(suite: Suite) {
    GroupLaws(suite) && CipherLaws(suite) && HashLaws(suite)
  }

  /** Is there nothing to encrypt, or enough? Anything in between makes the cipher fail. */
  predicate Cipherable(suite: Suite, data: Bytes) {
    data == [] || suite.cipher.minBlock <= |data|
  }

  function Pi(suite: Suite, key: Bytes, data: Bytes): Bytes {
    if data == [] then [] else suite.cipher.encrypt(key, data)
  }

  function PiInv(suite: Suite, key: Bytes, data: Bytes): Bytes {
    if data == [] then [] else suite.cipher.decrypt(key, data)
  }

  lemma PiUndone(suite: Suite, key: Bytes, data: Bytes)
    requires CipherLaws(suite) && Cipherable(suite, data)
    ensures |Pi(suite, key, data)| == |data| && PiInv(suite, key, Pi(suite, key, data)) == data
    ensures |PiInv(suite, key, data)| == |data| && Pi(suite, key, PiInv(suite, key, data)) == data
  {
  }

  // ---------- The laws can be met ----------

  function OneByte(p: nat): Bytes {
    if p < 256 then [p] + Zeros(31) else []
  }

  function FirstByte(b: Bytes): Option<nat> {
    if |b| == 32 then Some(b[0]) else None
  }

  /** Residues modulo a number, with a cipher that adds nothing and hashes that are constant. */
  function Toy(): Suite {
    Suite(1, Residue, (a: nat, b: nat) => a * b, OneByte, FirstByte,
          (a, b) => 1, a => [], a => [], a => [], (k, i) => 0,
          (k, d) => Zeros(KAPPA), Cipher((k, d) => d, (k, d) => d, 33), d => Zeros(32), (k, i) => 0)
  }

  lemma ToyIsLawful()
    ensures Lawful(Toy())
  {
    var toy := Toy();
    forall a: Scalar, b: Scalar
      ensures toy.act(toy.act(toy.base, a), b) == toy.act(toy.base, toy.mul(a, b)) && toy.mul(a, b) == toy.mul(b, a)
    {
      ResidueTimes(a, b);
    }
    forall a: Scalar
      ensures toy.decompress(toy.compress(toy.act(toy.base, a))) == Some(toy.act(toy.base, a))
    {
      assert toy.act(toy.base, a) == a % Q;
    }
  }
}
