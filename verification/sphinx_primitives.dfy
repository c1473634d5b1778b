/** The primitives of the Sphinx packet format, known by their laws only. Public keys and shared secrets are
    strings of 32 bytes. */
module SphinxPrimitives {
  import opened Bytes
  import opened Residues
  import opened WideBlock

  type Scalar = nat

  const SECURITY_PARAMETER: nat := 16
  const PUBLIC_KEY_SIZE: nat := 32
  const STREAM_CIPHER_KEY_SIZE: nat := 16
  const INTEGRITY_MAC_KEY_SIZE: nat := SECURITY_PARAMETER
  const PAYLOAD_KEY_SIZE: nat := 192
  const BLINDING_FACTOR_SIZE: nat := 2 * SECURITY_PARAMETER
  const ROUTING_KEYS_LENGTH: nat := STREAM_CIPHER_KEY_SIZE + INTEGRITY_MAC_KEY_SIZE + PAYLOAD_KEY_SIZE
    + BLINDING_FACTOR_SIZE
  const HEADER_INTEGRITY_MAC_SIZE: nat := SECURITY_PARAMETER

  type PublicKey = b: Bytes | |b| == PUBLIC_KEY_SIZE witness Zeros(PUBLIC_KEY_SIZE)
  type PayloadKey = b: Bytes | |b| == PAYLOAD_KEY_SIZE witness Zeros(PAYLOAD_KEY_SIZE)
  type Mac = b: Bytes | |b| == HEADER_INTEGRITY_MAC_SIZE witness Zeros(HEADER_INTEGRITY_MAC_SIZE)
  type KeyBlock = b: Bytes | |b| == ROUTING_KEYS_LENGTH witness Zeros(ROUTING_KEYS_LENGTH)

  datatype Suite = Suite(
    publicKey: Scalar -> PublicKey,
    diffieHellman: (Scalar, PublicKey) -> PublicKey,
    mul: (Scalar, Scalar) -> Scalar,
    scalarOf: Bytes -> Scalar,
    hkdf: PublicKey -> KeyBlock,
    stream: Generator,
    hmac: (Bytes, Bytes) -> Mac,
    cipher: Cipher)

  /** A key exchange with a public key multiplies the secrets, whose order does not matter. */
  ghost predicate GroupLaws(suite: Suite) {
    && (forall a, b :: suite.diffieHellman(a, suite.publicKey(b)) == suite.publicKey(suite.mul(a, b)))
    && (forall a, b :: suite.mul(a, b) == suite.mul(b, a))
  }

  ghost predicate Lawful(suite: Suite) {
    GroupLaws(suite) && Permutes(suite.cipher)
  }

  // ---------- Keys ----------

  datatype RoutingKeys = RoutingKeys(streamCipherKey: Bytes, headerIntegrityHmacKey: Bytes, payloadKey: PayloadKey,
                                     blindingFactor: Bytes)

  /** The output of the key derivation, cut into four keys. */
  function Derive(suite: Suite, sharedKey: PublicKey): RoutingKeys {
    var output := suite.hkdf(sharedKey);
    var i := STREAM_CIPHER_KEY_SIZE;
    var j := i + INTEGRITY_MAC_KEY_SIZE;
    var k := j + PAYLOAD_KEY_SIZE;
    RoutingKeys(output[..i], output[i..j], output[j..k], output[k..k + BLINDING_FACTOR_SIZE])
  }

  /** The four keys are consecutive and use up all of the output. */
  lemma DeriveParts(suite: Suite, sharedKey: PublicKey)
    ensures var keys := Derive(suite, sharedKey);
            && suite.hkdf(sharedKey)
              == keys.streamCipherKey + keys.headerIntegrityHmacKey + keys.payloadKey + keys.blindingFactor
            && |keys.streamCipherKey| == STREAM_CIPHER_KEY_SIZE
               && |keys.headerIntegrityHmacKey| == INTEGRITY_MAC_KEY_SIZE
            && |keys.blindingFactor| == BLINDING_FACTOR_SIZE
  {
    var output, keys := suite.hkdf(sharedKey), Derive(suite, sharedKey);
    assert output == output[..32] + output[32..];
    assert output[..32] == keys.streamCipherKey + keys.headerIntegrityHmacKey;
    assert output[32..] == keys.payloadKey + keys.blindingFactor;
  }

  // ---------- The laws can be met ----------

  function ResidueKey(a: Scalar): PublicKey {
    [a % Q] + Zeros(PUBLIC_KEY_SIZE - 1)
  }

  function ResidueExchange(a: Scalar, b: PublicKey): PublicKey {
    [Residue(b[0], a)] + Zeros(PUBLIC_KEY_SIZE - 1)
  }

  function Product(a: Scalar, b: Scalar): Scalar {
    a * b
  }

  lemma ExchangeIsProduct(a: Scalar, b: Scalar)
    ensures ResidueExchange(a, ResidueKey(b)) == ResidueKey(Product(a, b)) && Product(a, b) == Product(b, a)
  {
    ResidueTimes(b, a);
  }

  /** Residues modulo a number, with a cipher and hashes that do nothing. */
  function Toy(): Suite {
    Suite(ResidueKey, ResidueExchange, Product, d => 1, k => Zeros(ROUTING_KEYS_LENGTH), (k, i) => 0,
          (k, d) => Zeros(HEADER_INTEGRITY_MAC_SIZE), Cipher((k, d) => d, (k, d) => d, 33))
  }

  lemma ToyIsLawful()
    ensures Lawful(Toy())
  {
    hide ResidueKey, ResidueExchange, Product;
    var toy := Toy();
    forall a: Scalar, b: Scalar
      ensures toy.diffieHellman(a, toy.publicKey(b)) == toy.publicKey(toy.mul(a, b)) && toy.mul(a, b) == toy.mul(b, a)
    {
      ExchangeIsProduct(a, b);
    }
  }
}
