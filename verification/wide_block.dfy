/** Wide-block ciphers such as Lioness, which encrypt a block of any length that is not too short. */
module WideBlock {
  import opened Bytes

  datatype Cipher = Cipher(encrypt: (Bytes, Bytes) -> Bytes, decrypt: (Bytes, Bytes) -> Bytes, minBlock: nat)

  /** Every key gives a permutation of the blocks of each length that is accepted. */
  ghost predicate Permutes(c: Cipher) {
    && (forall k, d :: |d| >= c.minBlock ==> |c.encrypt(k, d)| == |d| && c.decrypt(k, c.encrypt(k, d)) == d)
    && (forall k, d :: |d| >= c.minBlock ==> |c.decrypt(k, d)| == |d| && c.encrypt(k, c.decrypt(k, d)) == d)
  }
}
