/** Headers that are encrypted once per hop, as in both Scylla and Sphinx: every layer takes in a block of
    routing information at the front and lets the last block drop off at the end. The filler string makes up
    for the blocks that drop off. */
module LayeredHeader {
  import opened Bytes

  /** What a hop takes: its routing information and the authentication tag of the next layer. */
  const BLOCK: nat := 60

  /** One step of the filler: a block of zeros is appended, and all of it is encrypted with the end of the
      keystream of that hop. */
  function FillerStep(rho: Generator, key: Bytes, length: nat, filler: Bytes): (r: Bytes)
    requires |filler| <= length
    ensures |r| == |filler| + BLOCK
  {
    Xor(filler + Zeros(BLOCK), Stream(rho, key, length + BLOCK)[length - |filler|..])
  }

  /** The filler string after `i` hops, for headers of `length` bytes. */
  function Filler(rho: Generator, keys: seq<Bytes>, length: nat, i: nat): (r: Bytes)
    requires i <= |keys| && i * BLOCK <= length
    ensures |r| == i * BLOCK
  {
    if i == 0 then [] else FillerStep(rho, keys[i - 1], length, Filler(rho, keys, length, i - 1))
  }

  lemma FillerStarts(rho: Generator, keys: seq<Bytes>, length: nat)
    ensures Filler(rho, keys, length, 0) == []
  {
  }

  lemma FillerNext(rho: Generator, keys: seq<Bytes>, length: nat, i: nat)
    requires i < |keys| && (i + 1) * BLOCK <= length
    ensures Filler(rho, keys, length, i + 1) == FillerStep(rho, keys[i], length, Filler(rho, keys, length, i))
  {
  }

  /** A layer: `info` is put in front of the inner header, what does not fit is cut off, and the rest is
      encrypted. */
  function Encrypted(rho: Generator, key: Bytes, info: Bytes, inner: Bytes): (r: Bytes)
    requires |info| <= |inner|
    ensures |r| == |inner|
  {
    Xor((info + inner)[..|inner|], Stream(rho, key, |inner|))
  }

  /** What a node sees: the header, extended by a block of zeros, is decrypted. */
  function Decrypted(rho: Generator, key: Bytes, outer: Bytes): (r: Bytes)
    ensures |r| == |outer| + BLOCK
  {
    Xor(outer + Zeros(BLOCK), Stream(rho, key, |outer| + BLOCK))
  }

  /** The front of the header is recovered; the last block becomes the end of the keystream. */
  lemma DecryptedParts(rho: Generator, key: Bytes, plain: Bytes)
    ensures Decrypted(rho, key, Xor(plain, Stream(rho, key, |plain|)))
            == plain + Stream(rho, key, |plain| + BLOCK)[|plain|..]
  {
    var n := |plain|;
    var front, all := Stream(rho, key, n), Stream(rho, key, n + BLOCK);
    StreamPrefix(rho, key, n, n + BLOCK);
    assert all == front + all[n..];
    XorConcat(Xor(plain, front), Zeros(BLOCK), front, all[n..]);
    XorCancels(plain, front);
    XorZeros(all[n..]);
  }

  /** So a node can read what was encrypted first, whatever follows it. */
  lemma FrontDecrypts(rho: Generator, key: Bytes, plain: Bytes, rest: Bytes)
    ensures Decrypted(rho, key, Xor(plain, Stream(rho, key, |plain|)) + rest)[..|plain|] == plain
  {
    hide XorByte;
    var m := |plain|;
    var outer := Xor(plain, Stream(rho, key, m)) + rest;
    StreamPrefix(rho, key, m, |outer| + BLOCK);
    XorSlice(outer + Zeros(BLOCK), Stream(rho, key, |outer| + BLOCK), 0, m);
    assert (outer + Zeros(BLOCK))[0..m] == Xor(plain, Stream(rho, key, m));
    XorCancels(plain, Stream(rho, key, m));
  }

  /** The last block of the filler is the end of the keystream, and the blocks before it are the previous
      filler under that keystream. */
  lemma FillerParts(rho: Generator, key: Bytes, length: nat, filler: Bytes)
    requires |filler| <= length
    ensures var all, next := Stream(rho, key, length + BLOCK), FillerStep(rho, key, length, filler);
            && next[|filler|..] == all[length..]
            && next[..|filler|] == Xor(filler, all[length - |filler|..length])
  {
    var all, n := Stream(rho, key, length + BLOCK), |filler|;
    assert all[length - n..] == all[length - n..length] + all[length..];
    XorConcat(filler, Zeros(BLOCK), all[length - n..length], all[length..]);
    XorZeros(all[length..]);
  }

  lemma LayerDecrypts(rho: Generator, keys: seq<Bytes>, i: nat, info: Bytes, inner: Bytes)
    requires i < |keys| && (i + 1) * BLOCK <= |inner| && |info| == BLOCK
    requires inner[|inner| - (i + 1) * BLOCK..] == Filler(rho, keys, |inner|, i + 1)
    ensures Decrypted(rho, keys[i], Encrypted(rho, keys[i], info, inner)) == info + inner
  {
    hide XorByte;
    var n := |inner|;
    var all, plain := Stream(rho, keys[i], n + BLOCK), (info + inner)[..n];
    FillerParts(rho, keys[i], n, Filler(rho, keys, n, i));
    DecryptedParts(rho, keys[i], plain);
    assert inner[n - BLOCK..] == Filler(rho, keys, n, i + 1)[i * BLOCK..] == all[n..];
    assert plain + all[n..] == info + inner;
  }

  /** The filler invariant: if the inner header ends in the filler of `i + 1` hops, then the layer around it
      ends in the filler of `i` hops, and the node of that layer gets back both the routing information and
      the whole inner header, the part that was cut off included. */
  lemma LayerUndone(rho: Generator, keys: seq<Bytes>, i: nat, info: Bytes, inner: Bytes)
    requires i < |keys| && (i + 1) * BLOCK <= |inner| && |info| == BLOCK
    requires inner[|inner| - (i + 1) * BLOCK..] == Filler(rho, keys, |inner|, i + 1)
    ensures var outer := Encrypted(rho, keys[i], info, inner);
            && outer[|inner| - i * BLOCK..] == Filler(rho, keys, |inner|, i)
            && Decrypted(rho, keys[i], outer) == info + inner
  {
    hide XorByte, FillerStep;
    LayerDecrypts(rho, keys, i, info, inner);
    var n, key, filler := |inner|, keys[i], Filler(rho, keys, |inner|, i);
    var lo, all := n - i * BLOCK, Stream(rho, key, n + BLOCK);
    FillerParts(rho, key, n, filler);
    StreamPrefix(rho, key, n, n + BLOCK);
    assert Stream(rho, key, n)[lo..n] == all[lo..n];
    XorSlice((info + inner)[..n], Stream(rho, key, n), lo, n);
    assert (info + inner)[..n][lo..n] == inner[lo - BLOCK..n - BLOCK] == Filler(rho, keys, n, i + 1)[..i * BLOCK];
    XorCancels(filler, all[lo..n]);
    assert Encrypted(rho, key, info, inner)[lo..] == Encrypted(rho, key, info, inner)[lo..n];
  }
}
