/** `wrap` as it is written, loop by loop, and the single-use reply blocks made with it. */
module ScyllaWrap {
  import opened Bytes
  import opened LayeredHeader
  import opened ScyllaPrimitives
  import opened Scylla
  import opened ScyllaPaths

  method DeriveSecrets(suite: Suite, path: seq<Node>, secret: Scalar) returns (secrets: seq<Point>, alphaZero: Point)
    ensures secrets == SharedSecrets(suite, path, secret)
    ensures alphaZero == BlindedAt(suite, path, secret, 0).alpha
  {
    var factor := secret;
    var alpha := suite.act(suite.base, factor);
    alphaZero := alpha;
    secrets := [];
    for i := 0 to |path|
      invariant BlindedAt(suite, path, secret, i) == Blinded(alpha, factor)
      invariant secrets == SharedSecrets(suite, path, secret)[..i]
    {
      var sharedSecret := suite.act(path[i].publicKey, factor);
      secrets := secrets + [sharedSecret];
      var blinding := suite.hB(alpha, sharedSecret);
      alpha := suite.act(alpha, blinding);
      factor := suite.mul(factor, blinding);
    }
  }

  lemma KeyAt(suite: Suite, secrets: seq<Point>, i: nat)
    requires i < |secrets|
    ensures RhoKeys(suite, secrets)[i] == suite.hRho(secrets[i])
  {
  }

  method MakeFiller(config: Config, suite: Suite, secrets: seq<Point>) returns (filler: Bytes)
    requires 1 <= |secrets| <= config.maxPathLength
    ensures filler == Filler(suite.rho, RhoKeys(suite, secrets), HeaderLength(config), |secrets| - 1)
  {
    hide Xor, Stream, Filler, RhoKeys;
    var length := HeaderLength(config);
    FillerStarts(suite.rho, RhoKeys(suite, secrets), length);
    filler := [];
    for i := 0 to |secrets| - 1
      invariant filler == Filler(suite.rho, RhoKeys(suite, secrets), length, i)
    {
      FillerNext(suite.rho, RhoKeys(suite, secrets), length, i);
      KeyAt(suite, secrets, i);
      var extended := filler + Zeros(BYTES_PER_HOP);
      var buffer := Stream(suite.rho, suite.hRho(secrets[i]), length + BYTES_PER_HOP);
      filler := Xor(extended, buffer[length - i * BYTES_PER_HOP..]);
    }
  }

  /** Cutting off the end before or during the exclusive or makes no difference. */
  lemma EncryptedByZip(rho: Generator, key: Bytes, info: Bytes, inner: Bytes)
    requires |info| <= |inner|
    ensures Xor(info + inner, Stream(rho, key, |inner|)) == Encrypted(rho, key, info, inner)
  {
  }

  method MakeHeader(config: Config, suite: Suite, path: seq<Node>, secrets: seq<Point>, finalInfo: FinalInfo,
                    padding: Bytes)
    returns (beta: Bytes)
    requires ValidPath(config, path) && |secrets| == |path| && HashLaws(suite)
    requires |padding| == BLOCK * (config.maxPathLength - |path|)
    ensures beta == Beta(config, suite, path, secrets, finalInfo, padding, 0)
  {
    hide Xor, Stream, Filler, LayeredHeader.Encrypted;
    var length := HeaderLength(config);
    var fillerString := MakeFiller(config, suite, secrets);
    var lastBuffer := Stream(suite.rho, suite.hRho(secrets[|secrets| - 1]), |finalInfo|);
    beta := Xor(finalInfo, lastBuffer) + padding + fillerString;
    assert |beta| == length;
    for i := |path| - 1 downto 0
      invariant beta == Beta(config, suite, path, secrets, finalInfo, padding, i)
    {
      var tag := suite.mu(suite.hMu(secrets[i + 1]), beta);
      var info := [RELAY] + path[i + 1].address + Zeros(PER_HOP_META_LENGTH - ADDRESS_LENGTH) + tag;
      var buffer := Stream(suite.rho, suite.hRho(secrets[i]), length);
      EncryptedByZip(suite.rho, suite.hRho(secrets[i]), info, beta);
      beta := Xor(info + beta, buffer);
      assert |beta| == length;
    }
  }

  method MakePayload(suite: Suite, secrets: seq<Point>, payload: Bytes) returns (data: Bytes)
    ensures data == Wrapped(suite, PiKeys(suite, secrets), payload)
  {
    ghost var keys := PiKeys(suite, secrets);
    data := payload;
    for i := |secrets| downto 0
      invariant data == Wrapped(suite, keys[i..], payload)
    {
      data := Pi(suite, suite.hPi(secrets[i]), data);
      assert keys[i..][1..] == keys[i + 1..];
    }
    assert keys[0..] == keys;
  }

  method Wrap(config: Config, suite: Suite, path: seq<Node>, finalInfo: FinalInfo, payload: Bytes, secret: Scalar,
              padding: Bytes)
    returns (secrets: seq<Point>, onion: Bytes)
    requires ValidPath(config, path) && Cipherable(suite, payload) && HashLaws(suite)
    requires |padding| == BLOCK * (config.maxPathLength - |path|)
    ensures secrets == SharedSecrets(suite, path, secret)
    ensures onion == WrappedOnion(config, suite, path, secret, finalInfo, padding, payload)
  {
    var alphaZero;
    secrets, alphaZero := DeriveSecrets(suite, path, secret);
    var beta := MakeHeader(config, suite, path, secrets, finalInfo, padding);
    var gamma := suite.mu(suite.hMu(secrets[0]), beta);
    var data := MakePayload(suite, secrets, payload);
    onion := suite.compress(alphaZero) + beta + gamma + data;
  }

  // ---------- Reply blocks ----------

  type ReplyMeta = b: Bytes | |b| == REPLY_META_LENGTH witness Zeros(REPLY_META_LENGTH)

  function ReplyInfo(meta: ReplyMeta): FinalInfo {
    [DELIVER] + meta
  }

  /** What `create_surb` returns: a key for each hop, and an onion without a payload. */
  function SurbOf(config: Config, suite: Suite, r: Route): (seq<Bytes>, Bytes)
    requires ValidPath(config, r.path) && |r.padding| == BLOCK * (config.maxPathLength - |r.path|) && HashLaws(suite)
  {
    (PiKeys(suite, Secrets(suite, r)), WrappedOnion(config, suite, r.path, r.secret, r.finalInfo, r.padding, []))
  }

  method CreateSurb(config: Config, suite: Suite, path: seq<Node>, meta: ReplyMeta, secret: Scalar, padding: Bytes)
    returns (keys: seq<Bytes>, surb: Bytes)
    requires ValidPath(config, path) && HashLaws(suite) && |padding| == BLOCK * (config.maxPathLength - |path|)
    ensures (keys, surb) == SurbOf(config, suite, Route(path, secret, ReplyInfo(meta), padding))
  {
    var secrets;
    secrets, surb := Wrap(config, suite, path, [DELIVER] + meta, [], secret, padding);
    keys := PiKeys(suite, secrets);
  }

  method UnwrapReply(suite: Suite, keys: seq<Bytes>, reply: Bytes) returns (data: Bytes)
    requires Cipherable(suite, reply)
    ensures data == Wrapped(suite, keys, reply)
  {
    data := reply;
    for i := |keys| downto 0
      invariant data == Wrapped(suite, keys[i..], reply)
    {
      data := Pi(suite, keys[i], data);
      assert keys[i..][1..] == keys[i + 1..];
    }
    assert keys[0..] == keys;
  }

  lemma {:induction false} NothingWrapped(suite: Suite, keys: seq<Bytes>)
    ensures Wrapped(suite, keys, []) == []
  {
    if keys != [] {
      NothingWrapped(suite, keys[1..]);
    }
  }

  /** A reply block with any text appended travels like an onion. Its last node gets the chosen meta data and
      some data from which `unwrap_reply`, with the keys that came with the block, recovers the text. */
  lemma ReplyRoundTrip(config: Config, suite: Suite, r: Route, meta: ReplyMeta, privateKeys: seq<Scalar>, text: Bytes)
    requires Valid(config, suite, r) && CipherLaws(suite) && Owned(suite, r.path, privateKeys)
    requires r.finalInfo == ReplyInfo(meta) && Cipherable(suite, text)
    ensures var (keys, surb) := SurbOf(config, suite, r);
            var data := Unwrapped(suite, keys, text);
            && Arrives(r.path, Journey(config, suite, privateKeys, surb + text), |surb + text|, Reply(meta, data))
            && Wrapped(suite, keys, data) == text
  {
    hide CipherLaws, GroupLaws, HashLaws, Beta;
    var keys := PiKeys(suite, Secrets(suite, r));
    var surb := SurbOf(config, suite, r).1;
    NothingWrapped(suite, keys);
    ReplyUndone(suite, keys, text);
    assert surb == At(config, suite, r, 0, []);
    assert surb + text == At(config, suite, r, 0, text);
    ProcessHandles(config, suite, r, privateKeys, 0, text);
    JourneyFrom(config, suite, r, privateKeys, 0, text);
    assert keys[0..] == keys && privateKeys[0..] == privateKeys && r.path[0..] == r.path;
    assert ReplyInfo(meta)[1..] == meta;
  }
}
