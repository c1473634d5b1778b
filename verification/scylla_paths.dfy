/** Processing undoes wrapping, hop by hop and over whole paths. */
module ScyllaPaths {
  import opened Bytes
  import opened Wrappers
  import opened LayeredHeader
  import opened ScyllaPrimitives
  import opened Scylla

  /** What the sender chooses: the path, its ephemeral secret, the information for the last hop, the padding. */
  datatype Route = Route(path: seq<Node>, secret: Scalar, finalInfo: FinalInfo, padding: Bytes)

  ghost predicate Valid(config: Config, suite: Suite, r: Route) {
    && ValidPath(config, r.path) && |r.padding| == BLOCK * (config.maxPathLength - |r.path|)
    && GroupLaws(suite) && HashLaws(suite)
  }

  /** Every node of the path holds the private key of its public key. */
  ghost predicate Owned(suite: Suite, path: seq<Node>, privateKeys: seq<Scalar>) {
    && |privateKeys| == |path|
    && forall i :: 0 <= i < |path| ==> path[i].publicKey == suite.act(suite.base, privateKeys[i])
  }

  function Secrets(suite: Suite, r: Route): (s: seq<Point>)
    ensures |s| == |r.path|
  {
    SharedSecrets(suite, r.path, r.secret)
  }

  function Keys(suite: Suite, r: Route): (s: seq<Bytes>)
    ensures |s| == |r.path|
  {
    RhoKeys(suite, Secrets(suite, r))
  }

  ghost function Header(config: Config, suite: Suite, r: Route, i: nat): (beta: Bytes)
    requires Valid(config, suite, r) && i < |r.path|
    ensures |beta| == HeaderLength(config)
  {
    Beta(config, suite, r.path, Secrets(suite, r), r.finalInfo, r.padding, i)
  }

  ghost function At(config: Config, suite: Suite, r: Route, i: nat, delta: Bytes): Bytes
    requires Valid(config, suite, r) && i < |r.path|
  {
    OnionAt(config, suite, r.path, r.secret, r.finalInfo, r.padding, i, delta)
  }

  // ---------- The key exchange ----------

  lemma {:induction false} AlphaIsPower(suite: Suite, path: seq<Node>, secret: Scalar, i: nat)
    requires GroupLaws(suite) && i <= |path|
    ensures var b := BlindedAt(suite, path, secret, i); b.alpha == suite.act(suite.base, b.factor)
    ensures var alpha := BlindedAt(suite, path, secret, i).alpha;
            |suite.compress(alpha)| == ALPHA_LEN && suite.decompress(suite.compress(alpha)) == Some(alpha)
  {
    if i > 0 {
      AlphaIsPower(suite, path, secret, i - 1);
    }
  }

  /** A node computes from `alpha` and its private key the secret that the sender computed from the blinding
      factor and the public key. */
  lemma SecretsAgree(suite: Suite, path: seq<Node>, privateKeys: seq<Scalar>, secret: Scalar, i: nat)
    requires GroupLaws(suite) && Owned(suite, path, privateKeys) && i < |path|
    ensures suite.act(BlindedAt(suite, path, secret, i).alpha, privateKeys[i]) == SharedSecret(suite, path, secret, i)
  {
    AlphaIsPower(suite, path, secret, i);
    var factor := BlindedAt(suite, path, secret, i).factor;
    assert suite.act(suite.act(suite.base, factor), privateKeys[i])
        == suite.act(suite.base, suite.mul(factor, privateKeys[i]));
    assert suite.act(suite.act(suite.base, privateKeys[i]), factor)
        == suite.act(suite.base, suite.mul(privateKeys[i], factor));
  }

  // ---------- The header ----------

  /** At every layer the header ends in the filler string. */
  lemma {:induction false} HeaderEndsInFiller(config: Config, suite: Suite, r: Route, i: nat)
    requires Valid(config, suite, r) && i < |r.path|
    ensures var n := HeaderLength(config);
            Header(config, suite, r, i)[n - i * BLOCK..] == Filler(suite.rho, Keys(suite, r), n, i)
    decreases |r.path| - i
  {
    hide LayeredHeader.Encrypted, LayeredHeader.FillerStep, GroupLaws;
    if i < |r.path| - 1 {
      HeaderEndsInFiller(config, suite, r, i + 1);
      LayerUndone(suite.rho, Keys(suite, r), i, InfoFor(config, suite, r, i), Header(config, suite, r, i + 1));
    }
  }

  /** What relay `i` learns. */
  ghost function InfoFor(config: Config, suite: Suite, r: Route, i: nat): (info: Bytes)
    requires Valid(config, suite, r) && i + 1 < |r.path|
    ensures |info| == BLOCK
  {
    RelayInfo(r.path[i + 1].address, suite.mu(suite.hMu(Secrets(suite, r)[i + 1]), Header(config, suite, r, i + 1)))
  }

  lemma RelaySees(config: Config, suite: Suite, r: Route, i: nat)
    requires Valid(config, suite, r) && i + 1 < |r.path|
    ensures Decrypted(suite.rho, Keys(suite, r)[i], Header(config, suite, r, i))
         == InfoFor(config, suite, r, i) + Header(config, suite, r, i + 1)
  {
    hide LayeredHeader.Encrypted, LayeredHeader.Decrypted, LayeredHeader.FillerStep, GroupLaws;
    HeaderEndsInFiller(config, suite, r, i + 1);
    LayerUndone(suite.rho, Keys(suite, r), i, InfoFor(config, suite, r, i), Header(config, suite, r, i + 1));
  }

  lemma LastSees(config: Config, suite: Suite, r: Route)
    requires Valid(config, suite, r)
    ensures var i := |r.path| - 1;
            Decrypted(suite.rho, Keys(suite, r)[i], Header(config, suite, r, i))[..|r.finalInfo|] == r.finalInfo
  {
    hide GroupLaws, XorByte, LayeredHeader.Decrypted, Xor;
    var i := |r.path| - 1;
    var key, filler := Keys(suite, r)[i], Filler(suite.rho, Keys(suite, r), HeaderLength(config), i);
    FrontDecrypts(suite.rho, key, r.finalInfo, r.padding + filler);
    assert Header(config, suite, r, i)
        == Xor(r.finalInfo, Stream(suite.rho, key, |r.finalInfo|)) + (r.padding + filler);
  }

  // ---------- One hop ----------

  /** The parts of an onion are found where `process` looks for them. */
  lemma OnionParts(config: Config, alpha: Bytes, beta: Bytes, gamma: Bytes, delta: Bytes)
    requires |alpha| == ALPHA_LEN && |beta| == HeaderLength(config) && |gamma| == KAPPA
    ensures var onion, n := Onion(alpha, beta, gamma, delta), HeaderLength(config);
            && |onion| == ALPHA_LEN + n + KAPPA + |delta|
            && onion[..ALPHA_LEN] == alpha && onion[ALPHA_LEN..ALPHA_LEN + n] == beta
            && onion[ALPHA_LEN + n..ALPHA_LEN + n + KAPPA] == gamma && onion[ALPHA_LEN + n + KAPPA..] == delta
  {
  }

  lemma TagLength(suite: Suite, key: Bytes, beta: Bytes)
    requires HashLaws(suite)
    ensures |suite.mu(key, beta)| == KAPPA
  {
  }

  lemma ProcessOf(config: Config, suite: Suite, privateKey: Scalar, alpha: Point, beta: Bytes, delta: Bytes)
    requires |suite.compress(alpha)| == ALPHA_LEN && suite.decompress(suite.compress(alpha)) == Some(alpha)
    requires |beta| == HeaderLength(config) && Cipherable(suite, delta)
    requires |suite.mu(suite.hMu(suite.act(alpha, privateKey)), beta)| == KAPPA
    ensures var secret := suite.act(alpha, privateKey);
            var onion := Onion(suite.compress(alpha), beta, suite.mu(suite.hMu(secret), beta), delta);
            var routing := Decrypted(suite.rho, suite.hRho(secret), beta);
            var blinded := suite.act(alpha, suite.hB(alpha, secret));
            Process(config, suite, privateKey, onion)
              == Handle(suite, routing, blinded, PiInv(suite, suite.hPi(secret), delta))
  {
    hide Decrypted, Handle, Onion, PiInv;
    var secret := suite.act(alpha, privateKey);
    OnionParts(config, suite.compress(alpha), beta, suite.mu(suite.hMu(secret), beta), delta);
  }

  /** Every tag is right, and what is handled is the decrypted header and payload. */
  lemma ProcessHandles(config: Config, suite: Suite, r: Route, privateKeys: seq<Scalar>, i: nat, delta: Bytes)
    requires Valid(config, suite, r) && Owned(suite, r.path, privateKeys) && i < |r.path| && Cipherable(suite, delta)
    ensures |At(config, suite, r, i, delta)| == ALPHA_LEN + HeaderLength(config) + KAPPA + |delta|
    ensures Process(config, suite, privateKeys[i], At(config, suite, r, i, delta))
         == Handle(suite, Decrypted(suite.rho, Keys(suite, r)[i], Header(config, suite, r, i)),
                   BlindedAt(suite, r.path, r.secret, i + 1).alpha,
                     PiInv(suite, PiKeys(suite, Secrets(suite, r))[i], delta))
  {
    hide Decrypted, Handle, Onion, XorByte, Beta, GroupLaws, HashLaws, Process, PiInv;
    var alpha, secret := BlindedAt(suite, r.path, r.secret, i).alpha, SharedSecret(suite, r.path, r.secret, i);
    var beta := Header(config, suite, r, i);
    AlphaIsPower(suite, r.path, r.secret, i);
    SecretsAgree(suite, r.path, privateKeys, r.secret, i);
    TagLength(suite, suite.hMu(secret), beta);
    ProcessOf(config, suite, privateKeys[i], alpha, beta, delta);
    OnionParts(config, suite.compress(alpha), beta, suite.mu(suite.hMu(secret), beta), delta);
    assert Secrets(suite, r)[i] == secret;
    assert BlindedAt(suite, r.path, r.secret, i + 1).alpha == suite.act(alpha, suite.hB(alpha, secret));
  }

  /** A relay learns the next address, and passes on exactly the onion that the sender meant for the next
      hop, with one layer less around the payload, whatever the payload is. */
  lemma RelayPeels(config: Config, suite: Suite, r: Route, privateKeys: seq<Scalar>, i: nat, delta: Bytes)
    requires Valid(config, suite, r) && Owned(suite, r.path, privateKeys) && i + 1 < |r.path|
    requires Cipherable(suite, delta)
    ensures Process(config, suite, privateKeys[i], At(config, suite, r, i, delta))
         == Done(Relay(r.path[i + 1].address + Zeros(PER_HOP_META_LENGTH - ADDRESS_LENGTH),
                       At(config, suite, r, i + 1, PiInv(suite, PiKeys(suite, Secrets(suite, r))[i], delta))))
  {
    hide Process, LayeredHeader.Decrypted, GroupLaws;
    ProcessHandles(config, suite, r, privateKeys, i, delta);
    RelaySees(config, suite, r, i);
    var info, inner := InfoFor(config, suite, r, i), Header(config, suite, r, i + 1);
    var tag := suite.mu(suite.hMu(Secrets(suite, r)[i + 1]), inner);
    assert (info + inner)[..BYTES_PER_HOP] == info && (info + inner)[BYTES_PER_HOP..] == inner;
    assert info[1..1 + PER_HOP_META_LENGTH] == r.path[i + 1].address + Zeros(PER_HOP_META_LENGTH - ADDRESS_LENGTH);
    assert info[1 + PER_HOP_META_LENGTH..] == tag;
  }

  /** What the last hop makes of the information meant for it. */
  function Received(finalInfo: FinalInfo, data: Bytes): Processed {
    if finalInfo[0] == FRAGMENT then
      Fragment(FromBE(finalInfo[1 + KAPPA..1 + 2 * KAPPA]), FromBE(finalInfo[1..1 + KAPPA]), data)
    else
      Reply(finalInfo[1..], data)
  }

  predicate ForLastHop(finalInfo: FinalInfo) {
    finalInfo[0] == FRAGMENT || finalInfo[0] == DELIVER
  }

  lemma LastPeels(config: Config, suite: Suite, r: Route, privateKeys: seq<Scalar>, delta: Bytes)
    requires Valid(config, suite, r) && Owned(suite, r.path, privateKeys) && ForLastHop(r.finalInfo)
    requires Cipherable(suite, delta)
    ensures var i := |r.path| - 1;
            var data := PiInv(suite, PiKeys(suite, Secrets(suite, r))[i], delta);
            Process(config, suite, privateKeys[i], At(config, suite, r, i, delta)) == Done(Received(r.finalInfo, data))
  {
    hide Process, LayeredHeader.Decrypted, GroupLaws, FromBE;
    var i := |r.path| - 1;
    ProcessHandles(config, suite, r, privateKeys, i, delta);
    LastSees(config, suite, r);
    var routing := Decrypted(suite.rho, Keys(suite, r)[i], Header(config, suite, r, i));
    var info := routing[..BYTES_PER_HOP];
    assert info[..|r.finalInfo|] == r.finalInfo;
    assert info[0] == r.finalInfo[0];
    assert info[1 + KAPPA..1 + 2 * KAPPA] == r.finalInfo[1 + KAPPA..1 + 2 * KAPPA];
    assert info[1..1 + KAPPA] == r.finalInfo[1..1 + KAPPA];
    assert info[1..1 + REPLY_META_LENGTH] == r.finalInfo[1..];
  }

  // ---------- Whole paths ----------

  /** What the nodes with these private keys make of an onion, one after the other, as long as it is relayed. */
  function Journey(config: Config, suite: Suite, privateKeys: seq<Scalar>, onion: Bytes): seq<Outcome<Processed>> {
    if privateKeys == [] then []
    else
      var out := Process(config, suite, privateKeys[0], onion);
      [out] + if out.Done? && out.value.Relay? then Journey(config, suite, privateKeys[1..], out.value.onion) else []
  }

  /** The onion passes the nodes of `path` and its length never changes; the last node gets `last`. */
  ghost predicate Arrives(path: seq<Node>, journey: seq<Outcome<Processed>>, length: nat, last: Processed) {
    && |journey| == |path| && path != []
    && journey[|path| - 1] == Done(last)
    && forall k :: 0 <= k < |path| - 1 ==> RelayedTo(journey[k], path[k + 1], length)
  }

  ghost predicate RelayedTo(out: Outcome<Processed>, next: Node, length: nat) {
    && out.Done? && out.value.Relay?
    && out.value.meta == next.address + Zeros(PER_HOP_META_LENGTH - ADDRESS_LENGTH)
    && |out.value.onion| == length
  }

  lemma ArrivesNext(path: seq<Node>, out: Outcome<Processed>, rest: seq<Outcome<Processed>>, length: nat,
                    last: Processed)
    requires 2 <= |path| && RelayedTo(out, path[1], length) && Arrives(path[1..], rest, length, last)
    ensures Arrives(path, [out] + rest, length, last)
  {
  }

  lemma {:induction false} JourneyFrom(config: Config, suite: Suite, r: Route, privateKeys: seq<Scalar>, i: nat,
                                       delta: Bytes)
    requires Valid(config, suite, r) && CipherLaws(suite) && Owned(suite, r.path, privateKeys)
    requires ForLastHop(r.finalInfo)
    requires i < |r.path| && Cipherable(suite, delta)
    ensures Arrives(r.path[i..], Journey(config, suite, privateKeys[i..], At(config, suite, r, i, delta)),
                    ALPHA_LEN + HeaderLength(config) + KAPPA + |delta|,
                    Received(r.finalInfo, Unwrapped(suite, PiKeys(suite, Secrets(suite, r))[i..], delta)))
    decreases |r.path| - i
  {
    hide Process, OnionAt, GroupLaws, CipherLaws, HashLaws, Received;
    var keys, path := PiKeys(suite, Secrets(suite, r)), r.path[i..];
    var inner := PiInv(suite, keys[i], delta);
    PiUndone(suite, keys[i], delta);
    assert keys[i..][0] == keys[i] && keys[i..][1..] == keys[i + 1..];
    assert privateKeys[i..][0] == privateKeys[i] && privateKeys[i..][1..] == privateKeys[i + 1..];
    if i == |r.path| - 1 {
      LastPeels(config, suite, r, privateKeys, delta);
      assert keys[i + 1..] == [] && privateKeys[i + 1..] == [];
    } else {
      RelayPeels(config, suite, r, privateKeys, i, delta);
      ProcessHandles(config, suite, r, privateKeys, i + 1, inner);
      JourneyFrom(config, suite, r, privateKeys, i + 1, inner);
      assert path[1] == r.path[i + 1] && path[1..] == r.path[i + 1..];
      ArrivesNext(path, Process(config, suite, privateKeys[i], At(config, suite, r, i, delta)),
                  Journey(config, suite, privateKeys[i + 1..], At(config, suite, r, i + 1, inner)),
                  ALPHA_LEN + HeaderLength(config) + KAPPA + |delta|,
                  Received(r.finalInfo, Unwrapped(suite, keys[i..], delta)));
    }
  }

  /** The core of Scylla: whatever a sender wraps for a path, the nodes of the path relay it in order, and the
      last of them gets the information and the payload that were put in. */
  lemma ProcessingUndoesWrapping(config: Config, suite: Suite, r: Route, privateKeys: seq<Scalar>, payload: Bytes)
    requires Valid(config, suite, r) && CipherLaws(suite) && Owned(suite, r.path, privateKeys)
    requires ForLastHop(r.finalInfo)
    requires Cipherable(suite, payload)
    ensures var onion := WrappedOnion(config, suite, r.path, r.secret, r.finalInfo, r.padding, payload);
            && |onion| == ALPHA_LEN + HeaderLength(config) + KAPPA + |payload|
            && Arrives(r.path, Journey(config, suite, privateKeys, onion), |onion|, Received(r.finalInfo, payload))
  {
    hide OnionAt, GroupLaws, CipherLaws, HashLaws, Received;
    var keys := PiKeys(suite, Secrets(suite, r));
    var delta := Wrapped(suite, keys, payload);
    PayloadUndone(suite, keys, payload);
    ProcessHandles(config, suite, r, privateKeys, 0, delta);
    JourneyFrom(config, suite, r, privateKeys, 0, delta);
    assert keys[0..] == keys && privateKeys[0..] == privateKeys && r.path[0..] == r.path;
  }
}
