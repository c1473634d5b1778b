/** Scylla byte by byte: what comes out for every input, valid or not, in terms of the primitives. */
module ScyllaBytes {
  import opened Bytes
  import opened Wrappers
  import opened LayeredHeader
  import opened ScyllaPrimitives
  import opened Scylla
  import opened ScyllaPaths
  import opened ScyllaAont
  import opened ScyllaFragments

  // ---------- Processing ----------

  /** `routing` is the header followed by a block of zeros, under the keystream of the routing key. */
  ghost predicate RoutingOf(suite: Suite, secret: Point, beta: Bytes, routing: Bytes) {
    && |routing| == |beta| + BYTES_PER_HOP
    && forall j :: 0 <= j < |routing| ==>
         routing[j] == XorByte(if j < |beta| then beta[j] else 0, suite.rho(suite.hRho(secret), j))
  }

  lemma RoutingIsDecrypted(suite: Suite, secret: Point, beta: Bytes, routing: Bytes)
    requires RoutingOf(suite, secret, beta, routing)
    ensures Decrypted(suite.rho, suite.hRho(secret), beta) == routing
  {
    hide XorByte;
  }

  /** What a node makes of any onion that is long enough and starts with a point: which error is reported, and
      when, and otherwise every byte of the output. */
  lemma ProcessExactly(config: Config, suite: Suite, privateKey: Scalar, onion: Bytes, alpha: Point, routing: Bytes)
    requires ALPHA_LEN + HeaderLength(config) + KAPPA <= |onion| && suite.decompress(onion[..ALPHA_LEN]) == Some(alpha)
    requires RoutingOf(suite, suite.act(alpha, privateKey), onion[ALPHA_LEN..ALPHA_LEN + HeaderLength(config)], routing)
    ensures var n, secret := HeaderLength(config), suite.act(alpha, privateKey);
            var out := Process(config, suite, privateKey, onion);
            var beta, tag, delta := onion[32..32 + n], onion[32 + n..48 + n], onion[48 + n..];
            var data := if delta == [] then [] else suite.cipher.decrypt(suite.hPi(secret), delta);
            && (out == Failed(MacMismatch) <==> tag != suite.mu(suite.hMu(secret), beta))
            && (out == Panicked <==>
                  tag == suite.mu(suite.hMu(secret), beta) && delta != [] && |delta| < suite.cipher.minBlock)
            && (out == Failed(InvalidHeaderFlag) <==>
                  && tag == suite.mu(suite.hMu(secret), beta) && (delta == [] || suite.cipher.minBlock <= |delta|)
                  && routing[0] != 0xf0 && routing[0] != 0xf1 && routing[0] != 0xf2)
            && (out.Done? ==>
                  out.value == if routing[0] == 0xf1 then
                                 Relay(routing[1..44], suite.compress(suite.act(alpha, suite.hB(alpha, secret)))
                                                       + routing[60..] + routing[44..60] + data)
                               else if routing[0] == 0xf2 then
                                 Fragment(FromBE(routing[17..33]), FromBE(routing[1..17]), data)
                               else Reply(routing[1..52], data))
  {
    hide XorByte, RoutingOf, Decrypted;
    var n, secret := HeaderLength(config), suite.act(alpha, privateKey);
    RoutingIsDecrypted(suite, secret, onion[ALPHA_LEN..ALPHA_LEN + n], routing);
    assert routing[..60][1..44] == routing[1..44] && routing[..60][44..] == routing[44..60];
    assert routing[..60][17..33] == routing[17..33] && routing[..60][1..17] == routing[1..17];
    assert routing[..60][1..52] == routing[1..52];
  }

  /** Onions that are too short, or do not start with a point, make a node fail. */
  lemma ProcessFails(config: Config, suite: Suite, privateKey: Scalar, onion: Bytes)
    ensures |onion| < ALPHA_LEN + HeaderLength(config) + KAPPA || suite.decompress(onion[..ALPHA_LEN]).None? ==>
              Process(config, suite, privateKey, onion) == Panicked
  {
  }

  // ---------- Wrapping ----------

  /** An onion starts with the base point times the secret that was drawn for it. */
  lemma WrappedFront(config: Config, suite: Suite, r: Route, payload: Bytes)
    requires Valid(config, suite, r)
    ensures var onion := WrappedOnion(config, suite, r.path, r.secret, r.finalInfo, r.padding, payload);
            onion[..ALPHA_LEN] == suite.compress(suite.act(suite.base, r.secret))
  {
    hide Beta, XorByte;
    assert |suite.compress(suite.act(suite.base, r.secret))| == ALPHA_LEN;
  }

  /** The header for the last hop: the final information under its keystream, followed by the padding as drawn. */
  lemma LastHeaderBytes(config: Config, suite: Suite, r: Route)
    requires Valid(config, suite, r)
    ensures var beta, last := Header(config, suite, r, |r.path| - 1), |r.path| - 1;
            && (forall j :: 0 <= j < |r.finalInfo| ==>
                  beta[j] == XorByte(r.finalInfo[j], suite.rho(suite.hRho(Secrets(suite, r)[last]), j)))
            && |r.finalInfo| + |r.padding| <= |beta|
            && beta[|r.finalInfo|..|r.finalInfo| + |r.padding|] == r.padding
  {
    hide XorByte, GroupLaws;
  }

  /** Every onion is wrapped with its own secret and its own padding. */
  lemma OnionsDrawn(config: Config, suite: Suite, paths: seq<seq<Node>>, destination: FinalHopMeta,
                    fragments: seq<Bytes>, draws: Draws, i: nat)
    requires HashLaws(suite) && DrawsFor(config, paths, draws) && i < |paths|
    requires Created(config, suite, paths, destination, fragments, draws).Done?
    ensures |Created(config, suite, paths, destination, fragments, draws).value| == |paths| == |fragments|
    ensures ValidPath(config, paths[i])
    ensures Created(config, suite, paths, destination, fragments, draws).value[i]
         == WrappedOnion(config, suite, paths[i], draws.secrets[i], FragmentInfo(i, draws.setId), draws.paddings[i],
                         Payloads(suite, destination, fragments, draws)[i])
  {
    hide HashLaws, WrappedOnion, RightSizes, SameEnd, Transformed;
  }

  // ---------- The transform ----------

  /** What the transform hides the randomness and the message in. */
  function BodyOf(transformed: seq<Bytes>): Bytes
    requires transformed != [] && KAPPA <= |transformed[0]|
  {
    transformed[0][KAPPA..] + Flatten(transformed[1..])
  }

  lemma BodyIsBodies(transformed: seq<Bytes>)
    requires transformed != [] && KAPPA <= |transformed[0]|
    ensures BodyOf(transformed) == Flatten(Bodies(transformed))
  {
    assert Bodies(transformed)[1..] == transformed[1..];
  }

  /** The first 16 bytes are the randomness under the hash of all other bytes; these are the message under the
      keystream of the randomness. */
  lemma TransformedBytes(suite: Suite, randomness: Randomness, fragments: seq<Bytes>)
    requires HashLaws(suite) && fragments != []
    ensures var transformed, message := Transformed(suite, randomness, fragments), Flatten(fragments);
            var body := BodyOf(transformed);
            && |body| == |message|
            && (forall i :: 0 <= i < KAPPA ==> transformed[0][i] == XorByte(randomness[i], suite.sha256(body)[i]))
            && forall j :: 0 <= j < |body| ==> body[j] == XorByte(message[j], suite.shake128(randomness, j))
  {
    hide XorByte, Transformed;
    var transformed := Transformed(suite, randomness, fragments);
    TransformedParts(suite, randomness, fragments);
    BodyIsBodies(transformed);
    assert forall i :: 0 <= i < KAPPA ==> transformed[0][i] == transformed[0][..KAPPA][i];
  }

  /** And so for the inverse. */
  lemma RestoredBytes(suite: Suite, transformed: seq<Bytes>)
    requires HashLaws(suite) && transformed != [] && KAPPA <= |transformed[0]|
    ensures var randomness, message := Recovered(suite, transformed), Flatten(Restored(suite, transformed));
            var body := BodyOf(transformed);
            && |body| == |message|
            && (forall i :: 0 <= i < KAPPA ==> randomness[i] == XorByte(transformed[0][i], suite.sha256(body)[i]))
            && forall j :: 0 <= j < |body| ==> message[j] == XorByte(body[j], suite.shake128(randomness, j))
  {
    hide XorByte;
    var bodies := Bodies(transformed);
    BodyIsBodies(transformed);
    CutLikeFlattens(bodies, Masked(suite, Recovered(suite, transformed), Flatten(bodies)));
  }

  /** The payloads are the zeros, the destination and the message, transformed with the randomness that was
      drawn. */
  lemma PayloadBytes(suite: Suite, destination: FinalHopMeta, fragments: seq<Bytes>, draws: Draws)
    requires HashLaws(suite) && fragments != []
    ensures var payloads := Payloads(suite, destination, fragments, draws);
            var plain := Zeros(KAPPA) + destination + Flatten(fragments);
            && KAPPA <= |payloads[0]| && |BodyOf(payloads)| == |plain|
            && (forall i :: 0 <= i < KAPPA ==>
                  payloads[0][i] == XorByte(draws.randomness[i], suite.sha256(BodyOf(payloads))[i]))
            && forall j :: 0 <= j < |plain| ==>
                 BodyOf(payloads)[j] == XorByte(plain[j], suite.shake128(draws.randomness, j))
  {
    hide XorByte, Transformed, HashLaws;
    var addressed := Addressed(destination, fragments);
    TransformedBytes(suite, draws.randomness, addressed);
    assert addressed[1..] == fragments[1..];
    assert Flatten(addressed) == Zeros(KAPPA) + destination + (fragments[0] + Flatten(fragments[1..]));
  }

  // ---------- Putting fragments together ----------

  lemma ZeroPrefix(data: Bytes)
    requires KAPPA <= |data|
    ensures data[..KAPPA] == Zeros(KAPPA) <==> forall i :: 0 <= i < KAPPA ==> data[i] == 0
  {
    if forall i :: 0 <= i < KAPPA ==> data[i] == 0 {
      assert forall i :: 0 <= i < KAPPA ==> data[..KAPPA][i] == Zeros(KAPPA)[i];
    }
    if data[..KAPPA] == Zeros(KAPPA) {
      assert forall i :: 0 <= i < KAPPA ==> data[i] == data[..KAPPA][i];
    }
  }

  /** Fragments are missing if and only if the restored data does not start with 16 zeros; otherwise the next 32
      bytes are the destination and the rest is the message, and it fails if these 32 bytes are not there. */
  lemma DefragExactly(suite: Suite, fragments: seq<Bytes>)
    requires HashLaws(suite) && fragments != [] && KAPPA <= |fragments[0]|
    ensures var data, out := Flatten(Restored(suite, fragments)), Defragmented(suite, fragments);
            && (out == Failed(MissingFragments) <==> |data| < KAPPA || exists i :: 0 <= i < KAPPA && data[i] != 0)
            && (forall a, m :: out == Done((a, m)) <==> |a| == 32 && data == Zeros(KAPPA) + a + m)
            && (out == Panicked <==> KAPPA <= |data| < KAPPA + 32 && forall i :: 0 <= i < KAPPA ==> data[i] == 0)
            && (out.Failed? ==> out.error == MissingFragments)
  {
    hide HashLaws, Restored;
    var data, out := Flatten(Restored(suite, fragments)), Defragmented(suite, fragments);
    if KAPPA <= |data| { ZeroPrefix(data); }
    forall a: Bytes, m: Bytes
      ensures out == Done((a, m)) <==> |a| == 32 && data == Zeros(KAPPA) + a + m
    {
      if |a| == 32 && data == Zeros(KAPPA) + a + m {
        assert data[..KAPPA] == Zeros(KAPPA) && data[KAPPA..KAPPA + 32] == a && data[KAPPA + 32..] == m;
      }
      if out == Done((a, m)) {
        assert data == data[..KAPPA] + data[KAPPA..KAPPA + 32] + data[KAPPA + 32..];
      }
    }
  }

  // ---------- The errors of create_onions ----------

  /** Do the paths `p` and `q` end at the same node, or are both empty? */
  predicate EndAlike(p: seq<Node>, q: seq<Node>) {
    if p == [] || q == [] then p == q else p[|p| - 1] == q[|q| - 1]
  }

  /** The size of fragment `i` with what is added to the first. */
  function FullSize(fragments: seq<Bytes>, i: nat): nat
    requires i < |fragments|
  {
    |fragments[i]| + if i == 0 then 64 else 0
  }

  /** Which error is reported, in the order of the checks. */
  lemma ComplaintExactly(config: Config, paths: seq<seq<Node>>, fragments: seq<Bytes>)
    ensures var sized := forall i :: 0 <= i < |fragments| ==> FullSize(fragments, i) == config.payloadSize;
            var joined := forall i :: 1 <= i < |paths| ==> EndAlike(paths[i], paths[0]);
            && (Complaint(config, paths, fragments) == Some(InvalidPathCount) <==> |fragments| != |paths|)
            && (Complaint(config, paths, fragments) == Some(InvalidFragmentSize) <==> |fragments| == |paths| && !sized)
            && (Complaint(config, paths, fragments) == Some(DivergingPaths) <==>
                  |fragments| == |paths| && sized && !joined)
            && (Complaint(config, paths, fragments) == None <==> |fragments| == |paths| && sized && joined)
  {
    assert forall i :: 1 <= i < |paths| ==> (EndAlike(paths[i], paths[0]) <==> LastOf(paths[i]) == LastOf(paths[0]));
    assert RightSizes(config, fragments) <==>
             forall i :: 0 <= i < |fragments| ==> FullSize(fragments, i) == config.payloadSize by {
      if RightSizes(config, fragments) {
        forall i | 0 <= i < |fragments|
          ensures FullSize(fragments, i) == config.payloadSize
        {
        }
      } else if fragments != [] && FirstLength(fragments) != config.payloadSize {
        assert FullSize(fragments, 0) != config.payloadSize;
      } else {
        var i :| 1 <= i < |fragments| && |fragments[i]| != config.payloadSize;
        assert FullSize(fragments, i) != config.payloadSize;
      }
    }
  }

  /** An error is returned whenever there is one. */
  lemma CreatedFails(config: Config, suite: Suite, paths: seq<seq<Node>>, destination: FinalHopMeta,
                     fragments: seq<Bytes>, draws: Draws, error: Error)
    requires HashLaws(suite) && DrawsFor(config, paths, draws)
    ensures Created(config, suite, paths, destination, fragments, draws) == Failed(error)
       <==> Complaint(config, paths, fragments) == Some(error)
  {
    hide HashLaws, RightSizes, SameEnd, OnionsOf, Payloads;
  }
}
