/** Sphinx packets along whole routes. */
module SphinxPacket {
  import opened Bytes
  import opened WideBlock
  import opened LayeredHeader
  import opened SphinxPrimitives
  import opened SphinxHeader
  import opened SphinxPayload

  datatype Packet = Packet(header: Header, payload: Bytes)

  datatype ProcessedPacket =
    | ForwardPacket(packet: Packet, address: NodeAddress, delay: Delay)
    | FinalPacket(destination: DestinationAddress, identifier: Identifier, payload: Bytes)

  /** `SphinxPacket::process`. */
  function ProcessPacket(max: Pos, suite: Suite, secretKey: Scalar, packet: Packet): (r: Outcome<ProcessedPacket>)
    requires Sized(max, packet.header.routing)
    ensures r.Done? && r.value.ForwardPacket? ==> Sized(max, r.value.packet.header.routing)
  {
    var processed := ProcessHeader(max, suite, secretKey, packet.header);
    if processed.Failed? then Failed(processed.error)
    else
      var payload := RemoveLayer(suite, processed.value.payloadKey, packet.payload);
      if payload.Failed? then Failed(payload.error)
      else
        match processed.value
        case ForwardHeader(header, address, delay, _) =>
          Done(ForwardPacket(Packet(header, payload.value), address, delay))
        case FinalHeader(destination, identifier, _) => Done(FinalPacket(destination, identifier, payload.value))
  }

  /** `build_packet`, with the random draws as part of the plan. */
  function BuildPacket(max: Pos, suite: Suite, p: Plan, message: Bytes, payloadSize: nat): Outcome<Packet>
    requires ValidPlan(max, p)
  {
    var (header, payloadKeys) := NewHeader(max, suite, p);
    var payload := Encapsulate(suite, message, payloadKeys, payloadSize);
    if payload.Failed? then Failed(payload.error) else Done(Packet(header, payload.value))
  }

  method MakePacket(max: Pos, suite: Suite, p: Plan, message: Bytes, payloadSize: nat) returns (result: Outcome<Packet>)
    requires ValidPlan(max, p) && Permutes(suite.cipher)
    ensures result == BuildPacket(max, suite, p, message, payloadSize)
  {
    hide Permutes, NewHeader, Encapsulate;
    var header, payloadKeys := MakeHeader(max, suite, p);
    var payload := EncapsulateMessage(suite, message, payloadKeys, payloadSize);
    result := if payload.Failed? then Failed(payload.error) else Done(Packet(header, payload.value));
  }

  // ---------- The key exchange ----------

  /** Every node of the route holds the private key of its public key. */
  ghost predicate Owned(suite: Suite, route: seq<Node>, privateKeys: seq<Scalar>) {
    && |privateKeys| == |route|
    && forall i :: 0 <= i < |route| ==> route[i].pubKey == suite.publicKey(privateKeys[i])
  }

  /** The group element in the header that hop `i` receives. */
  function Alpha(suite: Suite, p: Plan, i: nat): PublicKey
    requires i <= |p.route|
  {
    suite.publicKey(Accumulator(suite, p.route, p.secret, i))
  }

  /** A node derives the keys that the sender derived for it, and blinds the group element just as the sender
      blinds its accumulator. */
  lemma KeysAgree(suite: Suite, p: Plan, privateKeys: seq<Scalar>, i: nat)
    requires GroupLaws(suite) && Owned(suite, p.route, privateKeys) && i < |p.route|
    ensures var keys := KeysAt(suite, p.route, p.secret, i);
            && Derive(suite, suite.diffieHellman(privateKeys[i], Alpha(suite, p, i))) == keys
            && suite.diffieHellman(suite.scalarOf(keys.blindingFactor), Alpha(suite, p, i)) == Alpha(suite, p, i + 1)
  {
  }

  // ---------- The routing information ----------

  function Keys(suite: Suite, p: Plan): (r: seq<RoutingKeys>)
    ensures |r| == |p.route|
  {
    RoutingKeysOf(suite, p.route, p.secret)
  }

  /** Layer `i` is put around layer `i + 1`. */
  lemma NextLayer(max: Pos, suite: Suite, p: Plan, i: nat)
    requires ValidPlan(max, p) && i + 1 < |p.route|
    ensures RoutingFrom(max, suite, p, i)
         == ForForwardHop(max, suite, p.route[i + 1].address, p.delays[i], Keys(suite, p)[i],
                          RoutingFrom(max, suite, p, i + 1))
  {
  }

  /** Truncating first, as is done here, makes the layers that LayeredHeader is about. */
  lemma LayerIsEncrypted(max: Pos, suite: Suite, address: NodeAddress, delay: Delay, keys: RoutingKeys,
                         next: Encapsulated)
    requires Sized(max, next)
    ensures ForForwardHop(max, suite, address, delay, keys, next).encrypted
         == Encrypted(suite.stream, keys.streamCipherKey, ForwardInfo(address, delay, next.mac), next.encrypted)
    ensures ForForwardHop(max, suite, address, delay, keys, next).mac
         == suite.hmac(keys.headerIntegrityHmacKey, ForForwardHop(max, suite, address, delay, keys, next).encrypted)
  {
  }

  lemma RawIsDecrypted(max: Pos, suite: Suite, key: Bytes, e: Encapsulated)
    requires Sized(max, e)
    ensures Raw(max, suite, key, e) == Decrypted(suite.stream, key, e.encrypted)
  {
  }

  ghost function InfoAt(max: Pos, suite: Suite, p: Plan, i: nat): (r: Bytes)
    requires ValidPlan(max, p) && i + 1 < |p.route|
    ensures |r| == BLOCK
  {
    ForwardInfo(p.route[i + 1].address, p.delays[i], RoutingFrom(max, suite, p, i + 1).mac)
  }

  lemma LastLayer(max: Pos, suite: Suite, p: Plan)
    requires ValidPlan(max, p)
    ensures var n, size := |p.route|, EncryptedSize(max);
            var last, key := RoutingFrom(max, suite, p, n - 1), Keys(suite, p)[n - 1];
            var padded := FinalInfo(p.destination) + p.padding;
            var filler := Filler(suite.stream, StreamKeys(Keys(suite, p)), size, n - 1);
            && last.encrypted == Xor(padded, Stream(suite.stream, key.streamCipherKey, |padded|)) + filler
            && last.mac == suite.hmac(key.headerIntegrityHmacKey, last.encrypted)
  {
    hide XorByte, Xor, Filler, FinalInfo;
    var n, keys := |p.route|, Keys(suite, p);
    assert LayersOf(p.route, keys, p.delays)[n - 1..] == [];
    StreamPrefix(suite.stream, keys[n - 1].streamCipherKey, |FinalInfo(p.destination) + p.padding|, OutputLength(max));
  }

  /** At every layer the routing information ends in the filler string. */
  lemma {:induction false} RoutingEndsInFiller(max: Pos, suite: Suite, p: Plan, i: nat)
    requires ValidPlan(max, p) && i < |p.route|
    ensures RoutingFrom(max, suite, p, i).encrypted[EncryptedSize(max) - i * BLOCK..]
         == Filler(suite.stream, StreamKeys(Keys(suite, p)), EncryptedSize(max), i)
    decreases |p.route| - i
  {
    hide RoutingFrom, FillerStep, LayeredHeader.Encrypted, ForForwardHop, FinalInfo, Xor, Stream;
    if i == |p.route| - 1 {
      LastLayer(max, suite, p);
    } else {
      var next := RoutingFrom(max, suite, p, i + 1);
      RoutingEndsInFiller(max, suite, p, i + 1);
      NextLayer(max, suite, p, i);
      LayerIsEncrypted(max, suite, p.route[i + 1].address, p.delays[i], Keys(suite, p)[i], next);
      LayerUndone(suite.stream, StreamKeys(Keys(suite, p)), i, InfoAt(max, suite, p, i), next.encrypted);
    }
  }

  lemma ForwardSees(max: Pos, suite: Suite, p: Plan, i: nat)
    requires ValidPlan(max, p) && i + 1 < |p.route|
    ensures Raw(max, suite, Keys(suite, p)[i].streamCipherKey, RoutingFrom(max, suite, p, i))
         == InfoAt(max, suite, p, i) + RoutingFrom(max, suite, p, i + 1).encrypted
  {
    hide RoutingFrom, FillerStep, LayeredHeader.Encrypted, LayeredHeader.Decrypted, Raw, ForForwardHop, Filler;
    var next := RoutingFrom(max, suite, p, i + 1);
    RoutingEndsInFiller(max, suite, p, i + 1);
    NextLayer(max, suite, p, i);
    LayerIsEncrypted(max, suite, p.route[i + 1].address, p.delays[i], Keys(suite, p)[i], next);
    LayerUndone(suite.stream, StreamKeys(Keys(suite, p)), i, InfoAt(max, suite, p, i), next.encrypted);
    RawIsDecrypted(max, suite, Keys(suite, p)[i].streamCipherKey, RoutingFrom(max, suite, p, i));
  }

  lemma LastSees(max: Pos, suite: Suite, p: Plan)
    requires ValidPlan(max, p)
    ensures var n := |p.route|;
            var raw := Raw(max, suite, Keys(suite, p)[n - 1].streamCipherKey, RoutingFrom(max, suite, p, n - 1));
            raw[..FINAL_NODE_META_INFO_LENGTH] == FinalInfo(p.destination)
  {
    hide RoutingFrom, LayeredHeader.Decrypted, Raw, Filler, FinalInfo, Xor, Stream;
    var n := |p.route|;
    var key, padded := Keys(suite, p)[n - 1].streamCipherKey, FinalInfo(p.destination) + p.padding;
    var raw := Raw(max, suite, key, RoutingFrom(max, suite, p, n - 1));
    LastLayer(max, suite, p);
    RawIsDecrypted(max, suite, key, RoutingFrom(max, suite, p, n - 1));
    FrontDecrypts(suite.stream, key, padded,
                  Filler(suite.stream, StreamKeys(Keys(suite, p)), EncryptedSize(max), n - 1));
    assert raw[..|padded|][..FINAL_NODE_META_INFO_LENGTH] == raw[..FINAL_NODE_META_INFO_LENGTH];
  }

  /** Every field is parsed where it was written. */
  lemma ForwardParsed(max: Pos, address: NodeAddress, delay: Delay, next: Encapsulated)
    requires Sized(max, next)
    ensures Parse(max, ForwardInfo(address, delay, next.mac) + next.encrypted) == Done(ForwardHop(address, delay, next))
  {
    hide ToBE, FromBE, Pow256;
    var raw := ForwardInfo(address, delay, next.mac) + next.encrypted;
    BERoundTrip(delay, DELAY_LENGTH);
    var i := FLAG_LENGTH + VERSION_LENGTH;
    var j := i + NODE_ADDRESS_LENGTH;
    var k := j + DELAY_LENGTH;
    assert raw[i..j] == address && raw[j..k] == ToBE(delay, DELAY_LENGTH) && raw[k..BLOCK] == next.mac
           && raw[BLOCK..] == next.encrypted;
  }

  lemma FinalParsed(max: Pos, destination: Destination, raw: Bytes)
    requires |raw| == OutputLength(max) && raw[..FINAL_NODE_META_INFO_LENGTH] == FinalInfo(destination)
    ensures Parse(max, raw) == Done(FinalHop(destination.address, destination.identifier))
  {
    var info := FinalInfo(destination);
    assert forall i :: 0 <= i < |info| ==> raw[i] == info[i];
    var i := FLAG_LENGTH + VERSION_LENGTH;
    var j := i + DESTINATION_ADDRESS_LENGTH;
    assert info[i..j] == destination.address && info[j..j + IDENTIFIER_LENGTH] == destination.identifier;
    assert raw[i..j] == info[i..j] && raw[j..j + IDENTIFIER_LENGTH] == info[j..j + IDENTIFIER_LENGTH];
  }

  // ---------- One hop ----------

  ghost function HeaderAt(max: Pos, suite: Suite, p: Plan, i: nat): (h: Header)
    requires ValidPlan(max, p) && i < |p.route|
    ensures Sized(max, h.routing)
  {
    Header(Alpha(suite, p, i), RoutingFrom(max, suite, p, i))
  }

  lemma MacAt(max: Pos, suite: Suite, p: Plan, i: nat)
    requires ValidPlan(max, p) && i < |p.route|
    ensures var e := RoutingFrom(max, suite, p, i);
            e.mac == suite.hmac(Keys(suite, p)[i].headerIntegrityHmacKey, e.encrypted)
  {
  }

  lemma ForwardPeels(max: Pos, suite: Suite, p: Plan, privateKeys: seq<Scalar>, i: nat)
    requires ValidPlan(max, p) && GroupLaws(suite) && Owned(suite, p.route, privateKeys) && i + 1 < |p.route|
    ensures ProcessHeader(max, suite, privateKeys[i], HeaderAt(max, suite, p, i))
         == Done(ForwardHeader(HeaderAt(max, suite, p, i + 1), p.route[i + 1].address, p.delays[i],
                               Keys(suite, p)[i].payloadKey))
  {
    hide RoutingFrom, Raw, Parse, Derive, Alpha, GroupLaws;
    KeysAgree(suite, p, privateKeys, i);
    MacAt(max, suite, p, i);
    ForwardSees(max, suite, p, i);
    ForwardParsed(max, p.route[i + 1].address, p.delays[i], RoutingFrom(max, suite, p, i + 1));
  }

  lemma FinalPeels(max: Pos, suite: Suite, p: Plan, privateKeys: seq<Scalar>)
    requires ValidPlan(max, p) && GroupLaws(suite) && Owned(suite, p.route, privateKeys)
    ensures var i := |p.route| - 1;
            var processed := FinalHeader(p.destination.address, p.destination.identifier, Keys(suite, p)[i].payloadKey);
            ProcessHeader(max, suite, privateKeys[i], HeaderAt(max, suite, p, i)) == Done(processed)
  {
    hide RoutingFrom, Raw, Parse, Derive, Alpha, GroupLaws, FinalInfo;
    var i := |p.route| - 1;
    KeysAgree(suite, p, privateKeys, i);
    MacAt(max, suite, p, i);
    LastSees(max, suite, p);
    FinalParsed(max, p.destination, Raw(max, suite, Keys(suite, p)[i].streamCipherKey, RoutingFrom(max, suite, p, i)));
  }

  // ---------- Whole routes ----------

  /** What the nodes with these private keys make of a packet, one after the other, as long as it is forwarded. */
  function Journey(max: Pos, suite: Suite, privateKeys: seq<Scalar>, packet: Packet): seq<Outcome<ProcessedPacket>>
    requires Sized(max, packet.header.routing)
  {
    if privateKeys == [] then []
    else
      var out := ProcessPacket(max, suite, privateKeys[0], packet);
      [out] + if !out.Done? || !out.value.ForwardPacket? then []
              else Journey(max, suite, privateKeys[1..], out.value.packet)
  }

  /** Hop by hop the packet is forwarded to the next node after the delay of the hop, its size never changing;
      the last node gets `payload` for the destination. */
  ghost predicate Arrives(route: seq<Node>, delays: seq<Delay>, destination: Destination,
                          journey: seq<Outcome<ProcessedPacket>>, payload: Bytes)
    requires |delays| == |route|
  {
    && |journey| == |route| && route != []
    && journey[|route| - 1] == Done(FinalPacket(destination.address, destination.identifier, payload))
    && forall k :: 0 <= k < |route| - 1 ==> ForwardedTo(journey[k], route[k + 1], delays[k], |payload|)
  }

  ghost predicate ForwardedTo(out: Outcome<ProcessedPacket>, next: Node, delay: Delay, size: nat) {
    && out.Done? && out.value.ForwardPacket? && |out.value.packet.payload| == size
    && out.value.address == next.address && out.value.delay == delay
  }

  lemma ArrivesNext(route: seq<Node>, delays: seq<Delay>, destination: Destination, out: Outcome<ProcessedPacket>,
                    rest: seq<Outcome<ProcessedPacket>>, payload: Bytes)
    requires 2 <= |route| == |delays| && ForwardedTo(out, route[1], delays[0], |payload|)
    requires Arrives(route[1..], delays[1..], destination, rest, payload)
    ensures Arrives(route, delays, destination, [out] + rest, payload)
  {
  }

  lemma {:induction false} RemovedLength(suite: Suite, keys: seq<PayloadKey>, payload: Bytes)
    requires Permutes(suite.cipher) && suite.cipher.minBlock <= |payload|
    ensures RemoveLayers(suite, keys, payload).Done? && |RemoveLayers(suite, keys, payload).value| == |payload|
  {
    if keys != [] {
      RemovedLength(suite, keys[1..], suite.cipher.decrypt(keys[0], payload));
    }
  }

  /** From hop `i` on, with any payload. */
  lemma {:induction false} JourneyFrom(max: Pos, suite: Suite, p: Plan, privateKeys: seq<Scalar>, i: nat,
                                       payload: Bytes)
    requires ValidPlan(max, p) && Lawful(suite) && Owned(suite, p.route, privateKeys)
    requires i < |p.route| && suite.cipher.minBlock <= |payload|
    ensures var removed := RemoveLayers(suite, PayloadKeys(Keys(suite, p))[i..], payload);
            && removed.Done?
            && Arrives(p.route[i..], p.delays[i..], p.destination,
                       Journey(max, suite, privateKeys[i..], Packet(HeaderAt(max, suite, p, i), payload)),
                         removed.value)
    decreases |p.route| - i
  {
    hide ProcessHeader, HeaderAt, GroupLaws, Permutes;
    var keys, packet := PayloadKeys(Keys(suite, p)), Packet(HeaderAt(max, suite, p, i), payload);
    var inner := suite.cipher.decrypt(keys[i], payload);
    RemovedLength(suite, keys[i..], payload);
    RemovedLength(suite, [keys[i]], payload);
    assert RemoveLayers(suite, [keys[i]], payload) == Done(inner);
    assert keys[i..][0] == keys[i] && keys[i..][1..] == keys[i + 1..];
    assert privateKeys[i..][0] == privateKeys[i] && privateKeys[i..][1..] == privateKeys[i + 1..];
    if i == |p.route| - 1 {
      FinalPeels(max, suite, p, privateKeys);
      assert keys[i + 1..] == [];
    } else {
      ForwardPeels(max, suite, p, privateKeys, i);
      JourneyFrom(max, suite, p, privateKeys, i + 1, inner);
      assert p.route[i..][1] == p.route[i + 1] && p.route[i..][1..] == p.route[i + 1..]
             && p.delays[i..][1..] == p.delays[i + 1..];
      ArrivesNext(p.route[i..], p.delays[i..], p.destination, ProcessPacket(max, suite, privateKeys[i], packet),
                  Journey(max, suite, privateKeys[i + 1..], Packet(HeaderAt(max, suite, p, i + 1), inner)),
                  RemoveLayers(suite, keys[i..], payload).value);
    }
  }

  /** The core of Sphinx: every packet that is built passes all nodes of its route, each of which learns the next
      address and its own delay, and the last of them learns the destination and its identifier and holds a
      payload from which the message is recovered. */
  lemma PacketArrives(max: Pos, suite: Suite, p: Plan, privateKeys: seq<Scalar>, message: Bytes, payloadSize: nat)
    requires ValidPlan(max, p) && Lawful(suite) && Owned(suite, p.route, privateKeys)
    requires BuildPacket(max, suite, p, message, payloadSize).Done?
    ensures var packet := BuildPacket(max, suite, p, message, payloadSize).value;
            Sized(max, packet.header.routing) && |packet.payload| == payloadSize
    ensures var packet := BuildPacket(max, suite, p, message, payloadSize).value;
            exists payload :: RecoverPlaintext(payload) == Done(message)
                              && Arrives(p.route, p.delays, p.destination, Journey(max, suite, privateKeys, packet),
                                         payload)
  {
    hide RoutingFrom, GroupLaws, RecoverPlaintext, Padded, Arrives, Journey, Permutes;
    var keys := PayloadKeys(Keys(suite, p));
    var packet := BuildPacket(max, suite, p, message, payloadSize).value;
    assert packet.header == HeaderAt(max, suite, p, 0);
    assert keys != [];
    LayeredLength(suite, keys, Padded(message, payloadSize));
    EncapsulationUndone(suite, message, keys, payloadSize);
    JourneyFrom(max, suite, p, privateKeys, 0, packet.payload);
    assert keys[0..] == keys && privateKeys[0..] == privateKeys && p.route[0..] == p.route && p.delays[0..] == p.delays;
  }

  /** A packet is built exactly if the message fits and the payload is long enough for the cipher. */
  lemma WhenBuilt(max: Pos, suite: Suite, p: Plan, message: Bytes, payloadSize: nat)
    requires ValidPlan(max, p)
    ensures BuildPacket(max, suite, p, message, payloadSize).Done?
       <==> ValidParameters(payloadSize, |message|) && suite.cipher.minBlock <= payloadSize
  {
  }
}
