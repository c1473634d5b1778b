/** Sphinx byte by byte: what comes out for every input, valid or not, in terms of the primitives. */
module SphinxBytes {
  import opened Bytes
  import opened LayeredHeader
  import opened SphinxPrimitives
  import opened SphinxHeader
  import opened SphinxPayload
  import opened SphinxPacket
  import opened SphinxSurb

  // ---------- Processing a header ----------

  /** `raw` is the encrypted routing information followed by a block of zeros, under the keystream of `key`. */
  ghost predicate RawOf(suite: Suite, key: Bytes, encrypted: Bytes, raw: Bytes) {
    && |raw| == |encrypted| + BLOCK
    && forall j :: 0 <= j < |raw| ==>
         raw[j] == XorByte(if j < |encrypted| then encrypted[j] else 0, suite.stream(key, j))
  }

  lemma RawIsRaw(max: Pos, suite: Suite, key: Bytes, e: Encapsulated, raw: Bytes)
    requires Sized(max, e) && RawOf(suite, key, e.encrypted, raw)
    ensures Raw(max, suite, key, e) == raw
  {
    hide XorByte;
  }

  /** What a node makes of any header: which error is reported, and when, and otherwise every byte of the output.
      The keys are slices of the output of the key derivation. */
  lemma ProcessHeaderExactly(max: Pos, suite: Suite, secretKey: Scalar, h: Header, raw: Bytes)
    requires Sized(max, h.routing)
    requires RawOf(suite, suite.hkdf(suite.diffieHellman(secretKey, h.sharedSecret))[..16], h.routing.encrypted, raw)
    ensures var keys := suite.hkdf(suite.diffieHellman(secretKey, h.sharedSecret));
            var out := ProcessHeader(max, suite, secretKey, h);
            var verified := h.routing.mac == suite.hmac(keys[16..32], h.routing.encrypted);
            && (out == Failed(InvalidHeader) <==> !verified)
            && (out == Failed(InvalidRouting) <==> verified && raw[0] != 1 && raw[0] != 2)
            && (out.Failed? ==> out.error == InvalidHeader || out.error == InvalidRouting)
            && (out.Done? ==>
                  if raw[0] == 1 then
                    && out.value.ForwardHeader?
                    && out.value.header.sharedSecret
                      == suite.diffieHellman(suite.scalarOf(keys[224..256]), h.sharedSecret)
                    && out.value.header.routing == Encapsulated(raw[60..], raw[44..60])
                    && out.value.address == raw[4..36] && out.value.delay == FromBE(raw[36..44])
                    && out.value.payloadKey == keys[32..224]
                  else out.value == FinalHeader(raw[4..36], raw[36..52], keys[32..224]))
  {
    hide XorByte, RawOf, Raw, FromBE;
    RawIsRaw(max, suite, suite.hkdf(suite.diffieHellman(secretKey, h.sharedSecret))[..16], h.routing, raw);
  }

  /** A node processes the header first, whose errors it passes on, and then decrypts the payload, which fails if
      it is too short for the cipher. */
  lemma ProcessPacketExactly(max: Pos, suite: Suite, secretKey: Scalar, packet: Packet)
    requires Sized(max, packet.header.routing)
    ensures var header := ProcessHeader(max, suite, secretKey, packet.header);
            var out := ProcessPacket(max, suite, secretKey, packet);
            if header.Failed? then out == Failed(header.error)
            else if |packet.payload| < suite.cipher.minBlock then out == Failed(InvalidPayload)
            else
              var payload := suite.cipher.decrypt(header.value.payloadKey, packet.payload);
              match header.value
              case ForwardHeader(next, address, delay, _) =>
                out == Done(ForwardPacket(Packet(next, payload), address, delay))
              case FinalHeader(destination, identifier, _) => out == Done(FinalPacket(destination, identifier, payload))
  {
    hide ProcessHeader;
  }

  /** A packet with a wrong tag is refused, whatever its payload. */
  lemma WrongTagRefused(max: Pos, suite: Suite, secretKey: Scalar, packet: Packet)
    requires Sized(max, packet.header.routing)
    ensures var key := suite.hkdf(suite.diffieHellman(secretKey, packet.header.sharedSecret))[16..32];
            packet.header.routing.mac != suite.hmac(key, packet.header.routing.encrypted)
            <==> ProcessPacket(max, suite, secretKey, packet) == Failed(InvalidHeader)
  {
    hide Raw, Parse;
    var header := ProcessHeader(max, suite, secretKey, packet.header);
    var e := packet.header.routing;
    ParseErrors(max, Raw(max, suite, suite.hkdf(suite.diffieHellman(secretKey, packet.header.sharedSecret))[..16], e));
  }

  lemma ParseErrors(max: Pos, raw: Bytes)
    requires |raw| == OutputLength(max)
    ensures Parse(max, raw).Failed? ==> Parse(max, raw) == Failed(InvalidRouting)
  {
  }

  // ---------- Building a header ----------

  /** The header starts from the secret that was drawn, and every layer carries the version of the format. */
  lemma HeaderStarts(max: Pos, suite: Suite, p: Plan)
    requires ValidPlan(max, p)
    ensures NewHeader(max, suite, p).0.sharedSecret == suite.publicKey(p.secret)
  {
    hide RoutingFrom, PayloadKeys;
  }

  lemma ForwardInfoBytes(address: NodeAddress, delay: Delay, mac: Mac)
    ensures var info := ForwardInfo(address, delay, mac);
            && info[0] == 1 && info[1..4] == [0, 1, 0] && info[4..36] == address
            && FromBE(info[36..44]) == delay && info[44..] == mac
  {
    hide FromBE, ToBE;
    var info := ForwardInfo(address, delay, mac);
    BERoundTrip(delay, DELAY_LENGTH);
    assert info[36..44] == ToBE(delay, DELAY_LENGTH);
    assert info[4..36] == address && info[44..] == mac && info[1..4] == VERSION;
  }

  lemma FinalInfoBytes(destination: Destination)
    ensures var info := FinalInfo(destination);
            && info[0] == 2 && info[1..4] == [0, 1, 0] && info[4..36] == destination.address
            && info[36..] == destination.identifier
  {
    var info := FinalInfo(destination);
    assert info[4..36] == destination.address && info[36..] == destination.identifier && info[1..4] == VERSION;
  }

  // ---------- The payload ----------

  /** Exactly which payloads a message is recovered from, and which error there is otherwise. */
  lemma RecoveredExactly(payload: Bytes)
    ensures forall plaintext: Bytes ::
              RecoverPlaintext(payload) == Done(plaintext) <==>
                && |plaintext| + PAYLOAD_OVERHEAD_SIZE <= |payload|
                && payload[..|plaintext| + PAYLOAD_OVERHEAD_SIZE] == Zeros(SECURITY_PARAMETER) + plaintext + [1]
                && 1 !in payload[|plaintext| + PAYLOAD_OVERHEAD_SIZE..]
    ensures RecoverPlaintext(payload).Failed? ==> RecoverPlaintext(payload) == Failed(InvalidPayload)
  {
    forall plaintext: Bytes
      ensures RecoverPlaintext(payload) == Done(plaintext) <==>
                && |plaintext| + PAYLOAD_OVERHEAD_SIZE <= |payload|
                && payload[..|plaintext| + PAYLOAD_OVERHEAD_SIZE] == Zeros(SECURITY_PARAMETER) + plaintext + [1]
                && 1 !in payload[|plaintext| + PAYLOAD_OVERHEAD_SIZE..]
    {
      if RecoverPlaintext(payload) == Done(plaintext) { RecoveredIsPadded(payload, plaintext); }
      var n := |plaintext| + PAYLOAD_OVERHEAD_SIZE;
      if n <= |payload| && payload[..n] == Zeros(SECURITY_PARAMETER) + plaintext + [1] && 1 !in payload[n..] {
        PaddedIsRecovered(payload, plaintext);
      }
    }
  }

  lemma PaddedIsRecovered(payload: Bytes, plaintext: Bytes)
    requires |plaintext| + PAYLOAD_OVERHEAD_SIZE <= |payload|
    requires payload[..|plaintext| + PAYLOAD_OVERHEAD_SIZE] == Zeros(SECURITY_PARAMETER) + plaintext + [1]
    requires 1 !in payload[|plaintext| + PAYLOAD_OVERHEAD_SIZE..]
    ensures RecoverPlaintext(payload) == Done(plaintext)
  {
    var n, front := |plaintext|, Zeros(SECURITY_PARAMETER) + plaintext + [1];
    var padded, rest := payload[SECURITY_PARAMETER..], payload[n + PAYLOAD_OVERHEAD_SIZE..];
    assert payload == front + rest;
    assert payload[..SECURITY_PARAMETER] == Zeros(SECURITY_PARAMETER);
    assert padded == plaintext + [1] + rest;
    assert padded[n] == 1 && forall i :: n < i < |padded| ==> padded[i] == rest[i - n - 1];
    assert padded[..n] == plaintext;
  }

  /** Exactly when a payload is built; the only other outcome is one error. */
  lemma EncapsulatedExactly(suite: Suite, plaintext: Bytes, keys: seq<PayloadKey>, payloadSize: nat)
    ensures var out := Encapsulate(suite, plaintext, keys, payloadSize);
            && (out.Done? <==>
                  && 32 <= payloadSize && |plaintext| + 17 <= payloadSize
                  && (keys == [] || suite.cipher.minBlock <= payloadSize))
            && (out.Failed? ==> out == Failed(InvalidPayload))
            && (out.Done? && keys == [] ==>
                  out.value == Zeros(16) + plaintext + [1] + Zeros(payloadSize - 17 - |plaintext|))
  {
  }

  // ---------- Byte formats ----------

  /** Where the parts of a header and a packet are. */
  lemma PacketLayout(max: Pos, p: Packet)
    requires Sized(max, p.header.routing)
    ensures var b, n := PacketToBytes(p), 48 + 60 * max;
            && |b| == n + |p.payload| && b[..32] == p.header.sharedSecret && b[32..48] == p.header.routing.mac
            && b[48..n] == p.header.routing.encrypted && b[n..] == p.payload
            && b[..n] == HeaderToBytes(p.header)
  {
    var b, n := PacketToBytes(p), 48 + 60 * max;
    assert b[..32] == p.header.sharedSecret && b[32..48] == p.header.routing.mac;
    assert b[48..n] == p.header.routing.encrypted && b[n..] == p.payload;
  }

  /** And where those of a reply block are. */
  lemma SurbLayout(max: Pos, s: Surb, i: nat)
    requires Sized(max, s.header.routing)
    ensures var b, n := SurbToBytes(s), 48 + 60 * max;
            && |b| == n + 32 + 192 * |s.payloadKeys| && b[..n] == HeaderToBytes(s.header)
            && b[n..n + 32] == s.firstHopAddress
            && (i < |s.payloadKeys| ==>
                  n + 32 + 192 * (i + 1) <= |b| && b[n + 32 + 192 * i..n + 32 + 192 * (i + 1)] == s.payloadKeys[i])
  {
    hide HeaderToBytes, Flatten, Chunks;
    HeaderWritten(max, s.header);
    FlattenedChunks(s.payloadKeys);
    var keys, n := Flatten(s.payloadKeys), 48 + 60 * max;
    SurbParts(max, s, keys);
    if i < |s.payloadKeys| {
      ChunkAt(keys, i);
      var b := SurbToBytes(s);
      assert b[n + 32 + 192 * i..n + 32 + 192 * (i + 1)] == b[n + 32..][192 * i..192 * (i + 1)];
    }
  }

  /** Exactly when there is a reply block: for a route with as many delays. */
  lemma SurbExactly(max: Pos, suite: Suite, p: Plan)
    requires |p.route| <= max && (p.route != [] ==> |p.padding| == PaddingLength(max, |p.route|))
    ensures var out := NewSurb(max, suite, p);
            && (out == Failed(InvalidSURB) <==> p.route == [] || |p.route| != |p.delays|)
            && (out.Done? <==> p.route != [] && |p.route| == |p.delays|)
            && (out.Done? ==> (out.value.header, out.value.payloadKeys) == NewHeader(max, suite, p)
                              && out.value.firstHopAddress == p.route[0].address)
  {
    hide NewHeader;
  }
}
