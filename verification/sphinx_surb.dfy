/** Sphinx packets and single-use reply blocks as byte strings, and the use of reply blocks. */
module SphinxSurb {
  import opened Bytes
  import opened WideBlock
  import opened SphinxPrimitives
  import opened SphinxHeader
  import opened SphinxPayload
  import opened SphinxPacket

  function HeaderSize(max: Pos): nat {
    PUBLIC_KEY_SIZE + HEADER_INTEGRITY_MAC_SIZE + EncryptedSize(max)
  }

  // ---------- Headers ----------

  function RoutingToBytes(e: Encapsulated): Bytes {
    e.mac + e.encrypted
  }

  function RoutingFromBytes(max: Pos, b: Bytes): Outcome<Encapsulated> {
    if |b| != HEADER_INTEGRITY_MAC_SIZE + EncryptedSize(max) then Failed(InvalidRouting)
    else Done(Encapsulated(b[HEADER_INTEGRITY_MAC_SIZE..HEADER_INTEGRITY_MAC_SIZE + EncryptedSize(max)],
                           b[..HEADER_INTEGRITY_MAC_SIZE]))
  }

  function HeaderToBytes(h: Header): Bytes {
    h.sharedSecret + RoutingToBytes(h.routing)
  }

  function HeaderFromBytes(max: Pos, b: Bytes): Outcome<Header> {
    if |b| != HeaderSize(max) then Failed(InvalidHeader)
    else
      var routing := RoutingFromBytes(max, b[PUBLIC_KEY_SIZE..HeaderSize(max)]);
      if routing.Failed? then Failed(routing.error) else Done(Header(b[..PUBLIC_KEY_SIZE], routing.value))
  }

  lemma HeaderWritten(max: Pos, h: Header)
    requires Sized(max, h.routing)
    ensures |HeaderToBytes(h)| == HeaderSize(max) && HeaderFromBytes(max, HeaderToBytes(h)) == Done(h)
  {
    var b, rest, size := HeaderToBytes(h), RoutingToBytes(h.routing), HEADER_INTEGRITY_MAC_SIZE + EncryptedSize(max);
    assert rest[..HEADER_INTEGRITY_MAC_SIZE] == h.routing.mac
           && rest[HEADER_INTEGRITY_MAC_SIZE..size] == h.routing.encrypted;
    assert b[..PUBLIC_KEY_SIZE] == h.sharedSecret && b[PUBLIC_KEY_SIZE..PUBLIC_KEY_SIZE + size] == rest;
  }

  lemma HeaderRead(max: Pos, b: Bytes)
    ensures HeaderFromBytes(max, b).Done? <==> |b| == HeaderSize(max)
    ensures HeaderFromBytes(max, b).Done? ==>
              Sized(max, HeaderFromBytes(max, b).value.routing) && HeaderToBytes(HeaderFromBytes(max, b).value) == b
  {
  }

  // ---------- Packets ----------

  function PacketToBytes(p: Packet): Bytes {
    HeaderToBytes(p.header) + p.payload
  }

  function PayloadFromBytes(b: Bytes): Outcome<Bytes> {
    if |b| < PAYLOAD_OVERHEAD_SIZE then Failed(InvalidPayload) else Done(b)
  }

  function PacketFromBytes(max: Pos, b: Bytes): Outcome<Packet> {
    if |b| < HeaderSize(max) + PAYLOAD_OVERHEAD_SIZE then Failed(InvalidPacket)
    else
      var header := HeaderFromBytes(max, b[..HeaderSize(max)]);
      var payload := PayloadFromBytes(b[HeaderSize(max)..]);
      if header.Failed? then Failed(header.error)
      else if payload.Failed? then Failed(payload.error)
      else Done(Packet(header.value, payload.value))
  }

  /** Reading undoes writing, exactly for payloads of at least the smallest size. */
  lemma PacketWritten(max: Pos, p: Packet)
    requires Sized(max, p.header.routing)
    ensures PAYLOAD_OVERHEAD_SIZE <= |p.payload| ==> PacketFromBytes(max, PacketToBytes(p)) == Done(p)
    ensures |p.payload| < PAYLOAD_OVERHEAD_SIZE ==> PacketFromBytes(max, PacketToBytes(p)) == Failed(InvalidPacket)
  {
    hide HeaderToBytes, HeaderFromBytes;
    HeaderWritten(max, p.header);
    assert PacketToBytes(p)[..HeaderSize(max)] == HeaderToBytes(p.header)
           && PacketToBytes(p)[HeaderSize(max)..] == p.payload;
  }

  /** Writing undoes reading: every byte string that is long enough is read, and no two give the same packet. */
  lemma PacketRead(max: Pos, b: Bytes)
    ensures PacketFromBytes(max, b).Done? <==> HeaderSize(max) + PAYLOAD_OVERHEAD_SIZE <= |b|
    ensures PacketFromBytes(max, b).Done? ==>
              Sized(max, PacketFromBytes(max, b).value.header.routing)
                && PacketToBytes(PacketFromBytes(max, b).value) == b
  {
  }

  // ---------- Reply blocks ----------

  datatype Surb = Surb(header: Header, firstHopAddress: NodeAddress, payloadKeys: seq<PayloadKey>)

  function SurbToBytes(s: Surb): Bytes {
    HeaderToBytes(s.header) + s.firstHopAddress + Flatten(s.payloadKeys)
  }

  /** `b`, cut into payload keys. */
  function Chunks(b: Bytes): (r: seq<PayloadKey>)
    requires |b| % PAYLOAD_KEY_SIZE == 0
    ensures |r| == |b| / PAYLOAD_KEY_SIZE
  {
    if b == [] then [] else [b[..PAYLOAD_KEY_SIZE]] + Chunks(b[PAYLOAD_KEY_SIZE..])
  }

  lemma {:induction false} ChunkAt(b: Bytes, i: nat)
    requires |b| % PAYLOAD_KEY_SIZE == 0 && (i + 1) * PAYLOAD_KEY_SIZE <= |b|
    ensures i < |b| / PAYLOAD_KEY_SIZE && Chunks(b)[i] == b[i * PAYLOAD_KEY_SIZE..(i + 1) * PAYLOAD_KEY_SIZE]
  {
    if i > 0 {
      var rest := b[PAYLOAD_KEY_SIZE..];
      ChunkAt(rest, i - 1);
      assert rest[(i - 1) * PAYLOAD_KEY_SIZE..i * PAYLOAD_KEY_SIZE]
          == b[i * PAYLOAD_KEY_SIZE..(i + 1) * PAYLOAD_KEY_SIZE];
    }
  }

  lemma {:induction false} ChunksFlattened(b: Bytes)
    requires |b| % PAYLOAD_KEY_SIZE == 0
    ensures Flatten(Chunks(b)) == b
  {
    if b != [] {
      ChunksFlattened(b[PAYLOAD_KEY_SIZE..]);
      assert Chunks(b)[1..] == Chunks(b[PAYLOAD_KEY_SIZE..]);
      assert b == b[..PAYLOAD_KEY_SIZE] + b[PAYLOAD_KEY_SIZE..];
    }
  }

  lemma {:induction false} FlattenedChunks(keys: seq<PayloadKey>)
    ensures |Flatten(keys)| == PAYLOAD_KEY_SIZE * |keys| && Chunks(Flatten(keys)) == keys
  {
    if keys != [] {
      FlattenedChunks(keys[1..]);
      assert Flatten(keys)[..PAYLOAD_KEY_SIZE] == keys[0] && Flatten(keys)[PAYLOAD_KEY_SIZE..] == Flatten(keys[1..]);
    }
  }

  /** Where the keys start. */
  function KeysOffset(max: Pos): nat {
    HeaderSize(max) + NODE_ADDRESS_LENGTH
  }

  /** What `SURB::from_bytes` reads. */
  function SurbFromBytes(max: Pos, b: Bytes): Outcome<Surb> {
    if |b| < KeysOffset(max) + PAYLOAD_KEY_SIZE || |b[KeysOffset(max)..]| % PAYLOAD_KEY_SIZE != 0 then
      Failed(InvalidSURB)
    else
      var header := HeaderFromBytes(max, b[..HeaderSize(max)]);
      if header.Failed? then Failed(header.error)
      else Done(Surb(header.value, b[HeaderSize(max)..KeysOffset(max)], Chunks(b[KeysOffset(max)..])))
  }

  method ReadSurb(max: Pos, b: Bytes) returns (result: Outcome<Surb>)
    ensures result == SurbFromBytes(max, b)
  {
    hide HeaderFromBytes, Chunks;
    if |b| < HeaderSize(max) + NODE_ADDRESS_LENGTH + PAYLOAD_KEY_SIZE {
      return Failed(InvalidSURB);
    }
    var headerBytes := b[..HeaderSize(max)];
    var firstHopBytes := b[HeaderSize(max)..HeaderSize(max) + NODE_ADDRESS_LENGTH];
    var keyBytes := b[HeaderSize(max) + NODE_ADDRESS_LENGTH..];
    if |keyBytes| % PAYLOAD_KEY_SIZE != 0 {
      return Failed(InvalidSURB);
    }
    var header := HeaderFromBytes(max, headerBytes);
    if header.Failed? {
      return Failed(header.error);
    }
    var keyCount := |keyBytes| / PAYLOAD_KEY_SIZE;
    var payloadKeys: seq<PayloadKey> := [];
    for i := 0 to keyCount
      invariant payloadKeys == Chunks(keyBytes)[..i]
    {
      ChunkAt(keyBytes, i);
      payloadKeys := payloadKeys + [keyBytes[i * PAYLOAD_KEY_SIZE..(i + 1) * PAYLOAD_KEY_SIZE]];
    }
    assert payloadKeys == Chunks(keyBytes) && keyBytes == b[KeysOffset(max)..];
    return Done(Surb(header.value, firstHopBytes, payloadKeys));
  }

  /** Reading undoes writing for reply blocks with any positive number of keys; without keys they are not read. */
  lemma SurbWritten(max: Pos, s: Surb)
    requires Sized(max, s.header.routing)
    ensures s.payloadKeys != [] ==> SurbFromBytes(max, SurbToBytes(s)) == Done(s)
    ensures s.payloadKeys == [] ==> SurbFromBytes(max, SurbToBytes(s)) == Failed(InvalidSURB)
  {
    hide HeaderToBytes, HeaderFromBytes, Flatten, Chunks;
    HeaderWritten(max, s.header);
    FlattenedChunks(s.payloadKeys);
    SurbParts(max, s, Flatten(s.payloadKeys));
  }

  lemma SurbParts(max: Pos, s: Surb, keys: Bytes)
    requires |HeaderToBytes(s.header)| == HeaderSize(max)
    ensures var b := HeaderToBytes(s.header) + s.firstHopAddress + keys;
            && b[..HeaderSize(max)] == HeaderToBytes(s.header)
               && b[HeaderSize(max)..KeysOffset(max)] == s.firstHopAddress
            && b[KeysOffset(max)..] == keys
  {
  }

  /** Writing undoes reading. */
  lemma SurbRead(max: Pos, b: Bytes)
    ensures SurbFromBytes(max, b).Done? <==> KeysOffset(max) < |b| && (|b| - KeysOffset(max)) % PAYLOAD_KEY_SIZE == 0
    ensures SurbFromBytes(max, b).Done? ==>
              Sized(max, SurbFromBytes(max, b).value.header.routing) && SurbToBytes(SurbFromBytes(max, b).value) == b
  {
    hide HeaderToBytes, HeaderFromBytes, Flatten, Chunks;
    if SurbFromBytes(max, b).Done? {
      HeaderRead(max, b[..HeaderSize(max)]);
      ChunksFlattened(b[KeysOffset(max)..]);
      assert b == b[..HeaderSize(max)] + b[HeaderSize(max)..KeysOffset(max)] + b[KeysOffset(max)..];
    } else if KeysOffset(max) + PAYLOAD_KEY_SIZE <= |b| {
      HeaderRead(max, b[..HeaderSize(max)]);
    }
  }

  // ---------- Use ----------

  /** `SURB::new`. */
  function NewSurb(max: Pos, suite: Suite, p: Plan): Outcome<Surb>
    requires |p.route| <= max
    requires p.route != [] ==> |p.padding| == PaddingLength(max, |p.route|)
  {
    if p.route == [] || |p.route| != |p.delays| then Failed(InvalidSURB)
    else
      var (header, payloadKeys) := NewHeader(max, suite, p);
      Done(Surb(header, p.route[0].address, payloadKeys))
  }

  /** `SURB::use_surb`: the packet, and where to send it. */
  function UseSurb(suite: Suite, s: Surb, message: Bytes, payloadSize: nat): Outcome<(Packet, NodeAddress)> {
    var payload := Encapsulate(suite, message, s.payloadKeys, payloadSize);
    if payload.Failed? then Failed(payload.error) else Done((Packet(s.header, payload.value), s.firstHopAddress))
  }

  /** A reply block that went through its byte string and is then used with any message that fits: the packet goes
      to the first node of the route, and along the route to the destination, where the message is recovered. */
  lemma SurbRoundTrip(max: Pos, suite: Suite, p: Plan, privateKeys: seq<Scalar>, message: Bytes, payloadSize: nat)
    requires ValidPlan(max, p) && Lawful(suite) && Owned(suite, p.route, privateKeys)
    requires ValidParameters(payloadSize, |message|) && suite.cipher.minBlock <= payloadSize
    ensures NewSurb(max, suite, p).Done? && SurbFromBytes(max, SurbToBytes(NewSurb(max, suite, p).value)).Done?
    ensures var used := UseSurb(suite, SurbFromBytes(max, SurbToBytes(NewSurb(max, suite, p).value)).value, message,
                                payloadSize);
            && used.Done? && used.value.1 == p.route[0].address && Sized(max, used.value.0.header.routing)
            && exists payload :: RecoverPlaintext(payload) == Done(message)
                                 && Arrives(p.route, p.delays, p.destination,
                                            Journey(max, suite, privateKeys, used.value.0), payload)
  {
    hide GroupLaws, Permutes, RoutingFrom, Arrives, Journey, RecoverPlaintext, Encapsulate, SurbToBytes, SurbFromBytes;
    var s := NewSurb(max, suite, p).value;
    assert PayloadKeys(RoutingKeysOf(suite, p.route, p.secret)) != [];
    SurbWritten(max, s);
    WhenBuilt(max, suite, p, message, payloadSize);
    PacketArrives(max, suite, p, privateKeys, message, payloadSize);
  }
}
