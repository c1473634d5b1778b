/** The header of a Sphinx packet: how it is built for a route and how a node takes one layer off. The longest
    route, `max`, is fixed when the program is built. */
module SphinxHeader {
  import opened Bytes
  import opened LayeredHeader
  import opened SphinxPrimitives

  const NODE_ADDRESS_LENGTH: nat := 2 * SECURITY_PARAMETER
  const DESTINATION_ADDRESS_LENGTH: nat := 2 * SECURITY_PARAMETER
  const IDENTIFIER_LENGTH: nat := SECURITY_PARAMETER
  const DELAY_LENGTH: nat := 8
  const FLAG_LENGTH: nat := 1
  const VERSION_LENGTH: nat := 3
  const NODE_META_INFO_SIZE: nat := NODE_ADDRESS_LENGTH + FLAG_LENGTH + DELAY_LENGTH + VERSION_LENGTH
  const FINAL_NODE_META_INFO_LENGTH: nat := DESTINATION_ADDRESS_LENGTH + IDENTIFIER_LENGTH + FLAG_LENGTH
    + VERSION_LENGTH

  const FORWARD_HOP: byte := 1
  const FINAL_HOP: byte := 2

  /** The version of the crate. */
  const VERSION: Bytes := [0, 1, 0]

  type Pos = n: nat | 1 <= n witness 1
  type NodeAddress = b: Bytes | |b| == NODE_ADDRESS_LENGTH witness Zeros(NODE_ADDRESS_LENGTH)
  type DestinationAddress = b: Bytes | |b| == DESTINATION_ADDRESS_LENGTH witness Zeros(DESTINATION_ADDRESS_LENGTH)
  type Identifier = b: Bytes | |b| == IDENTIFIER_LENGTH witness Zeros(IDENTIFIER_LENGTH)

  /** Delays are written in 8 bytes. */
  type Delay = n: nat | n < Pow256(DELAY_LENGTH) witness 0

  datatype Node = Node(address: NodeAddress, pubKey: PublicKey)
  datatype Destination = Destination(address: DestinationAddress, identifier: Identifier)

  datatype Error = InvalidHeader | InvalidRouting | InvalidPayload | InvalidPacket | InvalidSURB
  datatype Outcome<+T> = Done(value: T) | Failed(error: Error)

  /** The encrypted routing information and its tag. */
  datatype Encapsulated = Encapsulated(encrypted: Bytes, mac: Mac)

  datatype Header = Header(sharedSecret: PublicKey, routing: Encapsulated)

  function EncryptedSize(max: Pos): nat {
    (NODE_META_INFO_SIZE + HEADER_INTEGRITY_MAC_SIZE) * max
  }

  function OutputLength(max: Pos): nat {
    (NODE_META_INFO_SIZE + HEADER_INTEGRITY_MAC_SIZE) * (max + 1)
  }

  /** The sizes that the types of the program enforce. */
  predicate Sized(max: Pos, e: Encapsulated) {
    |e.encrypted| == EncryptedSize(max)
  }

  // ---------- Keys ----------

  /** The secret by which the sender multiplies the public key of hop `i`: its own secret times the blinding
      factors of the hops before. */
  function Accumulator(suite: Suite, route: seq<Node>, secret: Scalar, i: nat): Scalar
    requires i <= |route|
    decreases i, 0
  {
    if i == 0 then secret
    else suite.mul(Accumulator(suite, route, secret, i - 1),
                   suite.scalarOf(KeysAt(suite, route, secret, i - 1).blindingFactor))
  }

  function KeysAt(suite: Suite, route: seq<Node>, secret: Scalar, i: nat): RoutingKeys
    requires i < |route|
    decreases i, 1
  {
    Derive(suite, suite.diffieHellman(Accumulator(suite, route, secret, i), route[i].pubKey))
  }

  function RoutingKeysOf(suite: Suite, route: seq<Node>, secret: Scalar): (r: seq<RoutingKeys>)
    ensures |r| == |route|
  {
    seq(|route|, i requires 0 <= i < |route| => KeysAt(suite, route, secret, i))
  }

  /** `KeyMaterial::derive`. It blinds once more after the last hop, since its guard against the last round
      always holds; nothing reads that last accumulator. */
  method DeriveKeyMaterial(suite: Suite, route: seq<Node>, secret: Scalar)
    returns (initialSharedSecret: PublicKey, keys: seq<RoutingKeys>)
    ensures initialSharedSecret == suite.publicKey(secret)
    ensures keys == RoutingKeysOf(suite, route, secret)
  {
    hide Derive;
    initialSharedSecret := suite.publicKey(secret);
    keys := [];
    var accumulator := secret;
    for i := 0 to |route|
      invariant accumulator == Accumulator(suite, route, secret, i)
      invariant keys == RoutingKeysOf(suite, route, secret)[..i]
    {
      var sharedKey := suite.diffieHellman(accumulator, route[i].pubKey);
      var nodeKeys := Derive(suite, sharedKey);
      if i != |route| + 1 {
        accumulator := suite.mul(accumulator, suite.scalarOf(nodeKeys.blindingFactor));
      }
      keys := keys + [nodeKeys];
    }
  }

  function StreamKeys(keys: seq<RoutingKeys>): (r: seq<Bytes>)
    ensures |r| == |keys|
  {
    seq(|keys|, i requires 0 <= i < |keys| => keys[i].streamCipherKey)
  }

  // ---------- The filler ----------

  /** `xor_with`: the exclusive or replaces the first argument. */
  method XorWith(a: array<byte>, b: Bytes)
    requires a.Length == |b|
    modifies a
    ensures a[..] == Xor(old(a[..]), b)
  {
    hide XorByte;
    for i := 0 to a.Length
      invariant forall j :: 0 <= j < i ==> a[j] == XorByte(old(a[j]), b[j])
      invariant forall j :: i <= j < a.Length ==> a[j] == old(a[j])
    {
      a[i] := XorByte(a[i], b[i]);
    }
  }

  /** `filler_step`, for the step numbered `i` from 1 on. */
  method StepFiller(max: Pos, suite: Suite, key: Bytes, filler: Bytes, i: nat, pseudorandom: Bytes)
    returns (result: Bytes)
    requires 1 <= i <= max && |filler| == BLOCK * (i - 1)
    requires pseudorandom == Stream(suite.stream, key, OutputLength(max))
    ensures result == FillerStep(suite.stream, key, EncryptedSize(max), filler)
  {
    hide XorByte, Stream, Xor;
    var extended := filler + Zeros(BLOCK);
    var a := new byte[|extended|](j requires 0 <= j < |extended| => extended[j]);
    assert a[..] == extended;
    XorWith(a, pseudorandom[|pseudorandom| - i * BLOCK..]);
    result := a[..];
  }

  method NewFiller(max: Pos, suite: Suite, keys: seq<RoutingKeys>) returns (filler: Bytes)
    requires |keys| <= max
    ensures filler == Filler(suite.stream, StreamKeys(keys), EncryptedSize(max), |keys|)
  {
    hide Stream, FillerStep, Filler;
    FillerStarts(suite.stream, StreamKeys(keys), EncryptedSize(max));
    filler := [];
    for i := 0 to |keys|
      invariant filler == Filler(suite.stream, StreamKeys(keys), EncryptedSize(max), i)
    {
      FillerNext(suite.stream, StreamKeys(keys), EncryptedSize(max), i);
      var key := keys[i].streamCipherKey;
      var pseudorandom := Stream(suite.stream, key, OutputLength(max));
      filler := StepFiller(max, suite, key, filler, i + 1, pseudorandom);
    }
  }

  // ---------- Building ----------

  function WithMac(suite: Suite, key: Bytes, encrypted: Bytes): Encapsulated {
    Encapsulated(encrypted, suite.hmac(key, encrypted))
  }

  /** What the last node learns. */
  function FinalInfo(destination: Destination): (r: Bytes)
    ensures |r| == FINAL_NODE_META_INFO_LENGTH
  {
    [FINAL_HOP] + VERSION + destination.address + destination.identifier
  }

  /** How much random padding follows the information for the last of `n` nodes. */
  function PaddingLength(max: Pos, n: nat): nat
    requires 1 <= n <= max
  {
    EncryptedSize(max) - BLOCK * (n - 1) - FINAL_NODE_META_INFO_LENGTH
  }

  /** Here the padding is encrypted too. */
  function ForFinalHop(max: Pos, suite: Suite, destination: Destination, keys: RoutingKeys, filler: Bytes,
                       padding: Bytes): (r: Encapsulated)
    requires FINAL_NODE_META_INFO_LENGTH + |padding| + |filler| == EncryptedSize(max)
    ensures Sized(max, r)
  {
    var padded := FinalInfo(destination) + padding;
    WithMac(suite, keys.headerIntegrityHmacKey,
            Xor(padded, Stream(suite.stream, keys.streamCipherKey, OutputLength(max))[..|padded|]) + filler)
  }

  /** What a node before the last learns. */
  function ForwardInfo(address: NodeAddress, delay: Delay, mac: Mac): (r: Bytes)
    ensures |r| == BLOCK
  {
    [FORWARD_HOP] + VERSION + address + ToBE(delay, DELAY_LENGTH) + mac
  }

  /** One layer around `next`, whose routing information is truncated to make room. */
  function ForForwardHop(max: Pos, suite: Suite, address: NodeAddress, delay: Delay, keys: RoutingKeys,
                         next: Encapsulated): Encapsulated
    requires Sized(max, next)
  {
    var size := EncryptedSize(max);
    var components := ForwardInfo(address, delay, next.mac) + next.encrypted[..size - BLOCK];
    WithMac(suite, keys.headerIntegrityHmacKey,
            Xor(components, Stream(suite.stream, keys.streamCipherKey, OutputLength(max))[..size]))
  }

  /** `zip`: the longer sequence is cut off. */
  function Zip<A, B>(a: seq<A>, b: seq<B>): (r: seq<(A, B)>)
    ensures |r| == Min(|a|, |b|)
    ensures forall i :: 0 <= i < |r| ==> r[i] == (a[i], b[i])
  {
    seq(Min(|a|, |b|), i requires 0 <= i < |a| && i < |b| => (a[i], b[i]))
  }

  function Addresses(route: seq<Node>): (r: seq<NodeAddress>)
    ensures |r| == |route|
  {
    seq(|route|, i requires 0 <= i < |route| => route[i].address)
  }

  type Layer = ((NodeAddress, RoutingKeys), Delay)

  /** Hop by hop the address of the next hop, the own keys and the own delay. */
  function LayersOf(route: seq<Node>, keys: seq<RoutingKeys>, delays: seq<Delay>): seq<Layer>
    requires 1 <= |route| && 1 <= |keys| && 1 <= |delays|
  {
    Zip(Zip(Addresses(route[1..]), keys[..|keys| - 1]), delays[..|delays| - 1])
  }

  /** The layers are put around `inner` from the last to the first. */
  function ForForwardHops(max: Pos, suite: Suite, layers: seq<Layer>, inner: Encapsulated): (r: Encapsulated)
    requires Sized(max, inner)
    ensures Sized(max, r)
  {
    if layers == [] then inner
    else
      var ((address, keys), delay) := layers[0];
      ForForwardHop(max, suite, address, delay, keys, ForForwardHops(max, suite, layers[1..], inner))
  }

  /** What a sender chooses. The secret and the padding are drawn at random. */
  datatype Plan = Plan(route: seq<Node>, delays: seq<Delay>, destination: Destination, secret: Scalar, padding: Bytes)

  predicate ValidPlan(max: Pos, p: Plan) {
    1 <= |p.route| <= max && |p.delays| == |p.route| && |p.padding| == PaddingLength(max, |p.route|)
  }

  /** The routing information from layer `i` inwards. */
  function RoutingFrom(max: Pos, suite: Suite, p: Plan, i: nat): (r: Encapsulated)
    requires ValidPlan(max, p) && i < |p.route|
    ensures Sized(max, r)
  {
    var n, keys := |p.route|, RoutingKeysOf(suite, p.route, p.secret);
    var filler := Filler(suite.stream, StreamKeys(keys), EncryptedSize(max), n - 1);
    var final := ForFinalHop(max, suite, p.destination, keys[n - 1], filler, p.padding);
    ForForwardHops(max, suite, LayersOf(p.route, keys, p.delays)[i..], final)
  }

  function PayloadKeys(keys: seq<RoutingKeys>): (r: seq<PayloadKey>)
    ensures |r| == |keys|
  {
    seq(|keys|, i requires 0 <= i < |keys| => keys[i].payloadKey)
  }

  /** What `SphinxHeader::new` returns: the header for the first hop, and the payload keys of all hops. */
  function NewHeader(max: Pos, suite: Suite, p: Plan): (Header, seq<PayloadKey>)
    requires ValidPlan(max, p)
  {
    (Header(suite.publicKey(p.secret), RoutingFrom(max, suite, p, 0)),
     PayloadKeys(RoutingKeysOf(suite, p.route, p.secret)))
  }

  lemma FillerOfPrefix(suite: Suite, keys: seq<RoutingKeys>, length: nat, m: nat, i: nat)
    requires i <= m <= |keys| && i * BLOCK <= length
    ensures Filler(suite.stream, StreamKeys(keys[..m]), length, i) == Filler(suite.stream, StreamKeys(keys), length, i)
  {
    if i > 0 {
      FillerOfPrefix(suite, keys, length, m, i - 1);
    }
  }

  method MakeHeader(max: Pos, suite: Suite, p: Plan) returns (header: Header, payloadKeys: seq<PayloadKey>)
    requires ValidPlan(max, p)
    ensures (header, payloadKeys) == NewHeader(max, suite, p)
  {
    hide Filler, ForFinalHop, ForForwardHops, Sized;
    var sharedSecret, keys := DeriveKeyMaterial(suite, p.route, p.secret);
    var n := |p.route|;
    var filler := NewFiller(max, suite, keys[..n - 1]);
    FillerOfPrefix(suite, keys, EncryptedSize(max), n - 1, n - 1);
    var final := ForFinalHop(max, suite, p.destination, keys[n - 1], filler, p.padding);
    var layers := LayersOf(p.route, keys, p.delays);
    assert layers[0..] == layers;
    header := Header(sharedSecret, ForForwardHops(max, suite, layers, final));
    payloadKeys := PayloadKeys(keys);
  }

  // ---------- Processing ----------

  datatype Parsed =
    | ForwardHop(address: NodeAddress, delay: Delay, next: Encapsulated)
    | FinalHop(destination: DestinationAddress, identifier: Identifier)

  /** The routing information with its zero padding, decrypted. */
  function Raw(max: Pos, suite: Suite, key: Bytes, e: Encapsulated): (r: Bytes)
    requires Sized(max, e)
    ensures |r| == OutputLength(max)
  {
    Xor(e.encrypted + Zeros(BLOCK), Stream(suite.stream, key, OutputLength(max)))
  }

  function ParsedForward(max: Pos, raw: Bytes): Parsed
    requires |raw| == OutputLength(max)
  {
    var i := FLAG_LENGTH + VERSION_LENGTH;
    var j := i + NODE_ADDRESS_LENGTH;
    var k := j + DELAY_LENGTH;
    FromBEBounded(raw[j..k]);
    ForwardHop(raw[i..j], FromBE(raw[j..k]), Encapsulated(raw[BLOCK..], raw[k..BLOCK]))
  }

  function ParsedFinal(max: Pos, raw: Bytes): Parsed
    requires |raw| == OutputLength(max)
  {
    var i := FLAG_LENGTH + VERSION_LENGTH;
    var j := i + DESTINATION_ADDRESS_LENGTH;
    FinalHop(raw[i..j], raw[j..j + IDENTIFIER_LENGTH])
  }

  function Parse(max: Pos, raw: Bytes): (r: Outcome<Parsed>)
    requires |raw| == OutputLength(max)
    ensures r.Done? && r.value.ForwardHop? ==> Sized(max, r.value.next)
  {
    if raw[0] == FORWARD_HOP then Done(ParsedForward(max, raw))
    else if raw[0] == FINAL_HOP then Done(ParsedFinal(max, raw))
    else Failed(InvalidRouting)
  }

  /** The parser as it is written, with a cursor that moves over the fields. */
  method ParseAsForwardHop(max: Pos, raw: Bytes) returns (parsed: Parsed)
    requires |raw| == OutputLength(max)
    ensures parsed == ParsedForward(max, raw)
  {
    var i := FLAG_LENGTH;
    var version := raw[i..i + VERSION_LENGTH];
    i := i + VERSION_LENGTH;
    var nextHopAddress := raw[i..i + NODE_ADDRESS_LENGTH];
    i := i + NODE_ADDRESS_LENGTH;
    var delayBytes := raw[i..i + DELAY_LENGTH];
    i := i + DELAY_LENGTH;
    var mac := raw[i..i + HEADER_INTEGRITY_MAC_SIZE];
    i := i + HEADER_INTEGRITY_MAC_SIZE;
    var next := Encapsulated(raw[i..i + EncryptedSize(max)], mac);
    FromBEBounded(delayBytes);
    parsed := ForwardHop(nextHopAddress, FromBE(delayBytes), next);
  }

  method ParseAsFinalHop(max: Pos, raw: Bytes) returns (parsed: Parsed)
    requires |raw| == OutputLength(max)
    ensures parsed == ParsedFinal(max, raw)
  {
    var i := FLAG_LENGTH;
    var version := raw[i..i + VERSION_LENGTH];
    i := i + VERSION_LENGTH;
    var destination := raw[i..i + DESTINATION_ADDRESS_LENGTH];
    i := i + DESTINATION_ADDRESS_LENGTH;
    parsed := FinalHop(destination, raw[i..i + HEADER_INTEGRITY_MAC_SIZE]);
  }

  datatype ProcessedHeader =
    | ForwardHeader(header: Header, address: NodeAddress, delay: Delay, payloadKey: PayloadKey)
    | FinalHeader(destination: DestinationAddress, identifier: Identifier, payloadKey: PayloadKey)

  /** `SphinxHeader::process`. */
  function ProcessHeader(max: Pos, suite: Suite, secretKey: Scalar, h: Header): (r: Outcome<ProcessedHeader>)
    requires Sized(max, h.routing)
    ensures r.Done? && r.value.ForwardHeader? ==> Sized(max, r.value.header.routing)
  {
    var keys := Derive(suite, suite.diffieHellman(secretKey, h.sharedSecret));
    if suite.hmac(keys.headerIntegrityHmacKey, h.routing.encrypted) != h.routing.mac then Failed(InvalidHeader)
    else
      var parsed := Parse(max, Raw(max, suite, keys.streamCipherKey, h.routing));
      if parsed.Failed? then Failed(parsed.error)
      else
        match parsed.value
        case ForwardHop(address, delay, next) =>
          var blinded := suite.diffieHellman(suite.scalarOf(keys.blindingFactor), h.sharedSecret);
          Done(ForwardHeader(Header(blinded, next), address, delay, keys.payloadKey))
        case FinalHop(destination, identifier) => Done(FinalHeader(destination, identifier, keys.payloadKey))
  }
}
