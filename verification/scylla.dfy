/** The onion format of Scylla: what `wrap` builds and what `process` takes apart. Random draws (the
    ephemeral secret and the padding) are parameters. */
module Scylla {
  import opened Bytes
  import opened LayeredHeader
  import opened ScyllaPrimitives

  const ADDRESS_LENGTH: nat := 32
  const PER_HOP_META_LENGTH: nat := ADDRESS_LENGTH + 8 + 3
  const FINAL_HOP_META_LENGTH: nat := 32
  const REPLY_META_LENGTH: nat := 32 + 16 + 3
  const BYTES_PER_HOP: nat := PER_HOP_META_LENGTH + KAPPA + 1

  /** The flags. */
  const DELIVER: byte := 0xf0
  const RELAY: byte := 0xf1
  const FRAGMENT: byte := 0xf2

  type Address = b: Bytes | |b| == ADDRESS_LENGTH witness Zeros(ADDRESS_LENGTH)
  type FinalInfo = b: Bytes | |b| == REPLY_META_LENGTH + 1 witness Zeros(REPLY_META_LENGTH + 1)
  type Pos = n: nat | 1 <= n witness 1

  datatype Node = Node(address: Address, publicKey: Point)

  datatype Error =
    | InvalidFragmentSize
    | InvalidPathCount
    | MacMismatch
    | InvalidHeaderFlag
    | MissingFragments
    | DivergingPaths

  /** A result, or a failed `unwrap`, index or assertion. */
  datatype Outcome<+T> = Done(value: T) | Failed(error: Error) | Panicked

  datatype Processed =
    | Relay(meta: Bytes, onion: Bytes)
    | Fragment(setId: nat, index: nat, data: Bytes)
    | Reply(meta: Bytes, data: Bytes)

  datatype Config = Config(maxPathLength: Pos, payloadSize: nat)

  function HeaderLength(config: Config): (n: nat)
    ensures n == BLOCK * config.maxPathLength - 8
  {
    BYTES_PER_HOP * (config.maxPathLength - 1) + (1 + REPLY_META_LENGTH)
  }

  /** The paths that `wrap` accepts. */
  predicate ValidPath(config: Config, path: seq<Node>) {
    1 <= |path| <= config.maxPathLength
  }

  // ---------- Shared secrets ----------

  /** The blinded group element that a hop receives, and its logarithm, which only the sender knows. */
  datatype Blinded = Blinded(alpha: Point, factor: Scalar)

  function Blind(suite: Suite, node: Node, b: Blinded): Blinded {
    var blinding := suite.hB(b.alpha, suite.act(node.publicKey, b.factor));
    Blinded(suite.act(b.alpha, blinding), suite.mul(b.factor, blinding))
  }

  function BlindedAt(suite: Suite, path: seq<Node>, secret: Scalar, i: nat): Blinded
    requires i <= |path|
  {
    if i == 0 then Blinded(suite.act(suite.base, secret), secret)
    else Blind(suite, path[i - 1], BlindedAt(suite, path, secret, i - 1))
  }

  /** The secret that the sender shares with hop `i`, computed from the public key of the hop. */
  function SharedSecret(suite: Suite, path: seq<Node>, secret: Scalar, i: nat): Point
    requires i < |path|
  {
    suite.act(path[i].publicKey, BlindedAt(suite, path, secret, i).factor)
  }

  function SharedSecrets(suite: Suite, path: seq<Node>, secret: Scalar): (r: seq<Point>)
    ensures |r| == |path|
  {
    seq(|path|, i requires 0 <= i < |path| => SharedSecret(suite, path, secret, i))
  }

  function RhoKeys(suite: Suite, secrets: seq<Point>): (r: seq<Bytes>)
    ensures |r| == |secrets|
  {
    seq(|secrets|, i requires 0 <= i < |secrets| => suite.hRho(secrets[i]))
  }

  function PiKeys(suite: Suite, secrets: seq<Point>): (r: seq<Bytes>)
    ensures |r| == |secrets|
  {
    seq(|secrets|, i requires 0 <= i < |secrets| => suite.hPi(secrets[i]))
  }

  // ---------- The header ----------

  /** What a relay learns: the next address and the tag of the next header. */
  function RelayInfo(address: Address, tag: Bytes): Bytes {
    [RELAY] + address + Zeros(PER_HOP_META_LENGTH - ADDRESS_LENGTH) + tag
  }

  function LastBeta(config: Config, suite: Suite, keys: seq<Bytes>, finalInfo: FinalInfo, padding: Bytes): Bytes
    requires 1 <= |keys| <= config.maxPathLength
  {
    var n := |keys|;
    Xor(finalInfo, Stream(suite.rho, keys[n - 1], |finalInfo|)) + padding
      + Filler(suite.rho, keys, HeaderLength(config), n - 1)
  }

  /** The header for hop `i`, without its tag. */
  function Beta(config: Config, suite: Suite, path: seq<Node>, secrets: seq<Point>, finalInfo: FinalInfo,
                padding: Bytes, i: nat): (r: Bytes)
    requires ValidPath(config, path) && |secrets| == |path| && i < |path|
    requires |padding| == BLOCK * (config.maxPathLength - |path|) && HashLaws(suite)
    ensures |r| == HeaderLength(config)
    decreases |path| - i
  {
    var keys := RhoKeys(suite, secrets);
    if i == |path| - 1 then LastBeta(config, suite, keys, finalInfo, padding)
    else
      var inner := Beta(config, suite, path, secrets, finalInfo, padding, i + 1);
      Encrypted(suite.rho, keys[i], RelayInfo(path[i + 1].address, suite.mu(suite.hMu(secrets[i + 1]), inner)), inner)
  }

  // ---------- The payload ----------

  /** The payload under one layer for each key, the last key innermost. */
  function Wrapped(suite: Suite, keys: seq<Bytes>, data: Bytes): Bytes {
    if keys == [] then data else Pi(suite, keys[0], Wrapped(suite, keys[1..], data))
  }

  function Unwrapped(suite: Suite, keys: seq<Bytes>, data: Bytes): Bytes {
    if keys == [] then data else Unwrapped(suite, keys[1..], PiInv(suite, keys[0], data))
  }

  lemma {:induction false} PayloadUndone(suite: Suite, keys: seq<Bytes>, data: Bytes)
    requires CipherLaws(suite) && Cipherable(suite, data)
    ensures |Wrapped(suite, keys, data)| == |data| && Unwrapped(suite, keys, Wrapped(suite, keys, data)) == data
  {
    hide CipherLaws;
    if keys != [] {
      PayloadUndone(suite, keys[1..], data);
      PiUndone(suite, keys[0], Wrapped(suite, keys[1..], data));
    }
  }

  lemma {:induction false} ReplyUndone(suite: Suite, keys: seq<Bytes>, data: Bytes)
    requires CipherLaws(suite) && Cipherable(suite, data)
    ensures |Unwrapped(suite, keys, data)| == |data| && Wrapped(suite, keys, Unwrapped(suite, keys, data)) == data
  {
    hide CipherLaws;
    if keys != [] {
      PiUndone(suite, keys[0], data);
      ReplyUndone(suite, keys[1..], PiInv(suite, keys[0], data));
    }
  }

  // ---------- The onion ----------

  function Onion(alpha: Bytes, beta: Bytes, gamma: Bytes, delta: Bytes): Bytes {
    alpha + beta + gamma + delta
  }

  /** The onion as hop `i` receives it, with `delta` as its payload. */
  function OnionAt(config: Config, suite: Suite, path: seq<Node>, secret: Scalar, finalInfo: FinalInfo, padding: Bytes,
                   i: nat, delta: Bytes): Bytes
    requires ValidPath(config, path) && i < |path|
    requires |padding| == BLOCK * (config.maxPathLength - |path|) && HashLaws(suite)
  {
    var secrets := SharedSecrets(suite, path, secret);
    var beta := Beta(config, suite, path, secrets, finalInfo, padding, i);
    Onion(suite.compress(BlindedAt(suite, path, secret, i).alpha), beta, suite.mu(suite.hMu(secrets[i]), beta), delta)
  }

  /** What `wrap` builds: the onion for the first hop. */
  function WrappedOnion(config: Config, suite: Suite, path: seq<Node>, secret: Scalar, finalInfo: FinalInfo,
                        padding: Bytes, payload: Bytes): Bytes
    requires ValidPath(config, path)
    requires |padding| == BLOCK * (config.maxPathLength - |path|) && HashLaws(suite)
  {
    OnionAt(config, suite, path, secret, finalInfo, padding, 0,
            Wrapped(suite, PiKeys(suite, SharedSecrets(suite, path, secret)), payload))
  }

  // ---------- Processing ----------

  /** What a node makes of the decrypted routing information. `alpha` is already blinded for the next hop. */
  function Handle(suite: Suite, routing: Bytes, alpha: Point, delta: Bytes): Outcome<Processed>
    requires BYTES_PER_HOP <= |routing|
  {
    var info := routing[..BYTES_PER_HOP];
    if info[0] == RELAY then
      Done(Relay(info[1..1 + PER_HOP_META_LENGTH],
                 Onion(suite.compress(alpha), routing[BYTES_PER_HOP..], info[1 + PER_HOP_META_LENGTH..], delta)))
    else if info[0] == FRAGMENT then
      Done(Fragment(FromBE(info[1 + KAPPA..1 + 2 * KAPPA]), FromBE(info[1..1 + KAPPA]), delta))
    else if info[0] == DELIVER then
      Done(Reply(info[1..1 + REPLY_META_LENGTH], delta))
    else
      Failed(InvalidHeaderFlag)
  }

  function Process(config: Config, suite: Suite, privateKey: Scalar, onion: Bytes): Outcome<Processed> {
    var n := HeaderLength(config);
    if |onion| < ALPHA_LEN + n + KAPPA then Panicked
    else
      match suite.decompress(onion[..ALPHA_LEN])
      case None => Panicked
      case Some(alpha) =>
        var secret := suite.act(alpha, privateKey);
        var beta := onion[ALPHA_LEN..ALPHA_LEN + n];
        if onion[ALPHA_LEN + n..ALPHA_LEN + n + KAPPA] != suite.mu(suite.hMu(secret), beta) then Failed(MacMismatch)
        else
          var delta := onion[ALPHA_LEN + n + KAPPA..];
          if !Cipherable(suite, delta) then Panicked
          else Handle(suite, Decrypted(suite.rho, suite.hRho(secret), beta), suite.act(alpha, suite.hB(alpha, secret)),
                      PiInv(suite, suite.hPi(secret), delta))
  }
}
