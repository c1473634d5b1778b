/** Messages in several onions: `create_onions` and `defrag`, and their round trip over any order of arrival. */
module ScyllaFragments {
  import opened Bytes
  import opened Wrappers
  import opened LayeredHeader
  import opened ScyllaPrimitives
  import opened Scylla
  import opened ScyllaPaths
  import opened ScyllaWrap
  import opened ScyllaAont

  type FinalHopMeta = b: Bytes | |b| == FINAL_HOP_META_LENGTH witness Zeros(FINAL_HOP_META_LENGTH)
  type SetId = b: Bytes | |b| == KAPPA witness Zeros(KAPPA)

  /** The width of `usize`. */
  const USIZE_BYTES: nat := 8

  /** What is drawn at random: for the transform, for the set, and for each onion. */
  datatype Draws = Draws(randomness: Randomness, setId: SetId, secrets: seq<Scalar>, paddings: seq<Bytes>)

  predicate DrawsFor(config: Config, paths: seq<seq<Node>>, draws: Draws) {
    && |draws.secrets| == |paths| && |draws.paddings| == |paths|
    && forall i :: 0 <= i < |paths| && ValidPath(config, paths[i]) ==>
         |draws.paddings[i]| == BLOCK * (config.maxPathLength - |paths[i]|)
  }

  // ---------- Checks ----------

  function LastOf(path: seq<Node>): Option<Node> {
    if path == [] then None else Some(path[|path| - 1])
  }

  function FirstLength(fragments: seq<Bytes>): nat
    requires fragments != []
  {
    |fragments[0]| + 2 * KAPPA + FINAL_HOP_META_LENGTH
  }

  predicate RightSizes(config: Config, fragments: seq<Bytes>) {
    && (fragments != [] ==> FirstLength(fragments) == config.payloadSize)
    && forall i :: 1 <= i < |fragments| ==> |fragments[i]| == config.payloadSize
  }

  predicate SameEnd(paths: seq<seq<Node>>) {
    forall i :: 1 <= i < |paths| ==> LastOf(paths[i]) == LastOf(paths[0])
  }

  /** The error that `create_onions` reports, if any. */
  function Complaint(config: Config, paths: seq<seq<Node>>, fragments: seq<Bytes>): Option<Error> {
    if |fragments| != |paths| then Some(InvalidPathCount)
    else if !RightSizes(config, fragments) then Some(InvalidFragmentSize)
    else if fragments != [] && !SameEnd(paths) then Some(DivergingPaths)
    else None
  }

  // ---------- Onions ----------

  /** The information for the last hop of the `i`-th onion. */
  function FragmentInfo(i: nat, setId: SetId): FinalInfo {
    [FRAGMENT] + Zeros(KAPPA - USIZE_BYTES) + ToBE(i, USIZE_BYTES) + setId + Zeros(REPLY_META_LENGTH - 2 * KAPPA)
  }

  /** The first fragment gets the bytes by which a complete set is recognised, and the destination. */
  function Addressed(destination: FinalHopMeta, fragments: seq<Bytes>): (r: seq<Bytes>)
    requires fragments != []
    ensures |r| == |fragments| && |r[0]| == KAPPA + FINAL_HOP_META_LENGTH + |fragments[0]|
  {
    [Zeros(KAPPA) + destination + fragments[0]] + fragments[1..]
  }

  function Payloads(suite: Suite, destination: FinalHopMeta, fragments: seq<Bytes>, draws: Draws): (r: seq<Bytes>)
    requires HashLaws(suite) && fragments != []
    ensures |r| == |fragments|
  {
    Transformed(suite, draws.randomness, Addressed(destination, fragments))
  }

  /** The transform makes up for the different length of the first fragment. */
  lemma PayloadSizes(config: Config, suite: Suite, destination: FinalHopMeta, fragments: seq<Bytes>, draws: Draws)
    requires HashLaws(suite) && fragments != [] && RightSizes(config, fragments)
    ensures forall p :: p in Payloads(suite, destination, fragments, draws) ==> |p| == config.payloadSize
  {
  }

  /** Can all these onions be wrapped? If not, an index or a cipher fails. */
  predicate Wrappable(config: Config, suite: Suite, paths: seq<seq<Node>>) {
    && (forall i :: 0 <= i < |paths| ==> ValidPath(config, paths[i]))
    && suite.cipher.minBlock <= config.payloadSize
  }

  function OnionOf(config: Config, suite: Suite, paths: seq<seq<Node>>, draws: Draws, i: nat, payload: Bytes): Bytes
    requires HashLaws(suite) && DrawsFor(config, paths, draws) && i < |paths| && ValidPath(config, paths[i])
  {
    WrappedOnion(config, suite, paths[i], draws.secrets[i], FragmentInfo(i, draws.setId), draws.paddings[i], payload)
  }

  function OnionsOf(config: Config, suite: Suite, paths: seq<seq<Node>>, draws: Draws,
                    payloads: seq<Bytes>): (r: seq<Bytes>)
    requires HashLaws(suite) && DrawsFor(config, paths, draws) && Wrappable(config, suite, paths)
    requires |payloads| == |paths|
    ensures |r| == |paths|
  {
    seq(|paths|, i requires 0 <= i < |paths| => OnionOf(config, suite, paths, draws, i, payloads[i]))
  }

  /** What `create_onions` returns. */
  function Created(config: Config, suite: Suite, paths: seq<seq<Node>>, destination: FinalHopMeta,
                   fragments: seq<Bytes>, draws: Draws)
    : Outcome<seq<Bytes>>
    requires HashLaws(suite) && DrawsFor(config, paths, draws)
  {
    var complaint := Complaint(config, paths, fragments);
    if complaint.Some? then Failed(complaint.value)
    else if fragments == [] then Done([])
    else if !Wrappable(config, suite, paths) then Panicked
    else Done(OnionsOf(config, suite, paths, draws, Payloads(suite, destination, fragments, draws)))
  }

  method CheckOnions(config: Config, paths: seq<seq<Node>>, fragments: seq<Bytes>) returns (complaint: Option<Error>)
    ensures complaint == Complaint(config, paths, fragments)
  {
    if |fragments| != |paths| {
      return Some(InvalidPathCount);
    }
    if fragments == [] {
      return None;
    }
    if |fragments[0]| + 2 * KAPPA + FINAL_HOP_META_LENGTH != config.payloadSize {
      return Some(InvalidFragmentSize);
    }
    for i := 1 to |fragments|
      invariant forall j :: 1 <= j < i ==> |fragments[j]| == config.payloadSize
    {
      if |fragments[i]| != config.payloadSize {
        return Some(InvalidFragmentSize);
      }
    }
    for i := 1 to |paths|
      invariant forall j :: 1 <= j < i ==> LastOf(paths[j]) == LastOf(paths[0])
    {
      if LastOf(paths[i]) != LastOf(paths[0]) {
        return Some(DivergingPaths);
      }
    }
    return None;
  }

  method CreateOnions(config: Config, suite: Suite, paths: seq<seq<Node>>, destination: FinalHopMeta,
                      fragments: seq<Bytes>, draws: Draws)
    returns (result: Outcome<seq<Bytes>>)
    requires HashLaws(suite) && DrawsFor(config, paths, draws)
    ensures result == Created(config, suite, paths, destination, fragments, draws)
  {
    hide HashLaws, RightSizes, SameEnd, OnionOf, Transformed, DrawsFor, Wrappable;
    var complaint := CheckOnions(config, paths, fragments);
    if complaint.Some? {
      return Failed(complaint.value);
    }
    if fragments == [] {
      return Done([]);
    }
    if !Wrappable(config, suite, paths) {
      return Panicked;
    }
    var addressed := fragments[0 := Zeros(KAPPA) + destination + fragments[0]];
    assert addressed == Addressed(destination, fragments);
    var transformed := Aont(suite, draws.randomness, addressed);
    PayloadSizes(config, suite, destination, fragments, draws);
    assert forall p :: p in transformed ==> |p| == config.payloadSize;
    var onions := WrapAll(config, suite, paths, transformed, draws);
    return Done(onions);
  }

  method WrapAll(config: Config, suite: Suite, paths: seq<seq<Node>>, transformed: seq<Bytes>, draws: Draws)
    returns (onions: seq<Bytes>)
    requires HashLaws(suite) && DrawsFor(config, paths, draws) && Wrappable(config, suite, paths)
    requires |transformed| == |paths|
    requires forall p :: p in transformed ==> |p| == config.payloadSize
    ensures onions == OnionsOf(config, suite, paths, draws, transformed)
  {
    hide HashLaws, OnionOf, WrappedOnion, SharedSecrets, FragmentInfo;
    onions := [];
    for i := 0 to |paths|
      invariant onions == OnionsOf(config, suite, paths, draws, transformed)[..i]
    {
      assert transformed[i] in transformed;
      var finalInfo := FragmentInfo(i, draws.setId);
      var _, onion := Wrap(config, suite, paths[i], finalInfo, transformed[i], draws.secrets[i], draws.paddings[i]);
      OnionIs(config, suite, paths, draws, i, transformed[i]);
      onions := onions + [onion];
    }
  }

  lemma OnionIs(config: Config, suite: Suite, paths: seq<seq<Node>>, draws: Draws, i: nat, payload: Bytes)
    requires HashLaws(suite) && DrawsFor(config, paths, draws) && i < |paths| && ValidPath(config, paths[i])
    ensures OnionOf(config, suite, paths, draws, i, payload)
         == WrappedOnion(config, suite, paths[i], draws.secrets[i], FragmentInfo(i, draws.setId), draws.paddings[i],
                         payload)
  {
  }

  // ---------- Putting the fragments together ----------

  /** What `defrag` makes of the restored data: the destination and the message. */
  function Opened(data: Bytes): Outcome<(Bytes, Bytes)> {
    if |data| < KAPPA || data[..KAPPA] != Zeros(KAPPA) then Failed(MissingFragments)
    else if |data| < KAPPA + FINAL_HOP_META_LENGTH then Panicked
    else Done((data[KAPPA..KAPPA + FINAL_HOP_META_LENGTH], data[KAPPA + FINAL_HOP_META_LENGTH..]))
  }

  function Defragmented(suite: Suite, fragments: seq<Bytes>): Outcome<(Bytes, Bytes)>
    requires HashLaws(suite)
  {
    if fragments == [] || |fragments[0]| < KAPPA then Panicked else Opened(Flatten(Restored(suite, fragments)))
  }

  method Defrag(suite: Suite, fragments: seq<Bytes>) returns (result: Outcome<(Bytes, Bytes)>)
    requires HashLaws(suite)
    ensures result == Defragmented(suite, fragments)
  {
    hide HashLaws, Restored;
    var restored := AontInv(suite, fragments);
    if !restored.Done? {
      return Panicked;
    }
    var data := Flatten(restored.value);
    if |data| < KAPPA || exists i :: 0 <= i < KAPPA && data[i] != 0 {
      return Failed(MissingFragments);
    }
    assert data[..KAPPA] == Zeros(KAPPA);
    ghost var all := data;
    data := data[KAPPA..];
    if |data| < FINAL_HOP_META_LENGTH {
      return Panicked;
    }
    var address := data[..FINAL_HOP_META_LENGTH];
    data := data[FINAL_HOP_META_LENGTH..];
    assert address == all[KAPPA..KAPPA + FINAL_HOP_META_LENGTH] && data == all[KAPPA + FINAL_HOP_META_LENGTH..];
    return Done((address, data));
  }

  lemma OpenedAddressed(destination: FinalHopMeta, fragments: seq<Bytes>)
    requires fragments != []
    ensures Opened(Flatten(Addressed(destination, fragments))) == Done((destination, Flatten(fragments)))
  {
    var addressed := Addressed(destination, fragments);
    assert addressed[1..] == fragments[1..];
    assert Flatten(addressed) == Zeros(KAPPA) + destination + (fragments[0] + Flatten(fragments[1..]));
  }

  // ---------- Any order of arrival ----------

  /** A fragment as the recipient keeps it: its index and its data. */
  type Arrival = (nat, Bytes)

  function Arrivals(payloads: seq<Bytes>): (r: seq<Arrival>)
    ensures |r| == |payloads|
  {
    seq(|payloads|, i requires 0 <= i < |payloads| => (i, payloads[i]))
  }

  function DataOf(arrivals: seq<Arrival>): (r: seq<Bytes>)
    ensures |r| == |arrivals|
  {
    seq(|arrivals|, i requires 0 <= i < |arrivals| => arrivals[i].1)
  }

  ghost predicate SortedByIndex(arrivals: seq<Arrival>) {
    forall i, j :: 0 <= i < j < |arrivals| ==> arrivals[i].0 <= arrivals[j].0
  }

  ghost predicate CountsFrom(arrivals: seq<Arrival>, first: nat) {
    forall i :: 0 <= i < |arrivals| ==> arrivals[i].0 == first + i
  }

  lemma SameHead(a: seq<Arrival>, b: seq<Arrival>, first: nat)
    requires multiset(a) == multiset(b) && SortedByIndex(a) && CountsFrom(b, first) && a != [] && b != []
    ensures a[0] == b[0]
  {
    assert a[0] in multiset(b) && b[0] in multiset(a);
    var j :| 0 <= j < |b| && b[j] == a[0];
    var k :| 0 <= k < |a| && a[k] == b[0];
    assert a[0].0 <= a[k].0;
  }

  lemma SameTail(a: seq<Arrival>, b: seq<Arrival>)
    requires multiset(a) == multiset(b) && a != [] && b != [] && a[0] == b[0]
    ensures multiset(a[1..]) == multiset(b[1..])
  {
    assert a == [a[0]] + a[1..] && b == [b[0]] + b[1..];
    assert multiset(a[1..]) == multiset(a) - multiset{a[0]};
    assert multiset(b[1..]) == multiset(b) - multiset{b[0]};
  }

  /** Sorting by index leaves only one possible order. */
  lemma {:induction false} SortedIsUnique(a: seq<Arrival>, b: seq<Arrival>, first: nat)
    requires multiset(a) == multiset(b) && SortedByIndex(a) && CountsFrom(b, first)
    ensures a == b
  {
    if a == [] || b == [] {
      assert |multiset(a)| == |a| && |multiset(b)| == |b|;
    } else {
      SameHead(a, b, first);
      SameTail(a, b);
      SortedIsUnique(a[1..], b[1..], first + 1);
      assert a == [a[0]] + a[1..] && b == [b[0]] + b[1..];
    }
  }

  /** The last hop reads back the index and the set that the sender put in. */
  lemma FragmentReceived(i: nat, setId: SetId, data: Bytes)
    requires i < Pow256(USIZE_BYTES)
    ensures ForLastHop(FragmentInfo(i, setId))
    ensures Received(FragmentInfo(i, setId), data) == Fragment(FromBE(setId), i, data)
  {
    var info := FragmentInfo(i, setId);
    assert info[1..1 + KAPPA] == Zeros(KAPPA - USIZE_BYTES) + ToBE(i, USIZE_BYTES);
    assert info[1 + KAPPA..1 + 2 * KAPPA] == setId;
    LeadingZeros(KAPPA - USIZE_BYTES, ToBE(i, USIZE_BYTES));
    BERoundTrip(i, USIZE_BYTES);
  }

  /** The nodes of all paths hold the private keys of their public keys. */
  ghost predicate AllOwned(suite: Suite, paths: seq<seq<Node>>, privateKeys: seq<seq<Scalar>>) {
    |privateKeys| == |paths| && forall i :: 0 <= i < |paths| ==> Owned(suite, paths[i], privateKeys[i])
  }

  /** Onion `i`, routed along its own path, arrives as fragment `i` of the one set. */
  lemma OnionArrives(config: Config, suite: Suite, paths: seq<seq<Node>>, privateKeys: seq<seq<Scalar>>,
                     destination: FinalHopMeta, fragments: seq<Bytes>, draws: Draws, i: nat)
    requires Lawful(suite) && DrawsFor(config, paths, draws) && AllOwned(suite, paths, privateKeys)
    requires Created(config, suite, paths, destination, fragments, draws).Done?
    requires i < |paths| && i < Pow256(USIZE_BYTES)
    ensures |Created(config, suite, paths, destination, fragments, draws).value| == |paths| == |fragments|
    ensures var onion := Created(config, suite, paths, destination, fragments, draws).value[i];
            var payload := Payloads(suite, destination, fragments, draws)[i];
            Arrives(paths[i], Journey(config, suite, privateKeys[i], onion), |onion|,
                    Fragment(FromBE(draws.setId), i, payload))
  {
    hide GroupLaws, CipherLaws, HashLaws, RightSizes, SameEnd, Transformed, WrappedOnion, Arrives, Journey, Received,
         ForLastHop, FragmentInfo;
    var payload := Payloads(suite, destination, fragments, draws)[i];
    var r := Route(paths[i], draws.secrets[i], FragmentInfo(i, draws.setId), draws.paddings[i]);
    PayloadSizes(config, suite, destination, fragments, draws);
    assert payload in Payloads(suite, destination, fragments, draws);
    FragmentReceived(i, draws.setId, payload);
    ProcessingUndoesWrapping(config, suite, r, privateKeys[i], payload);
  }

  /** Whatever the order in which the fragments arrived: once sorted by index, `defrag` returns the
      destination and the message. */
  lemma FragmentsRoundTrip(suite: Suite, destination: FinalHopMeta, fragments: seq<Bytes>, draws: Draws,
                           sorted: seq<Arrival>)
    requires HashLaws(suite) && fragments != []
    requires multiset(sorted) == multiset(Arrivals(Payloads(suite, destination, fragments, draws)))
    requires SortedByIndex(sorted)
    ensures Defragmented(suite, DataOf(sorted)) == Done((destination, Flatten(fragments)))
  {
    hide HashLaws, Restored, Opened, Addressed;
    var payloads, addressed := Payloads(suite, destination, fragments, draws), Addressed(destination, fragments);
    SortedIsUnique(sorted, Arrivals(payloads), 0);
    assert DataOf(sorted) == payloads;
    TransformUndone(suite, draws.randomness, addressed);
    OpenedAddressed(destination, fragments);
  }

  /** The last node of path `i` ends up with `arrival`. */
  ghost predicate Delivers(config: Config, suite: Suite, path: seq<Node>, privateKeys: seq<Scalar>, onion: Bytes,
                           setId: nat, arrival: Arrival) {
    var journey := Journey(config, suite, privateKeys, onion);
    1 <= |path| == |journey| && journey[|path| - 1] == Done(Fragment(setId, arrival.0, arrival.1))
  }

  /** End to end: send the onions of a message along their paths, collect what the last nodes get in any
      order, sort it by index and put it together: out come the destination and the message. */
  lemma MessageArrives(config: Config, suite: Suite, paths: seq<seq<Node>>, privateKeys: seq<seq<Scalar>>,
                       destination: FinalHopMeta,
                       fragments: seq<Bytes>, draws: Draws, arrivals: seq<Arrival>, sorted: seq<Arrival>)
    requires Lawful(suite) && DrawsFor(config, paths, draws) && AllOwned(suite, paths, privateKeys)
    requires Created(config, suite, paths, destination, fragments, draws).Done? && fragments != []
    requires |paths| <= Pow256(USIZE_BYTES)
    requires |Created(config, suite, paths, destination, fragments, draws).value| == |arrivals| == |paths|
    requires forall i :: 0 <= i < |paths| ==>
               Delivers(config, suite, paths[i], privateKeys[i],
                        Created(config, suite, paths, destination, fragments, draws).value[i],
                        FromBE(draws.setId), arrivals[i])
    requires multiset(sorted) == multiset(arrivals) && SortedByIndex(sorted)
    ensures Defragmented(suite, DataOf(sorted)) == Done((destination, Flatten(fragments)))
  {
    hide GroupLaws, CipherLaws, HashLaws, Created, Transformed, Journey, DrawsFor;
    var payloads := Payloads(suite, destination, fragments, draws);
    CreatedLength(config, suite, paths, destination, fragments, draws);
    forall i | 0 <= i < |paths|
      ensures arrivals[i] == Arrivals(payloads)[i]
    {
      OnionArrives(config, suite, paths, privateKeys, destination, fragments, draws, i);
    }
    assert arrivals == Arrivals(payloads);
    FragmentsRoundTrip(suite, destination, fragments, draws, sorted);
  }

  lemma CreatedLength(config: Config, suite: Suite, paths: seq<seq<Node>>, destination: FinalHopMeta,
                      fragments: seq<Bytes>, draws: Draws)
    requires HashLaws(suite) && DrawsFor(config, paths, draws)
    requires Created(config, suite, paths, destination, fragments, draws).Done?
    ensures |Created(config, suite, paths, destination, fragments, draws).value| == |paths| == |fragments|
  {
  }
}
