/** The all-or-nothing transform of Scylla: two rounds of a Feistel network over a list of fragments. */
module ScyllaAont {
  import opened Bytes
  import opened ScyllaPrimitives
  import opened Scylla

  /** `data`, cut at the boundaries of `fragments`. */
  function CutLike(fragments: seq<Bytes>, data: Bytes): (r: seq<Bytes>)
    requires |data| == |Flatten(fragments)|
    ensures |r| == |fragments| && forall i :: 0 <= i < |r| ==> |r[i]| == |fragments[i]|
  {
    if fragments == [] then []
    else [data[..|fragments[0]|]] + CutLike(fragments[1..], data[|fragments[0]|..])
  }

  lemma {:induction false} CutLikeFlattens(fragments: seq<Bytes>, data: Bytes)
    requires |data| == |Flatten(fragments)|
    ensures Flatten(CutLike(fragments, data)) == data
  {
    if fragments != [] {
      CutLikeFlattens(fragments[1..], data[|fragments[0]|..]);
      assert CutLike(fragments, data)[1..] == CutLike(fragments[1..], data[|fragments[0]|..]);
    }
  }

  lemma {:induction false} FlattenCut(fragments: seq<Bytes>)
    ensures CutLike(fragments, Flatten(fragments)) == fragments
  {
    if fragments != [] {
      FlattenCut(fragments[1..]);
      assert Flatten(fragments)[|fragments[0]|..] == Flatten(fragments[1..]);
    }
  }

  ghost predicate SameLengths(a: seq<Bytes>, b: seq<Bytes>) {
    |a| == |b| && forall i :: 0 <= i < |a| ==> |a[i]| == |b[i]|
  }

  /** Only the lengths of the fragments matter for where they are cut. */
  lemma {:induction false} CutsAlike(a: seq<Bytes>, b: seq<Bytes>, data: Bytes)
    requires SameLengths(a, b)
    ensures |Flatten(a)| == |Flatten(b)|
    ensures |data| == |Flatten(a)| ==> CutLike(a, data) == CutLike(b, data)
  {
    if a != [] {
      assert forall i :: 0 <= i < |a| - 1 ==> a[1..][i] == a[i + 1] && b[1..][i] == b[i + 1];
      CutsAlike(a[1..], b[1..], if |a[0]| <= |data| then data[|a[0]|..] else []);
    }
  }

  // ---------- The transform on one string ----------

  type Randomness = b: Bytes | |b| == KAPPA witness Zeros(KAPPA)

  /** First round: the message is masked with a keystream made from the randomness. */
  function Masked(suite: Suite, randomness: Bytes, m: Bytes): (s: Bytes)
    ensures |s| == |m|
  {
    Xor(m, Stream(suite.shake128, randomness, |m|))
  }

  /** Second round: the randomness is masked with the hash of the masked message. */
  function Hidden(suite: Suite, randomness: Bytes, s: Bytes): (t: Bytes)
    requires HashLaws(suite) && |randomness| == KAPPA
    ensures |t| == KAPPA
  {
    Xor(randomness, suite.sha256(s))
  }

  lemma RoundsUndone(suite: Suite, randomness: Bytes, m: Bytes)
    requires HashLaws(suite) && |randomness| == KAPPA
    ensures Masked(suite, randomness, Masked(suite, randomness, m)) == m
    ensures Hidden(suite, Hidden(suite, randomness, m), m) == randomness
  {
    XorCancels(m, Stream(suite.shake128, randomness, |m|));
    XorCancels(randomness, suite.sha256(m));
  }

  // ---------- The transform on fragments ----------

  /** One Feistel pass over the whole message, cut at the boundaries of the fragments. The hidden randomness
      goes in front. */
  function Transformed(suite: Suite, randomness: Randomness, fragments: seq<Bytes>): (r: seq<Bytes>)
    requires HashLaws(suite) && fragments != []
    ensures |r| == |fragments| && |r[0]| == KAPPA + |fragments[0]|
    ensures forall i :: 1 <= i < |r| ==> |r[i]| == |fragments[i]|
  {
    var s := Masked(suite, randomness, Flatten(fragments));
    var parts := CutLike(fragments, s);
    [Hidden(suite, randomness, s) + parts[0]] + parts[1..]
  }

  /** The transformed fragments without the hidden randomness. */
  function Bodies(transformed: seq<Bytes>): (r: seq<Bytes>)
    requires transformed != [] && KAPPA <= |transformed[0]|
    ensures |r| == |transformed|
  {
    [transformed[0][KAPPA..]] + transformed[1..]
  }

  function Recovered(suite: Suite, transformed: seq<Bytes>): Randomness
    requires HashLaws(suite) && transformed != [] && KAPPA <= |transformed[0]|
  {
    Hidden(suite, transformed[0][..KAPPA], Flatten(Bodies(transformed)))
  }

  function Restored(suite: Suite, transformed: seq<Bytes>): seq<Bytes>
    requires HashLaws(suite) && transformed != [] && KAPPA <= |transformed[0]|
  {
    var bodies := Bodies(transformed);
    CutLike(bodies, Masked(suite, Recovered(suite, transformed), Flatten(bodies)))
  }

  lemma TransformedParts(suite: Suite, randomness: Randomness, fragments: seq<Bytes>)
    requires HashLaws(suite) && fragments != []
    ensures var s := Masked(suite, randomness, Flatten(fragments));
            var transformed := Transformed(suite, randomness, fragments);
            && transformed[0][..KAPPA] == Hidden(suite, randomness, s)
            && Bodies(transformed) == CutLike(fragments, s)
            && Flatten(Bodies(transformed)) == s
  {
    var s := Masked(suite, randomness, Flatten(fragments));
    CutLikeFlattens(fragments, s);
    assert Bodies(Transformed(suite, randomness, fragments)) == CutLike(fragments, s);
  }

  /** The transform can be undone, and the randomness recovered. */
  lemma TransformUndone(suite: Suite, randomness: Randomness, fragments: seq<Bytes>)
    requires HashLaws(suite) && fragments != []
    ensures Recovered(suite, Transformed(suite, randomness, fragments)) == randomness
    ensures Restored(suite, Transformed(suite, randomness, fragments)) == fragments
  {
    hide Masked, Hidden, Transformed, HashLaws;
    var s := Masked(suite, randomness, Flatten(fragments));
    TransformedParts(suite, randomness, fragments);
    RoundsUndone(suite, randomness, Flatten(fragments));
    RoundsUndone(suite, randomness, s);
    CutsAlike(CutLike(fragments, s), fragments, Flatten(fragments));
    FlattenCut(fragments);
  }

  /** Conversely, transforming what was restored, with the recovered randomness, gives back the same
      fragments: the transform is a permutation of the lists of fragments of given lengths. */
  lemma RestoreUndone(suite: Suite, transformed: seq<Bytes>)
    requires HashLaws(suite) && transformed != [] && KAPPA <= |transformed[0]|
    ensures var restored := Restored(suite, transformed);
            restored != [] && Transformed(suite, Recovered(suite, transformed), restored) == transformed
  {
    hide Masked, Hidden, HashLaws;
    var bodies, randomness := Bodies(transformed), Recovered(suite, transformed);
    var s := Flatten(bodies);
    var m := Masked(suite, randomness, s);
    CutLikeFlattens(bodies, m);
    RoundsUndone(suite, randomness, s);
    RoundsUndone(suite, transformed[0][..KAPPA], s);
    CutsAlike(CutLike(bodies, m), bodies, s);
    FlattenCut(bodies);
    assert transformed == [transformed[0]] + transformed[1..];
    assert transformed[0] == transformed[0][..KAPPA] + bodies[0] && bodies[1..] == transformed[1..];
  }

  // ---------- The loops ----------

  /** Where fragment `i` starts. */
  function Offset(fragments: seq<Bytes>, i: nat): nat
    requires i <= |fragments|
  {
    if i == 0 then 0 else Offset(fragments, i - 1) + |fragments[i - 1]|
  }

  lemma {:induction false} OffsetOfRest(fragments: seq<Bytes>, i: nat)
    requires 1 <= i <= |fragments|
    ensures Offset(fragments, i) == |fragments[0]| + Offset(fragments[1..], i - 1)
  {
    if i > 1 {
      OffsetOfRest(fragments, i - 1);
    }
  }

  lemma {:induction false} OffsetAtEnd(fragments: seq<Bytes>)
    ensures Offset(fragments, |fragments|) == |Flatten(fragments)|
  {
    if fragments != [] {
      OffsetAtEnd(fragments[1..]);
      OffsetOfRest(fragments, |fragments|);
    }
  }

  lemma {:induction false} PieceAt(fragments: seq<Bytes>, data: Bytes, i: nat)
    requires |data| == |Flatten(fragments)| && i < |fragments|
    ensures var start, end := Offset(fragments, i), Offset(fragments, i + 1);
            start <= end <= |data| && CutLike(fragments, data)[i] == data[start..end]
  {
    if i > 0 {
      var first := |fragments[0]|;
      PieceAt(fragments[1..], data[first..], i - 1);
      OffsetOfRest(fragments, i);
      OffsetOfRest(fragments, i + 1);
      var start, end := Offset(fragments[1..], i - 1), Offset(fragments[1..], i);
      assert data[first..][start..end] == data[first + start..first + end];
    }
  }

  /** Masking one fragment at its offset in the keystream is masking it as part of the whole message. */
  lemma MaskedPiece(suite: Suite, randomness: Bytes, fragments: seq<Bytes>, i: nat)
    requires i < |fragments|
    ensures var m, start := Flatten(fragments), Offset(fragments, i);
            var s, end := Masked(suite, randomness, m), start + |fragments[i]|;
            && end <= |m| && Xor(fragments[i], Stream(suite.shake128, randomness, |m|)[start..]) == s[start..end]
            && CutLike(fragments, s)[i] == s[start..end]
  {
    hide XorByte, CutLike, Flatten;
    var m, start, end := Flatten(fragments), Offset(fragments, i), Offset(fragments, i + 1);
    var mask := Stream(suite.shake128, randomness, |m|);
    PieceAt(fragments, m, i);
    FlattenCut(fragments);
    PieceAt(fragments, Masked(suite, randomness, m), i);
    XorSlice(m, mask, start, end);
    XorCut(fragments[i], mask[start..], |fragments[i]|);
    assert mask[start..][..|fragments[i]|] == mask[start..end];
  }

  /** `aont`: the fragments are masked one by one, with a running offset into the keystream, and the hash
      absorbs them as they come. */
  method Aont(suite: Suite, randomness: Randomness, fragments: seq<Bytes>) returns (result: seq<Bytes>)
    requires HashLaws(suite) && fragments != []
    ensures result == Transformed(suite, randomness, fragments)
  {
    hide HashLaws, XorByte, CutLike, Flatten, Masked;
    var messageLength := |Flatten(fragments)|;
    var mask := Stream(suite.shake128, randomness, messageLength);
    result := [];
    var usedLength, absorbed := 0, [];
    ghost var s := Masked(suite, randomness, Flatten(fragments));
    for i := 0 to |fragments|
      invariant usedLength == Offset(fragments, i) <= messageLength && absorbed == s[..usedLength]
      invariant result == CutLike(fragments, s)[..i]
    {
      MaskedPiece(suite, randomness, fragments, i);
      var fragment := Xor(fragments[i], mask[usedLength..]);
      usedLength := usedLength + |fragment|;
      absorbed := absorbed + fragment;
      result := result + [fragment];
    }
    OffsetAtEnd(fragments);
    assert absorbed == s;
    var t := Xor(randomness, suite.sha256(absorbed));
    result := result[0 := t + result[0]];
  }

  /** `aont_inv`. It fails on an empty list, and when the first fragment has no room for the randomness. */
  method AontInv(suite: Suite, fragments: seq<Bytes>) returns (result: Outcome<seq<Bytes>>)
    requires HashLaws(suite)
    ensures result == if fragments == [] || |fragments[0]| < KAPPA then Panicked else Done(Restored(suite, fragments))
  {
    hide HashLaws, XorByte, CutLike, Flatten, Masked;
    if fragments == [] || |fragments[0]| < KAPPA {
      return Panicked;
    }
    var t, newFragments := fragments[0][..KAPPA], fragments[0 := fragments[0][KAPPA..]];
    assert newFragments == Bodies(fragments);
    var absorbed := Flatten(newFragments);
    var randomness := Xor(t, suite.sha256(absorbed));
    assert randomness == Recovered(suite, fragments);
    var mask := Stream(suite.shake128, randomness, |absorbed|);
    var usedLength, restored := 0, [];
    for i := 0 to |newFragments|
      invariant usedLength == Offset(newFragments, i) <= |absorbed|
      invariant restored == CutLike(newFragments, Masked(suite, randomness, absorbed))[..i]
    {
      MaskedPiece(suite, randomness, newFragments, i);
      var fragment := Xor(newFragments[i], mask[usedLength..]);
      usedLength := usedLength + |fragment|;
      restored := restored + [fragment];
    }
    assert restored == Restored(suite, fragments);
    return Done(restored);
  }
}
