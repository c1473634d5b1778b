/** Time-sorted event queues, as held by every node and every user of the simulator. */
module EventQueue {

  type Timestamp = nat

  type Queue<T> = seq<(Timestamp, T)>

  ghost predicate Sorted<T>(q: Queue<T>) {
    forall i, j :: 0 <= i < j < |q| ==> q[i].0 <= q[j].0
  }

  /** The length of the longest prefix whose entries are not later than `t`. */
  function PartitionPoint<T>(q: Queue<T>, t: Timestamp): (i: nat)
    ensures i <= |q|
    ensures forall j :: 0 <= j < i ==> q[j].0 <= t
    ensures i < |q| ==> t < q[i].0
  {
    if q == [] || t < q[0].0 then 0 else 1 + PartitionPoint(q[1..], t)
  }

  function Insert<T>(q: Queue<T>, t: Timestamp, x: T): Queue<T> {
    var i := PartitionPoint(q, t);
    q[..i] + [(t, x)] + q[i..]
  }

  /** Insertion keeps the queue sorted, and a new entry goes behind every older entry that is not later:
      entries with equal times leave the queue in the order in which they entered it. */
  lemma InsertIsStable<T>(q: Queue<T>, t: Timestamp, x: T)
    requires Sorted(q)
    ensures Sorted(Insert(q, t, x))
    ensures exists i :: 0 <= i <= |q| && Insert(q, t, x) == q[..i] + [(t, x)] + q[i..]
                        && (forall j :: 0 <= j < |q| ==> (j < i <==> q[j].0 <= t))
  {
  }

  lemma InsertMembers<T>(q: Queue<T>, t: Timestamp, x: T)
    ensures forall y :: y in Insert(q, t, x) <==> y == (t, x) || y in q
  {
  }

  /** How often each key occurs in a queue. */
  ghost function Bag<T, K>(q: Queue<T>, key: T -> K): multiset<K> {
    if q == [] then multiset{} else multiset{key(q[0].1)} + Bag(q[1..], key)
  }

  lemma {:induction false} BagConcat<T, K>(p: Queue<T>, q: Queue<T>, key: T -> K)
    ensures Bag(p + q, key) == Bag(p, key) + Bag(q, key)
  {
    if p == [] {
      assert p + q == q;
    } else {
      assert (p + q)[1..] == p[1..] + q;
      BagConcat(p[1..], q, key);
    }
  }

  lemma BagInsert<T, K>(q: Queue<T>, t: Timestamp, x: T, key: T -> K)
    ensures Bag(Insert(q, t, x), key) == Bag(q, key) + multiset{key(x)}
  {
    hide PartitionPoint;
    var i := PartitionPoint(q, t);
    assert q == q[..i] + q[i..];
    BagConcat(q[..i], q[i..], key);
    BagConcat(q[..i] + [(t, x)], q[i..], key);
    BagConcat(q[..i], [(t, x)], key);
    assert Bag([(t, x)], key) == multiset{key(x)};
  }

  lemma {:induction false} BagMember<T, K>(q: Queue<T>, key: T -> K, k: K) returns (i: nat)
    requires k in Bag(q, key)
    ensures i < |q| && key(q[i].1) == k
  {
    if key(q[0].1) == k {
      i := 0;
    } else {
      var j := BagMember(q[1..], key, k);
      i := j + 1;
    }
  }

  lemma {:induction false} MemberBag<T, K>(q: Queue<T>, key: T -> K, i: nat)
    requires i < |q|
    ensures key(q[i].1) in Bag(q, key)
  {
    if i > 0 {
      MemberBag(q[1..], key, i - 1);
    }
  }

  /** Two entries with the same key make the key occur at least twice. */
  lemma {:induction false} BagTwice<T, K>(q: Queue<T>, key: T -> K, i: nat, j: nat)
    requires i < j < |q| && key(q[i].1) == key(q[j].1)
    ensures Bag(q, key)[key(q[i].1)] >= 2
  {
    if i == 0 {
      MemberBag(q[1..], key, j - 1);
    } else {
      BagTwice(q[1..], key, i - 1, j - 1);
    }
  }

  /** The total weight of the entries of a queue. */
  ghost function Total<T>(q: Queue<T>, weight: T -> nat): nat {
    if q == [] then 0 else weight(q[0].1) + Total(q[1..], weight)
  }

  lemma {:induction false} TotalConcat<T>(p: Queue<T>, q: Queue<T>, weight: T -> nat)
    ensures Total(p + q, weight) == Total(p, weight) + Total(q, weight)
  {
    if p == [] {
      assert p + q == q;
    } else {
      assert (p + q)[1..] == p[1..] + q;
      TotalConcat(p[1..], q, weight);
    }
  }

  lemma TotalInsert<T>(q: Queue<T>, t: Timestamp, x: T, weight: T -> nat)
    ensures Total(Insert(q, t, x), weight) == Total(q, weight) + weight(x)
  {
    var i := PartitionPoint(q, t);
    assert q == q[..i] + q[i..];
    TotalConcat(q[..i], q[i..], weight);
    TotalConcat(q[..i] + [(t, x)], q[i..], weight);
    TotalConcat(q[..i], [(t, x)], weight);
    assert Total([(t, x)], weight) == weight(x);
  }
}
