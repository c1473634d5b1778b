/** How many messages there are to send, and how many of them have been delivered when a run halts. */
module LatencyTotals {
  import opened EventQueue
  import opened LatencySim
  import opened LatencyHistory
  import opened LatencyInvariant
  import opened LatencyRuns
  import opened LatencyDelivery

  // ---------- Messages to send ----------

  /** The messages with fragments that a queue of user `u` has to send, each with its sender and size. */
  ghost function SendsOf(q: Queue<UserEvent>, u: UserId): multiset<(UserId, nat)> {
    if q == [] then multiset{}
    else
      var rest := SendsOf(q[1..], u);
      if q[0].1.SendMessage? && 0 < q[0].1.numFrags then multiset{(u, q[0].1.numFrags)} + rest else rest
  }

  lemma {:induction false} SendsOfCount(q: Queue<UserEvent>, u: UserId, v: UserId, n: nat)
    ensures SendsOf(q, u)[(v, n)] == if v == u && 0 < n then Bag(q, EventKey)[SendKey(n)] else 0
  {
    if q != [] {
      SendsOfCount(q[1..], u, v, n);
    }
  }

  ghost function AllSends(users: Users, ids: set<UserId>): multiset<(UserId, nat)>
    requires ids <= users.Keys
  {
    if ids == {} then multiset{}
    else
      var u :| u in ids;
      SendsOf(users[u].events, u) + AllSends(users, ids - {u})
  }

  lemma {:induction false} AllSendsCount(users: Users, ids: set<UserId>, v: UserId, n: nat)
    requires ids <= users.Keys
    ensures AllSends(users, ids)[(v, n)] == if v in ids && 0 < n then Sends(users, v, n) else 0
    decreases ids
  {
    if ids != {} {
      var u :| u in ids && AllSends(users, ids) == SendsOf(users[u].events, u) + AllSends(users, ids - {u});
      SendsOfCount(users[u].events, u, v, n);
      AllSendsCount(users, ids - {u}, v, n);
    }
  }

  /** The messages of all users that have at least one fragment. */
  ghost function MessagesToSend(users: Users): nat {
    |AllSends(users, users.Keys)|
  }

  // ---------- Messages taken on ----------

  /** Set `k` was built for a message with fragments, not for a retransmission. */
  predicate IsMessage(sets: seq<SetInfo>, k: nat) {
    k < |sets| && sets[k].root == k && 0 < sets[k].size
  }

  ghost function MessageRoots(sets: seq<SetInfo>): set<nat> {
    set k: nat | k < |sets| && IsMessage(sets, k)
  }

  ghost function RootPairs(sets: seq<SetInfo>): multiset<(UserId, nat)> {
    if sets == [] then multiset{}
    else
      var last := |sets| - 1;
      var rest := RootPairs(sets[..last]);
      if IsMessage(sets, last) then multiset{(sets[last].sender, sets[last].size)} + rest else rest
  }

  lemma {:induction false} RootPairsCount(sets: seq<SetInfo>, u: UserId, n: nat)
    ensures RootPairs(sets)[(u, n)] == if 0 < n then |Roots(sets, u, n)| else 0
  {
    if sets == [] {
      EmptyRoots(u, n);
    } else {
      var last := |sets| - 1;
      RootPairsCount(sets[..last], u, n);
      RootsAppend(sets[..last], sets[last], u, n);
      assert sets[..last] + [sets[last]] == sets;
    }
  }

  lemma {:induction false} RootPairsSize(sets: seq<SetInfo>)
    ensures |RootPairs(sets)| == |MessageRoots(sets)|
  {
    if sets == [] {
      assert MessageRoots(sets) == {};
    } else {
      var last := |sets| - 1;
      RootPairsSize(sets[..last]);
      var before, after := MessageRoots(sets[..last]), MessageRoots(sets);
      assert forall k: nat :: k < last ==> IsMessage(sets[..last], k) == IsMessage(sets, k);
      assert after == if IsMessage(sets, last) then before + {last} else before;
    }
  }

  /** No more messages are taken on than there were to send. */
  lemma TakenOn(env: Env, w0: World, schedule: seq<Who>, w: World)
    requires Start(w0) && Leads(env, w0, schedule, w)
    ensures |MessageRoots(w.h.book.sets)| <= MessagesToSend(w0.s.users)
  {
    hide Inv, Leads, Sends, Roots;
    StartKeeps(env, w0);
    RunKeeps(env, w0, schedule, w);
    RunUsers(env, w0, schedule, w);
    var users, sets := w0.s.users, w.h.book.sets;
    forall x: (UserId, nat)
      ensures RootPairs(sets)[x] <= AllSends(users, users.Keys)[x]
    {
      var (u, n) := x;
      AllSendsCount(users, users.Keys, u, n);
      RootPairsCount(sets, u, n);
      if u in users {
        SendsBalance(env, w0, schedule, w, u, n);
        EmptyRoots(u, n);
      } else {
        StrangersHaveNoRoots(env, w, u, n);
      }
    }
    SubMultiset(RootPairs(sets), AllSends(users, users.Keys));
    RootPairsSize(sets);
  }

  lemma SubMultiset(a: multiset<(UserId, nat)>, b: multiset<(UserId, nat)>)
    requires forall x: (UserId, nat) :: a[x] <= b[x]
    ensures |a| <= |b|
  {
    assert b == a + (b - a);
  }

  /** When a run halts, the messages there were to send are the ones that have been taken on. */
  lemma AllTakenOn(env: Env, w0: World, schedule: seq<Who>, w: World)
    requires Start(w0) && Leads(env, w0, schedule, w) && NoMoreEvents(w.s)
    ensures MessagesToSend(w0.s.users) == |MessageRoots(w.h.book.sets)|
  {
    hide Inv, Leads, RootRecorded, NoMoreEvents;
    HaltingMeansDelivered(env, w0, schedule, w);
    StartKeeps(env, w0);
    RunKeeps(env, w0, schedule, w);
    var users, sets := w0.s.users, w.h.book.sets;
    forall u, n: nat
      ensures AllSends(users, users.Keys)[(u, n)] == RootPairs(sets)[(u, n)]
    {
      AllSendsCount(users, users.Keys, u, n);
      RootPairsCount(sets, u, n);
      if u !in users { StrangersHaveNoRoots(env, w, u, n); }
    }
    assert AllSends(users, users.Keys) == RootPairs(sets) by {
      forall x: (UserId, nat)
        ensures AllSends(users, users.Keys)[x] == RootPairs(sets)[x]
      {
        assert x == (x.0, x.1);
      }
    }
    RootPairsSize(sets);
  }

  lemma StrangersHaveNoRoots(env: Env, w: World, u: UserId, n: nat)
    requires Inv(env, w) && u !in w.s.users
    ensures Roots(w.h.book.sets, u, n) == {}
  {
    forall k: nat | k < |w.h.book.sets|
      ensures !IsRoot(w.h.book.sets, k, u, n)
    {
      assert SetOk(env, w.s.users.Keys, w.s.timestamp, w.h.book, k);
    }
  }

  /** When a run halts, there are at least as many delivery times as there were messages with fragments. */
  lemma EnoughDeliveries(env: Env, w0: World, schedule: seq<Who>, w: World)
    requires Start(w0) && Leads(env, w0, schedule, w) && NoMoreEvents(w.s)
    ensures MessagesToSend(w0.s.users) <= |w.s.deliveryTimes| == |w.s.firstToLast|
  {
    hide NoMoreEvents, Leads, Inv;
    AllTakenOn(env, w0, schedule, w);
    StartKeeps(env, w0);
    RunKeeps(env, w0, schedule, w);
    var roots, recorded := MessageRoots(w.h.book.sets), RecordedRoots(w.h.book, w.h.book.records);
    forall r | r in roots
      ensures r in recorded
    {
      HaltedRoot(env, w, r);
      assert RootRecorded(w.h.book, r);
    }
    SubsetCard(roots, recorded);
    FewRoots(w.h.book, w.h.book.records);
    RecordsTally(env, w);
  }

  lemma RecordsTally(env: Env, w: World)
    requires Inv(env, w)
    ensures |w.s.deliveryTimes| == |w.s.firstToLast| == |w.h.book.records|
  {
  }
}
