/** A fragment set is built and queued at its sender: what this does to queues, books and liveness. */
module LatencyBuilds {
  import opened EventQueue
  import opened LatencySim
  import opened LatencyHistory
  import opened LatencyInvariant
  import opened LatencyQueues
  import opened LatencyBooks
  import opened LatencyUserSteps

  /** `p` carries fragment `i` of the set that `info` describes. */
  predicate PartOk(env: Env, nodes: set<NodeId>, book: Book, info: SetInfo, i: nat, p: Packet) {
    && RouteOk(nodes, p) && Core(p).OfMessage?
    && var m := MessageOf(p);
       && m.id == info.base + i && m.sendingTime == info.sendingTime
       && m.recipient == info.recipient && m.sender == info.sender
       && m.fragmentSet == |book.sets| && m.fragmentSize == info.size && m.fragmentIndex == i
       && RouteOk(nodes, m.ack) && Core(m.ack) == OfAck(Ack(TimerId(env, m), m.sender))
  }

  ghost predicate PartsOk(env: Env, nodes: set<NodeId>, book: Book, info: SetInfo, packets: seq<Packet>) {
    && info.base == |book.ids| && |packets| == info.size
    && (forall i :: 0 <= i < |packets| ==> PartOk(env, nodes, book, info, i, packets[i]))
  }

  lemma PartsCarry(env: Env, nodes: set<NodeId>, book: Book, info: SetInfo, packets: seq<Packet>)
    requires PartsOk(env, nodes, book, info, packets)
    ensures forall p :: p in packets ==> Core(p).OfMessage?
  {
  }

  // ---------- Queues ----------

  function AllIdle(n: nat): (r: seq<Stage>)
    ensures |r| == n
  {
    seq(n, _ => Finished)
  }

  lemma BuildQueues(env: Env, now: Timestamp, nodes: Nodes, users: Users, h: History, u: UserId, info: SetInfo,
                    packets: seq<Packet>)
    requires Queues(env, now, nodes, users, h) && u in users && info.sender == u && |h.stage| == |h.book.ids|
    requires PartsOk(env, nodes.Keys, h.book, info, packets)
    ensures forall p :: p in packets ==> Core(p).OfMessage?
    ensures Queues(env, now, nodes, PushEgresses(users, u, now, packets), AfterBuild(h, u, info, packets))
  {
    PartsCarry(env, nodes.Keys, h.book, info, packets);
    var h' := AfterBuild(h, u, info, packets);
    var h1 := h'.(stage := h.stage + AllIdle(|packets|));
    BuildIdle(h, h', h1, |packets|);
    GrowQueues(env, now, nodes, users, h, h1);
    BuildBatch(env, now, nodes.Keys, h, h1, u, info, packets);
    PushBatch(env, now, nodes, users, h1, u, info.base, packets);
    assert BatchQueued(h1, u, info.base, |packets|).stage == h'.stage;
    assert BatchQueued(h1, u, info.base, |packets|) == h';
  }

  lemma BuildIdle(h: History, h': History, h1: History, n: nat)
    requires Grows(h.book, h'.book) && h'.timers == h.timers && h1 == h'.(stage := h.stage + AllIdle(n))
    ensures Enlarges(h, h1)
  {
  }

  lemma BuildBatch(env: Env, now: Timestamp, nodes: set<NodeId>, h: History, h1: History, u: UserId, info: SetInfo,
                   packets: seq<Packet>)
    requires PartsOk(env, nodes, h.book, info, packets) && info.sender == u && |h.stage| == |h.book.ids|
    requires forall p :: p in packets ==> Core(p).OfMessage?
    requires h1 == AfterBuild(h, u, info, packets).(stage := h.stage + AllIdle(|packets|))
    ensures BatchOk(env, now, nodes, h1, u, info.base, packets)
  {
  }

  // ---------- Books ----------

  ghost predicate InfoOk(env: Env, users: set<UserId>, now: Timestamp, book: Book, info: SetInfo) {
    && info.sender in users && info.recipient in users && info.sendingTime <= now
    && (info.root == |book.sets| || (info.root < |book.sets| && book.sets[info.root].root == info.root))
    && (env.strategy.PerFragment? ==> info.root == |book.sets|)
  }

  lemma BuildBook(env: Env, nodes: set<NodeId>, users: set<UserId>, now: Timestamp, h: History, u: UserId,
                  info: SetInfo, packets: seq<Packet>)
    requires BookOk(env, users, now, h.book) && InfoOk(env, users, now, h.book, info)
    requires PartsOk(env, nodes, h.book, info, packets)
    requires forall p :: p in packets ==> Core(p).OfMessage?
    ensures BookOk(env, users, now, AfterBuild(h, u, info, packets).book)
  {
    var book, book' := h.book, AfterBuild(h, u, info, packets).book;
    forall k | 0 <= k < |book'.sets|
      ensures SetOk(env, users, now, book', k)
    {
      if k < |book.sets| {
        assert SetOk(env, users, now, book, k);
        assert forall i: nat :: Slot(book, k, i) ==> Slot(book', k, i);
      } else {
        forall i: nat | i < info.size
          ensures Slot(book', k, i)
        {
          BuildId(env, nodes, h, u, info, packets, i);
        }
      }
    }
    forall id | 0 <= id < |book'.ids|
      ensures IdOk(env, book', id)
    {
      if id < |book.ids| {
        assert IdOk(env, book, id);
      } else {
        BuildId(env, nodes, h, u, info, packets, id - |book.ids|);
      }
    }
  }

  lemma BuildId(env: Env, nodes: set<NodeId>, h: History, u: UserId, info: SetInfo, packets: seq<Packet>, i: nat)
    requires PartsOk(env, nodes, h.book, info, packets) && i < |packets|
    requires forall p :: p in packets ==> Core(p).OfMessage?
    ensures var book' := AfterBuild(h, u, info, packets).book;
            book'.ids[info.base + i].fragmentSet == |h.book.sets| && book'.ids[info.base + i].index == i
  {
  }

  lemma BuildStages(env: Env, nodes: set<NodeId>, users: set<UserId>, now: Timestamp, h: History, u: UserId,
                    info: SetInfo, packets: seq<Packet>)
    requires StagesOk(env, nodes, h) && BookOk(env, users, now, h.book) && info.sender == u
    requires PartsOk(env, nodes, h.book, info, packets)
    requires forall p :: p in packets ==> Core(p).OfMessage?
    requires BookOk(env, users, now, AfterBuild(h, u, info, packets).book)
    ensures StagesOk(env, nodes, AfterBuild(h, u, info, packets))
  {
    var h' := AfterBuild(h, u, info, packets);
    forall id | 0 <= id < |h'.stage|
      ensures StageOk(env, nodes, h', id)
    {
      assert IdOk(env, h'.book, id);
      if id < |h.stage| {
        assert StageOk(env, nodes, h, id);
        assert h'.stage[id] == h.stage[id];
      } else {
        BuildId(env, nodes, h, u, info, packets, id - |h.stage|);
        assert h'.stage[id] == AllQueued(u, |packets|)[id - |h.stage|];
      }
    }
  }

  lemma {:induction false} PushEgressesMemory(users: Users, u: UserId, now: Timestamp, packets: seq<Packet>)
    requires u in users
    ensures SameMemories(users, PushEgresses(users, u, now, packets))
  {
  }

  lemma BuildMemories(env: Env, nodes: set<NodeId>, now: Timestamp, users: Users, h: History, u: UserId, info: SetInfo,
                      packets: seq<Packet>)
    requires MemoriesOk(env, nodes, now, h.book, users) && u in users
    requires forall p :: p in packets ==> Core(p).OfMessage?
    ensures MemoriesOk(env, nodes, now, AfterBuild(h, u, info, packets).book, PushEgresses(users, u, now, packets))
  {
    PushEgressesMemory(users, u, now, packets);
    var book', users' := AfterBuild(h, u, info, packets).book, PushEgresses(users, u, now, packets);
    forall v | v in users'
      ensures MemoryOk(env, nodes, now, book', v, users'[v])
    {
      GrowMemory(env, nodes, now, now, h.book, book', v, users[v]);
      LaterMemory(env, nodes, now, now, book', v, users[v], users'[v]);
    }
  }

  // ---------- Liveness ----------

  lemma StagedId(env: Env, nodes: set<NodeId>, h: History, id: nat)
    requires StagesOk(env, nodes, h) && id < |h.stage|
    ensures IdOk(env, h.book, id)
  {
    assert StageOk(env, nodes, h, id);
  }

  lemma BuildWaiting(env: Env, nodes: set<NodeId>, users: Users, h: History, u: UserId, info: SetInfo,
                     packets: seq<Packet>, id: nat)
    requires FragmentsLive(users, h) && StagesOk(env, nodes, h) && PartsOk(env, nodes, h.book, info, packets)
    requires forall p :: p in packets ==> Core(p).OfMessage?
    requires Waiting(AfterBuild(h, u, info, packets), id)
    ensures IsCurrent(AfterBuild(h, u, info, packets), id)
  {
    hide StageOk, TotalDelay, Core;
    var h' := AfterBuild(h, u, info, packets);
    if id < |h.stage| {
      assert h'.stage[id] == h.stage[id] && Waiting(h, id) && IsCurrent(h, id);
      StagedId(env, nodes, h, id);
    } else {
      BuildId(env, nodes, h, u, info, packets, id - |h.stage|);
    }
  }

  lemma OldFragmentLive(users: Users, users': Users, h: History, u: UserId, info: SetInfo, packets: seq<Packet>,
                        k: nat, i: nat)
    requires FragmentsLive(users, h) && SameMemories(users, users') && |h.stage| == |h.book.ids|
    requires forall p :: p in packets ==> Core(p).OfMessage?
    requires k < |h.book.sets| && i < h.book.sets[k].size
    ensures FragmentLive(users', AfterBuild(h, u, info, packets), k, i)
  {
    hide Core, Infos, AllQueued;
    assert FragmentLive(users, h, k, i);
  }

  lemma NewFragmentLive(env: Env, nodes: set<NodeId>, users: Users, h: History, u: UserId, info: SetInfo,
                        packets: seq<Packet>, i: nat)
    requires PartsOk(env, nodes, h.book, info, packets) && |h.stage| == |h.book.ids| && i < info.size
    requires forall p :: p in packets ==> Core(p).OfMessage?
    ensures FragmentLive(users, AfterBuild(h, u, info, packets), |h.book.sets|, i)
  {
    hide PartOk, Core, Infos;
    BuildId(env, nodes, h, u, info, packets, i);
    assert AfterBuild(h, u, info, packets).stage[info.base + i] == AllQueued(u, |packets|)[i];
  }

  lemma BuildFragmentLive(env: Env, nodes: set<NodeId>, users: Users, users': Users, h: History, u: UserId,
                          info: SetInfo, packets: seq<Packet>, k: nat, i: nat)
    requires env.strategy.PerFragment? && FragmentsLive(users, h) && SameMemories(users, users')
    requires StagesOk(env, nodes, h) && PartsOk(env, nodes, h.book, info, packets)
    requires forall p :: p in packets ==> Core(p).OfMessage?
    requires k < |AfterBuild(h, u, info, packets).book.sets| && i < AfterBuild(h, u, info, packets).book.sets[k].size
    ensures FragmentLive(users', AfterBuild(h, u, info, packets), k, i)
  {
    hide StageOk, Core, Infos, FragmentLive, FragmentsLive, SameMemories, PartsOk;
    if k < |h.book.sets| {
      OldFragmentLive(users, users', h, u, info, packets, k, i);
    } else {
      NewFragmentLive(env, nodes, users', h, u, info, packets, i);
    }
  }

  lemma BuildFragmentsLive(env: Env, nodes: set<NodeId>, users: Users, users': Users, h: History, u: UserId,
                           info: SetInfo, packets: seq<Packet>)
    requires env.strategy.PerFragment? && FragmentsLive(users, h) && SameMemories(users, users')
    requires StagesOk(env, nodes, h) && PartsOk(env, nodes, h.book, info, packets)
    requires forall p :: p in packets ==> Core(p).OfMessage?
    ensures FragmentsLive(users', AfterBuild(h, u, info, packets))
  {
    hide StageOk, TotalDelay, Core;
    var h' := AfterBuild(h, u, info, packets);
    forall id: nat | Waiting(h', id)
      ensures IsCurrent(h', id)
    {
      BuildWaiting(env, nodes, users, h, u, info, packets, id);
    }
    forall k: nat, i: nat | k < |h'.book.sets| && i < h'.book.sets[k].size
      ensures FragmentLive(users', h', k, i)
    {
      BuildFragmentLive(env, nodes, users, users', h, u, info, packets, k, i);
    }
    assert forall id :: |h.stage| <= id < |h'.stage| ==> h'.stage[id] == Queued(u);
  }

  /** As RootsLive, but for the SendMessage event with root `x` nothing is said. */
  ghost predicate RootsLiveBut(users: Users, h: History, x: nat) {
    && (forall r :: 0 <= r < |h.book.sets| && h.book.sets[r].root == r && 0 < h.book.sets[r].size && r != x ==>
          RootRecorded(h.book, r) || RootPending(h, r))
    && (forall u, k :: u in users && k in users[u].originals && k < |h.book.sets| ==>
          k in h.timers || RootRecorded(h.book, h.book.sets[k].root))
  }

  lemma BuildPending(h: History, u: UserId, info: SetInfo, packets: seq<Packet>, r: nat)
    requires RootPending(h, r) && forall p :: p in packets ==> Core(p).OfMessage?
    ensures RootPending(AfterBuild(h, u, info, packets), r)
  {
    var h' := AfterBuild(h, u, info, packets);
    var k :| 0 <= k < |h.book.sets| && h.book.sets[k].root == r && SetPending(h, k);
    if k !in h.timers {
      var id: nat :| QueuedIn(h, id, k);
      assert QueuedIn(h', id, k);
    }
    assert SetPending(h', k);
  }

  lemma BuildRoots(env: Env, nodes: set<NodeId>, users: Users, users': Users, h: History, u: UserId, info: SetInfo,
                   packets: seq<Packet>)
    requires RootsLiveBut(users, h, info.root) && SameMemories(users, users') && |h.stage| == |h.book.ids|
    requires info.size > 0 || info.root == |h.book.sets|
    requires PartsOk(env, nodes, h.book, info, packets)
    requires forall v, k :: v in users && k in users[v].originals ==> k < |h.book.sets|
    requires forall p :: p in packets ==> Core(p).OfMessage?
    ensures RootsLive(users', AfterBuild(h, u, info, packets))
  {
    var h' := AfterBuild(h, u, info, packets);
    forall r | 0 <= r < |h'.book.sets| && h'.book.sets[r].root == r && 0 < h'.book.sets[r].size
      ensures RootRecorded(h'.book, r) || RootPending(h', r)
    {
      if r == info.root {
        BuildId(env, nodes, h, u, info, packets, 0);
        assert h'.stage[info.base] == AllQueued(u, |packets|)[0];
        assert QueuedIn(h', info.base, |h.book.sets|);
        assert SetPending(h', |h.book.sets|);
      } else if RootRecorded(h.book, r) {
        StillRecorded(h.book, h'.book, r);
      } else {
        BuildPending(h, u, info, packets, r);
      }
    }
    forall v, k | v in users' && k in users'[v].originals && k < |h'.book.sets|
      ensures k in h'.timers || RootRecorded(h'.book, h'.book.sets[k].root)
    {
      assert k in users[v].originals;
      if k !in h.timers { StillRecorded(h.book, h'.book, h.book.sets[k].root); }
    }
  }

  lemma BuildOnce(env: Env, users: Users, users': Users, now: Timestamp, h: History, u: UserId, info: SetInfo,
                  packets: seq<Packet>)
    requires OnceEach(users, h) && BookOk(env, users.Keys, now, h.book)
    requires users'.Keys == users.Keys
    requires forall v, k: nat, i: nat :: Holds(users', v, k, i) ==> Holds(users, v, k, i) && k < |h.book.sets|
    requires forall p :: p in packets ==> Core(p).OfMessage?
    ensures OnceEach(users', AfterBuild(h, u, info, packets))
  {
    var h' := AfterBuild(h, u, info, packets);
    assert forall k: nat, i: nat :: k < |h.book.sets| && SlotFinished(h, k, i) ==> SlotFinished(h', k, i);
    forall v, k: nat, i: nat | k < |h'.book.sets| && Holds(users', v, k, i)
      ensures SlotFinished(h', k, i)
    {
      assert Holds(users, v, k, i) && SlotFinished(h, k, i);
    }
    forall k: nat, i: nat | k in h'.book.records && k < |h'.book.sets| && i < h'.book.sets[k].size
      ensures SlotFinished(h', k, i)
    {
      assert k < |h.book.sets|;
      assert SlotFinished(h, k, i);
    }
  }

  // ---------- The order of egresses and timers ----------

  ghost predicate NoTimer(q: Queue<UserEvent>, k: nat) {
    forall it :: it in q && it.1.AckTimeout? ==> it.1.id != k
  }

  lemma {:induction false} EgressesInOrder(q: Queue<UserEvent>, t: Timestamp, packets: seq<Packet>, k: nat)
    requires EgressFirst(q) && Sorted(q) && NoTimer(q, k)
    requires forall p :: p in packets ==> Core(p).OfMessage? && MessageOf(p).fragmentSet == k
    ensures EgressFirst(InsertEgresses(q, t, packets))
    decreases |packets|
  {
    if packets != [] {
      var p := packets[0];
      assert p in packets && forall r :: r in packets[1..] ==> r in packets;
      InsertInOrder(q, t, Egress(p));
      InsertIsStable(q, t, Egress(p));
      InsertMembers(q, t, Egress(p));
      EgressesInOrder(Insert(q, t, Egress(p)), t, packets[1..], k);
    }
  }

  /** Every timer in a queue is armed. */
  lemma QueuedTimer(users: Users, h: History, u: UserId, it: (Timestamp, UserEvent))
    requires UsersConserved(users, h) && u in users && it in users[u].events && it.1.AckTimeout?
    ensures TimerAt(h, it.1.id, u)
  {
    var i :| 0 <= i < |users[u].events| && users[u].events[i] == it;
    MemberBag(users[u].events, EventKey, i);
    assert UserBag(users, u)[TimerKey(it.1.id)] == One(TimerAt(h, it.1.id, u));
  }
}
