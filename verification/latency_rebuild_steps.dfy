/** WholeMessage: a timer fires, what the recipient holds of the set is cleared, and the whole message
    goes out again as a new fragment set. */
module LatencyRebuildSteps {
  import opened EventQueue
  import opened LatencySim
  import opened LatencyHistory
  import opened LatencyInvariant
  import opened LatencyQueues
  import opened LatencyPackets
  import opened LatencyBooks
  import opened LatencyNodeSteps
  import opened LatencyUserSteps
  import opened LatencyBuilds
  import opened LatencySendSteps
  import opened LatencyResendSteps

  function ClearedUsers(users: Users, u: UserId, id: nat, m: Message): Users
    requires u in users && users[u].events != [] && m.recipient in users
  {
    Cleared(Forgotten(PopEvent(users, u), u, id), m.recipient, m.fragmentSet)
  }

  function RebuildInfo(h: History, id: nat, m: Message): SetInfo
    requires id < |h.book.sets|
  {
    SetInfo(h.book.sets[id].root, m.sender, m.recipient, m.fragmentSize, m.sendingTime, |h.book.ids|)
  }

  function Untimed(h: History, id: nat): History {
    h.(timers := h.timers - {id})
  }

  ghost predicate RebuildOk(env: Env, w: World, u: UserId, id: nat, m: Message, now: Timestamp) {
    && env.strategy.WholeMessage? && TimeoutOk(env, w, u, id, m, now) && 0 < m.fragmentSize
    && id < |w.h.book.sets| && m.fragmentSet == id && m.sendingTime <= now
    && w.h.book.sets[id].root <= id && w.h.book.sets[w.h.book.sets[id].root].root == w.h.book.sets[id].root
  }

  ghost predicate RebuildDelta(env: Env, w: World, w': World, u: UserId, id: nat, m: Message, now: Timestamp,
                               packets: seq<Packet>)
    requires RebuildOk(env, w, u, id, m, now)
  {
    && SameFigures(w.s, w'.s, now)
    && (forall p :: p in packets ==> Core(p).OfMessage?)
    && w'.s.users == PushEgresses(ClearedUsers(w.s.users, u, id, m), u, now, packets)
    && w'.s.nextMessageId == w.s.nextMessageId + m.fragmentSize && w'.s.nextFragmentSet == w.s.nextFragmentSet + 1
    && PartsOk(env, w.s.nodes.Keys, w.h.book, RebuildInfo(w.h, id, m), packets)
    && w'.h == AfterBuild(Untimed(w.h, id), u, RebuildInfo(w.h, id, m), packets)
  }

  lemma RebuildReady(env: Env, w: World, u: UserId)
    requires Turn(env, w, AtUser(u)) && Event(w.s, u).AckTimeout? && env.strategy.WholeMessage?
    ensures var id := Event(w.s, u).id;
            id in w.s.users[u].originals && RebuildOk(env, w, u, id, w.s.users[u].originals[id], UserTime(w.s, u))
  {
    TimeoutReady(env, w, u);
    var m := w.s.users[u].originals[Event(w.s, u).id];
    assert SetOk(env, w.s.users.Keys, w.s.timestamp, w.h.book, m.fragmentSet);
    assert IdOk(env, w.h.book, m.id);
  }

  ghost function RebuiltPackets(env: Env, s: State, m: Message): seq<Packet> {
    Redated(Packets(env, s, m.sender, m.recipient, m.fragmentSize), m.sendingTime)
  }

  lemma RebuiltParts(env: Env, s: State, nodes: set<NodeId>, book: Book, info: SetInfo, m: Message)
    requires RangeIn(NodeRange(s), nodes)
    requires info.base == |book.ids| == s.nextMessageId && |book.sets| == s.nextFragmentSet
    requires info.sender == m.sender && info.recipient == m.recipient && info.size == m.fragmentSize
    requires info.sendingTime == m.sendingTime
    ensures PartsOk(env, nodes, book, info, RebuiltPackets(env, s, m))
  {
    var built := Packets(env, s, m.sender, m.recipient, m.fragmentSize);
    forall i | 0 <= i < |built|
      ensures PartOk(env, nodes, book, info, i, RebuiltPackets(env, s, m)[i])
    {
      FragmentCarries(env, BatchAt(s, m.sender, m.recipient, m.fragmentSize), s.nextMessageId, s.cursor, i, nodes);
      RedatedPacket(built[i], m.sendingTime, nodes);
    }
  }

  lemma RedatedInfos(packets: seq<Packet>, t: Timestamp)
    requires forall p :: p in packets ==> Core(p).OfMessage?
    ensures forall p :: p in Redated(packets, t) ==> Core(p).OfMessage?
    ensures Infos(Redated(packets, t)) == Infos(packets)
  {
    var redated := Redated(packets, t);
    forall i | 0 <= i < |packets|
      ensures Core(redated[i]).OfMessage? && Info(redated[i]) == Info(packets[i])
    {
      RedatedPacket(packets[i], t, {});
    }
  }

  ghost function ClearedState(s: State, u: UserId, id: nat, m: Message): State
    requires BusyUser(s, u) && m.recipient in s.users
  {
    Popped(s, u).(users := ClearedUsers(s.users, u, id, m))
  }

  lemma RebuildChanges(env: Env, w: World, u: UserId, id: nat, m: Message)
    requires IsNext(w.s, AtUser(u)) && Event(w.s, u) == AckTimeout(id)
    requires RebuildOk(env, w, u, id, m, UserTime(w.s, u)) && Tally(w.s, w.h.book)
    ensures CanStep(env, w, AtUser(u))
    ensures RebuildDelta(env, w, After(env, w, AtUser(u)), u, id, m, UserTime(w.s, u),
                         RebuiltPackets(env, ClearedState(w.s, u, id, m), m))
  {
    hide BuildFragments, FragmentPacket, PushEgresses;
    var s2 := ClearedState(w.s, u, id, m);
    assert NodeRange(s2) == NodeRange(w.s) == NodeRange(Popped(w.s, u));
    RebuiltParts(env, s2, w.s.nodes.Keys, w.h.book, RebuildInfo(w.h, id, m), m);
    assert Packets(env, s2, m.sender, m.recipient, m.fragmentSize)
        == Packets(env, Popped(w.s, u), m.sender, m.recipient, m.fragmentSize);
    RedatedInfos(Packets(env, s2, m.sender, m.recipient, m.fragmentSize), m.sendingTime);
  }

  lemma RebuildTurn(env: Env, w: World, u: UserId)
    requires Turn(env, w, AtUser(u)) && Event(w.s, u).AckTimeout? && env.strategy.WholeMessage?
    ensures CanStep(env, w, AtUser(u))
    ensures var id, now := Event(w.s, u).id, UserTime(w.s, u);
            id in w.s.users[u].originals
            && var m := w.s.users[u].originals[id];
               RebuildOk(env, w, u, id, m, now)
               && RebuildDelta(env, w, After(env, w, AtUser(u)), u, id, m, now,
                               RebuiltPackets(env, ClearedState(w.s, u, id, m), m))
  {
    RebuildReady(env, w, u);
    RebuildChanges(env, w, u, Event(w.s, u).id, w.s.users[u].originals[Event(w.s, u).id]);
  }

  // ---------- Queues ----------

  lemma ClearedQueues(env: Env, now: Timestamp, nodes: Nodes, users: Users, h: History, u: UserId, id: nat, m: Message)
    requires u in users && users[u].events != [] && m.recipient in users
    requires Queues(env, now, nodes, PopEvent(users, u), h)
    ensures Queues(env, now, nodes, ClearedUsers(users, u, id, m), h)
    ensures ClearedUsers(users, u, id, m).Keys == users.Keys
  {
    assert ClearedUsers(users, u, id, m).Keys == users.Keys == PopEvent(users, u).Keys;
    SameEventsQueues(env, now, nodes, PopEvent(users, u), ClearedUsers(users, u, id, m), h);
  }

  lemma RebuildLands(env: Env, w: World, w': World, u: UserId, id: nat, m: Message, now: Timestamp,
                     packets: seq<Packet>)
    requires |w.h.stage| == |w.h.book.ids|
    requires RebuildOk(env, w, u, id, m, now) && RebuildDelta(env, w, w', u, id, m, now, packets)
    requires Queues(env, now, w.s.nodes, PopEvent(w.s.users, u), Untimed(w.h, id))
    ensures QueuesOk(env, w')
  {
    ClearedQueues(env, now, w.s.nodes, w.s.users, Untimed(w.h, id), u, id, m);
    BuildQueues(env, now, w.s.nodes, ClearedUsers(w.s.users, u, id, m), Untimed(w.h, id), u, RebuildInfo(w.h, id, m),
                packets);
  }

  // ---------- Books ----------

  lemma ClearedMemory(users: Users, u: UserId, id: nat, m: Message, v: UserId)
    requires u in users && users[u].events != [] && m.recipient in users && v in users
    ensures var users' := ClearedUsers(users, u, id, m);
            && users'.Keys == users.Keys && users'[v].tFirst == users[v].tFirst
            && users'[v].fragments
              == (if v == m.recipient then users[v].fragments - {m.fragmentSet} else users[v].fragments)
            && users'[v].originals == if v == u then users[v].originals - {id} else users[v].originals
  {
  }

  lemma ClearedMemories(env: Env, w: World, u: UserId, id: nat, m: Message, now: Timestamp)
    requires MemoriesOk(env, w.s.nodes.Keys, w.s.timestamp, w.h.book, w.s.users) && RebuildOk(env, w, u, id, m, now)
    ensures MemoriesOk(env, w.s.nodes.Keys, now, w.h.book, ClearedUsers(w.s.users, u, id, m))
  {
    var users' := ClearedUsers(w.s.users, u, id, m);
    forall v | v in users'
      ensures MemoryOk(env, w.s.nodes.Keys, now, w.h.book, v, users'[v])
    {
      ClearedMemory(w.s.users, u, id, m, v);
      GrowMemory(env, w.s.nodes.Keys, w.s.timestamp, now, w.h.book, w.h.book, v, w.s.users[v]);
      forall j | j in users'[v].fragments
        ensures FragmentsOk(w.h.book, v, users'[v], j)
      {
        assert FragmentsOk(w.h.book, v, w.s.users[v], j);
      }
    }
  }

  lemma RebuildMemories(env: Env, w: World, w': World, u: UserId, id: nat, m: Message, now: Timestamp,
                        packets: seq<Packet>)
    requires MemoriesOk(env, w.s.nodes.Keys, w.s.timestamp, w.h.book, w.s.users)
    requires RebuildOk(env, w, u, id, m, now) && RebuildDelta(env, w, w', u, id, m, now, packets)
    ensures MemoriesOk(env, w.s.nodes.Keys, now, w'.h.book, w'.s.users)
  {
    ClearedMemories(env, w, u, id, m, now);
    BuildMemories(env, w.s.nodes.Keys, now, ClearedUsers(w.s.users, u, id, m), Untimed(w.h, id), u,
                  RebuildInfo(w.h, id, m), packets);
  }

  /** What the users remember afterwards. */
  lemma RebuildMemory(env: Env, w: World, w': World, u: UserId, id: nat, m: Message, now: Timestamp,
                      packets: seq<Packet>, v: UserId)
    requires RebuildOk(env, w, u, id, m, now) && RebuildDelta(env, w, w', u, id, m, now, packets) && v in w.s.users
    ensures w'.s.users.Keys == w.s.users.Keys
    ensures w'.s.users[v].originals == if v == u then w.s.users[v].originals - {id} else w.s.users[v].originals
    ensures w'.s.users[v].fragments
         == if v == m.recipient then w.s.users[v].fragments - {m.fragmentSet} else w.s.users[v].fragments
  {
    ClearedMemory(w.s.users, u, id, m, v);
    PushEgressesMemory(ClearedUsers(w.s.users, u, id, m), u, now, packets);
  }

  lemma RebuildTimers(env: Env, w: World, w': World, u: UserId, id: nat, m: Message, now: Timestamp,
                      packets: seq<Packet>)
    requires TimersOk(w.s.users, w.h.timers) && RebuildOk(env, w, u, id, m, now)
    requires RebuildDelta(env, w, w', u, id, m, now, packets)
    ensures TimersOk(w'.s.users, w'.h.timers) && w'.s.users.Keys == w.s.users.Keys
  {
    RebuildMemory(env, w, w', u, id, m, now, packets, u);
    forall v | v in w.s.users { RebuildMemory(env, w, w', u, id, m, now, packets, v); }
  }

  lemma UntimedStages(env: Env, nodes: set<NodeId>, h: History, id: nat)
    requires StagesOk(env, nodes, h)
    ensures StagesOk(env, nodes, Untimed(h, id))
  {
    forall i | 0 <= i < |h.stage|
      ensures StageOk(env, nodes, Untimed(h, id), i)
    {
      assert StageOk(env, nodes, h, i);
    }
  }

  lemma RebuildBook(env: Env, w: World, w': World, u: UserId, id: nat, m: Message, now: Timestamp, packets: seq<Packet>)
    requires BookOk(env, w.s.users.Keys, w.s.timestamp, w.h.book) && StagesOk(env, w.s.nodes.Keys, w.h)
    requires RebuildOk(env, w, u, id, m, now) && RebuildDelta(env, w, w', u, id, m, now, packets)
    ensures BookOk(env, w.s.users.Keys, now, w'.h.book) && StagesOk(env, w.s.nodes.Keys, w'.h)
  {
    var h1, info := Untimed(w.h, id), RebuildInfo(w.h, id, m);
    LaterBook(env, w.s.users.Keys, w.s.timestamp, now, w.h.book);
    UntimedStages(env, w.s.nodes.Keys, w.h, id);
    assert m.sender in w.s.users;
    BuildBook(env, w.s.nodes.Keys, w.s.users.Keys, now, h1, u, info, packets);
    BuildStages(env, w.s.nodes.Keys, w.s.users.Keys, now, h1, u, info, packets);
  }

  lemma RebuildTally(env: Env, w: World, w': World, u: UserId, id: nat, m: Message, now: Timestamp,
                     packets: seq<Packet>)
    requires Tally(w.s, w.h.book) && w'.s.users.Keys == w.s.users.Keys
    requires RebuildOk(env, w, u, id, m, now) && RebuildDelta(env, w, w', u, id, m, now, packets)
    ensures Tally(w'.s, w'.h.book)
  {
  }

  lemma RebuildBooks(env: Env, w: World, w': World, u: UserId, id: nat, m: Message, now: Timestamp,
                     packets: seq<Packet>)
    requires Books(env, w.s, w.h)
    requires RebuildOk(env, w, u, id, m, now) && RebuildDelta(env, w, w', u, id, m, now, packets)
    ensures Books(env, w'.s, w'.h)
  {
    RebuildTimers(env, w, w', u, id, m, now, packets);
    RebuildTally(env, w, w', u, id, m, now, packets);
    RebuildMemories(env, w, w', u, id, m, now, packets);
    RebuildBook(env, w, w', u, id, m, now, packets);
  }

  // ---------- Liveness ----------

  lemma OriginalOwner(env: Env, w: World, v: UserId, k: nat)
    requires MemoriesOk(env, w.s.nodes.Keys, w.s.timestamp, w.h.book, w.s.users) && env.strategy.WholeMessage?
    requires v in w.s.users && k in w.s.users[v].originals
    ensures k < |w.h.book.sets| && w.h.book.sets[k].sender == v
  {
  }

  lemma ClearedRoots(env: Env, w: World, u: UserId, id: nat, m: Message, now: Timestamp)
    requires RootsLive(w.s.users, w.h) && RebuildOk(env, w, u, id, m, now)
    requires MemoriesOk(env, w.s.nodes.Keys, w.s.timestamp, w.h.book, w.s.users)
    ensures RootsLiveBut(ClearedUsers(w.s.users, u, id, m), Untimed(w.h, id), w.h.book.sets[id].root)
  {
    hide MemoriesOk;
    var users', h' := ClearedUsers(w.s.users, u, id, m), Untimed(w.h, id);
    forall r | 0 <= r < |w.h.book.sets| && w.h.book.sets[r].root == r && 0 < w.h.book.sets[r].size
      && r != w.h.book.sets[id].root
      ensures RootRecorded(w.h.book, r) || RootPending(h', r)
    {
      if !RootRecorded(w.h.book, r) {
        var k :| 0 <= k < |w.h.book.sets| && w.h.book.sets[k].root == r && SetPending(w.h, k);
        StillPending(w.h, h', k);
      }
    }
    forall v, k | v in users' && k in users'[v].originals && k < |w.h.book.sets|
      ensures k in h'.timers || RootRecorded(w.h.book, w.h.book.sets[k].root)
    {
      ClearedMemory(w.s.users, u, id, m, v);
      OriginalOwner(env, w, v, k);
      OriginalOwner(env, w, u, id);
    }
  }

  lemma ClearedKnown(env: Env, w: World, u: UserId, id: nat, m: Message, now: Timestamp)
    requires RebuildOk(env, w, u, id, m, now)
    requires MemoriesOk(env, w.s.nodes.Keys, w.s.timestamp, w.h.book, w.s.users)
    ensures var users := ClearedUsers(w.s.users, u, id, m);
            forall v, k :: v in users && k in users[v].originals ==> k < |w.h.book.sets|
  {
    forall v, k | v in ClearedUsers(w.s.users, u, id, m) && k in ClearedUsers(w.s.users, u, id, m)[v].originals
      ensures k < |w.h.book.sets|
    {
      ClearedMemory(w.s.users, u, id, m, v);
      OriginalOwner(env, w, v, k);
    }
  }

  lemma RebuildRoots(env: Env, w: World, w': World, u: UserId, id: nat, m: Message, now: Timestamp,
                     packets: seq<Packet>)
    requires RootsLive(w.s.users, w.h) && |w.h.stage| == |w.h.book.ids|
    requires RebuildOk(env, w, u, id, m, now) && RebuildDelta(env, w, w', u, id, m, now, packets)
    requires MemoriesOk(env, w.s.nodes.Keys, w.s.timestamp, w.h.book, w.s.users)
    ensures RootsLive(w'.s.users, w'.h)
  {
    var users1 := ClearedUsers(w.s.users, u, id, m);
    ClearedRoots(env, w, u, id, m, now);
    ClearedKnown(env, w, u, id, m, now);
    ClearedMemory(w.s.users, u, id, m, u);
    PushEgressesMemory(users1, u, now, packets);
    BuildRoots(env, w.s.nodes.Keys, users1, w'.s.users, Untimed(w.h, id), u, RebuildInfo(w.h, id, m), packets);
  }

  lemma RebuildHolds(env: Env, w: World, w': World, u: UserId, id: nat, m: Message, now: Timestamp,
                     packets: seq<Packet>)
    requires RebuildOk(env, w, u, id, m, now) && RebuildDelta(env, w, w', u, id, m, now, packets)
    ensures w'.s.users.Keys == w.s.users.Keys
    ensures forall v, k: nat, i: nat :: Holds(w'.s.users, v, k, i) ==> Holds(w.s.users, v, k, i)
  {
  }

  lemma RebuildOnce(env: Env, w: World, w': World, u: UserId, id: nat, m: Message, now: Timestamp, packets: seq<Packet>)
    requires OnceEach(w.s.users, w.h) && BookOk(env, w.s.users.Keys, w.s.timestamp, w.h.book)
    requires MemoriesOk(env, w.s.nodes.Keys, w.s.timestamp, w.h.book, w.s.users)
    requires RebuildOk(env, w, u, id, m, now) && RebuildDelta(env, w, w', u, id, m, now, packets)
    ensures OnceEach(w'.s.users, w'.h)
  {
    FragmentsKnown(env, w);
    RebuildHolds(env, w, w', u, id, m, now, packets);
    UntimedOnce(w.s.users, w.h, id);
    BuildOnce(env, w.s.users, w'.s.users, w.s.timestamp, Untimed(w.h, id), u, RebuildInfo(w.h, id, m), packets);
  }

  lemma UntimedOnce(users: Users, h: History, id: nat)
    requires OnceEach(users, h)
    ensures OnceEach(users, Untimed(h, id))
  {
    assert forall k: nat, i: nat :: k < |h.book.sets| && SlotFinished(h, k, i) ==> SlotFinished(Untimed(h, id), k, i);
  }

  lemma ClearedEvents(users: Users, u: UserId, id: nat, m: Message)
    requires u in users && users[u].events != [] && m.recipient in users
    ensures SameEvents(PopEvent(users, u), ClearedUsers(users, u, id, m))
  {
  }

  lemma RebuildOrder(env: Env, w: World, w': World, u: UserId, id: nat, m: Message, now: Timestamp,
                     packets: seq<Packet>)
    requires RebuildOk(env, w, u, id, m, now)
    requires EgressesFirst(w.s.users) && NoTimer(w.s.users[u].events, |w.h.book.sets|) && Sorted(w.s.users[u].events)
    requires RebuildDelta(env, w, w', u, id, m, now, packets)
    ensures EgressesFirst(w'.s.users)
  {
    ClearedEvents(w.s.users, u, id, m);
    BuildOrder(env, w, u, now, ClearedUsers(w.s.users, u, id, m), RebuildInfo(w.h, id, m), packets);
  }

  lemma RebuildKeeps(env: Env, w: World, u: UserId)
    requires Turn(env, w, AtUser(u)) && Event(w.s, u).AckTimeout? && env.strategy.WholeMessage?
    ensures CanStep(env, w, AtUser(u)) && Inv(env, After(env, w, AtUser(u)))
  {
    RebuildReady(env, w, u);
    var id, now := Event(w.s, u).id, UserTime(w.s, u);
    var m := w.s.users[u].originals[id];
    RebuildChanges(env, w, u, id, m);
    PopUser(env, w.s, w.h, u);
    var w', packets := After(env, w, AtUser(u)), RebuiltPackets(env, ClearedState(w.s, u, id, m), m);
    RebuildLands(env, w, w', u, id, m, now, packets);
    RebuildBooks(env, w, w', u, id, m, now, packets);
    RebuildRoots(env, w, w', u, id, m, now, packets);
    RebuildOnce(env, w, w', u, id, m, now, packets);
    TimersKnown(env, w, u);
    RebuildOrder(env, w, w', u, id, m, now, packets);
  }
}
