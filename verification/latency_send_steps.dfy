/** A user builds packets, for a new message or because a timer has fired: the invariant is kept. */
module LatencySendSteps {
  import opened EventQueue
  import opened LatencySim
  import opened LatencyHistory
  import opened LatencyInvariant
  import opened LatencyQueues
  import opened LatencyPackets
  import opened LatencyBooks
  import opened LatencyNodeSteps
  import opened LatencyUserSteps
  import opened LatencyBuilds

  ghost predicate SameFigures(s: State, s': State, now: Timestamp) {
    && s.timestamp <= now && s'.timestamp == now && s'.nodes == s.nodes
    && s'.deliveryTimes == s.deliveryTimes && s'.firstToLast == s.firstToLast
  }

  lemma BuiltParts(env: Env, s: State, nodes: set<NodeId>, book: Book, info: SetInfo)
    requires RangeIn(NodeRange(s), nodes)
    requires info.base == |book.ids| == s.nextMessageId && |book.sets| == s.nextFragmentSet
    requires info.sendingTime == s.timestamp
    ensures PartsOk(env, nodes, book, info, Packets(env, s, info.sender, info.recipient, info.size))
  {
    var packets := Packets(env, s, info.sender, info.recipient, info.size);
    forall i | 0 <= i < |packets|
      ensures PartOk(env, nodes, book, info, i, packets[i])
    {
      FragmentCarries(env, BatchAt(s, info.sender, info.recipient, info.size), s.nextMessageId, s.cursor, i, nodes);
    }
  }

  // ---------- SendMessage ----------

  function SendInfo(h: History, u: UserId, n: nat, now: Timestamp): SetInfo {
    SetInfo(|h.book.sets|, u, 1, n, now, |h.book.ids|)
  }

  ghost predicate SendDelta(env: Env, w: World, w': World, u: UserId, n: nat, now: Timestamp, packets: seq<Packet>) {
    && BusyUser(w.s, u) && SameFigures(w.s, w'.s, now)
    && (forall p :: p in packets ==> Core(p).OfMessage?)
    && w'.s.users == PushEgresses(PopEvent(w.s.users, u), u, now, packets)
    && w'.s.nextMessageId == w.s.nextMessageId + n && w'.s.nextFragmentSet == w.s.nextFragmentSet + 1
    && PartsOk(env, w.s.nodes.Keys, w.h.book, SendInfo(w.h, u, n, now), packets)
    && w'.h == AfterBuild(w.h, u, SendInfo(w.h, u, n, now), packets)
  }

  ghost function SentPackets(env: Env, s: State, u: UserId, n: nat): seq<Packet>
    requires BusyUser(s, u)
  {
    Packets(env, Popped(s, u), u, 1, n)
  }

  lemma SendFires(env: Env, w: World, u: UserId)
    requires Turn(env, w, AtUser(u)) && Event(w.s, u).SendMessage?
    ensures CanStep(env, w, AtUser(u))
    ensures var n := Event(w.s, u).numFrags;
            SendDelta(env, w, After(env, w, AtUser(u)), u, n, UserTime(w.s, u), SentPackets(env, w.s, u, n))
  {
    hide Queues, Live, BuildFragments;
    EventOk(env, w, u);
    var n, now := Event(w.s, u).numFrags, UserTime(w.s, u);
    var s1 := Popped(w.s, u);
    assert NodeRange(s1) == NodeRange(w.s);
    BuiltParts(env, s1, w.s.nodes.Keys, w.h.book, SendInfo(w.h, u, n, now));
  }

  lemma SendQueues(env: Env, w: World, u: UserId)
    requires Turn(env, w, AtUser(u)) && Event(w.s, u).SendMessage?
    ensures CanStep(env, w, AtUser(u)) && QueuesOk(env, After(env, w, AtUser(u)))
  {
    SendFires(env, w, u);
    PopUser(env, w.s, w.h, u);
    var n, now := Event(w.s, u).numFrags, UserTime(w.s, u);
    BuildQueues(env, now, w.s.nodes, PopEvent(w.s.users, u), w.h, u, SendInfo(w.h, u, n, now),
                SentPackets(env, w.s, u, n));
  }

  lemma PoppedMemory(users: Users, u: UserId)
    requires u in users && users[u].events != []
    ensures SameMemories(users, PopEvent(users, u))
  {
  }

  lemma SendMemory(w: World, w': World, u: UserId, now: Timestamp, packets: seq<Packet>)
    requires BusyUser(w.s, u) && w'.s.users == PushEgresses(PopEvent(w.s.users, u), u, now, packets)
    ensures SameMemories(w.s.users, w'.s.users)
  {
  }

  lemma SendBooks(env: Env, w: World, w': World, u: UserId, n: nat, now: Timestamp, packets: seq<Packet>)
    requires Books(env, w.s, w.h) && SendDelta(env, w, w', u, n, now, packets)
    ensures Books(env, w'.s, w'.h)
  {
    var info, users1 := SendInfo(w.h, u, n, now), PopEvent(w.s.users, u);
    SendMemory(w, w', u, now, packets);
    LaterBook(env, w.s.users.Keys, w.s.timestamp, now, w.h.book);
    BuildBook(env, w.s.nodes.Keys, w.s.users.Keys, now, w.h, u, info, packets);
    BuildStages(env, w.s.nodes.Keys, w.s.users.Keys, now, w.h, u, info, packets);
    SendMemories(env, w, w', u, n, now, packets);
    assert NodeRange(w'.s) == NodeRange(w.s);
  }

  lemma SendMemories(env: Env, w: World, w': World, u: UserId, n: nat, now: Timestamp, packets: seq<Packet>)
    requires MemoriesOk(env, w.s.nodes.Keys, w.s.timestamp, w.h.book, w.s.users)
    requires SendDelta(env, w, w', u, n, now, packets)
    ensures MemoriesOk(env, w'.s.nodes.Keys, now, w'.h.book, w'.s.users)
  {
    var users1 := PopEvent(w.s.users, u);
    PoppedMemory(w.s.users, u);
    forall v | v in users1
      ensures MemoryOk(env, w.s.nodes.Keys, now, w.h.book, v, users1[v])
    {
      LaterMemory(env, w.s.nodes.Keys, w.s.timestamp, now, w.h.book, v, w.s.users[v], users1[v]);
    }
    BuildMemories(env, w.s.nodes.Keys, now, users1, w.h, u, SendInfo(w.h, u, n, now), packets);
  }

  lemma TimersKnown(env: Env, w: World, u: UserId)
    requires Books(env, w.s, w.h) && UsersConserved(w.s.users, w.h) && u in w.s.users && env.strategy.WholeMessage?
    ensures NoTimer(w.s.users[u].events, |w.h.book.sets|)
  {
    forall it | it in w.s.users[u].events && it.1.AckTimeout?
      ensures it.1.id != |w.h.book.sets|
    {
      QueuedTimer(w.s.users, w.h, u, it);
      TimerOwner(env, w, it.1.id);
    }
  }

  lemma PartsSet(env: Env, nodes: set<NodeId>, book: Book, info: SetInfo, packets: seq<Packet>)
    requires PartsOk(env, nodes, book, info, packets)
    ensures forall p :: p in packets ==> Core(p).OfMessage? && MessageOf(p).fragmentSet == |book.sets|
  {
  }

  /** Fragments of a new set queue up behind whatever the user still has to do. */
  lemma BuildOrder(env: Env, w: World, u: UserId, now: Timestamp, users1: Users, info: SetInfo, packets: seq<Packet>)
    requires EgressesFirst(w.s.users) && BusyUser(w.s, u) && Sorted(w.s.users[u].events)
    requires NoTimer(w.s.users[u].events, |w.h.book.sets|)
    requires SameEvents(PopEvent(w.s.users, u), users1)
    requires PartsOk(env, w.s.nodes.Keys, w.h.book, info, packets)
    ensures EgressesFirst(PushEgresses(users1, u, now, packets))
  {
    var q := w.s.users[u].events;
    PopInOrder(q);
    PartsSet(env, w.s.nodes.Keys, w.h.book, info, packets);
    assert Sorted(q[1..]) && forall it :: it in q[1..] ==> it in q;
    assert users1[u].events == q[1..];
    EgressesInOrder(q[1..], now, packets, |w.h.book.sets|);
  }

  lemma OriginalsKnown(env: Env, w: World)
    requires MemoriesOk(env, w.s.nodes.Keys, w.s.timestamp, w.h.book, w.s.users) && env.strategy.WholeMessage?
    ensures forall v, k :: v in w.s.users && k in w.s.users[v].originals ==> k < |w.h.book.sets|
  {
  }

  lemma FragmentsKnown(env: Env, w: World)
    requires MemoriesOk(env, w.s.nodes.Keys, w.s.timestamp, w.h.book, w.s.users)
    ensures forall v, k: nat, i: nat :: Holds(w.s.users, v, k, i) ==> k < |w.h.book.sets|
  {
  }

  lemma SendOnce(env: Env, w: World, w': World, u: UserId, n: nat, now: Timestamp, packets: seq<Packet>)
    requires OnceEach(w.s.users, w.h) && Books(env, w.s, w.h) && SendDelta(env, w, w', u, n, now, packets)
    ensures OnceEach(w'.s.users, w'.h)
  {
    FragmentsKnown(env, w);
    SendMemory(w, w', u, now, packets);
    BuildOnce(env, w.s.users, w'.s.users, w.s.timestamp, w.h, u, SendInfo(w.h, u, n, now), packets);
  }

  lemma SendLive(env: Env, w: World, w': World, u: UserId, n: nat, now: Timestamp, packets: seq<Packet>)
    requires Live(env, w.s.users, w.h) && Books(env, w.s, w.h) && QueuesOk(env, w)
    requires SendDelta(env, w, w', u, n, now, packets)
    ensures Live(env, w'.s.users, w'.h)
  {
    var info := SendInfo(w.h, u, n, now);
    SendMemory(w, w', u, now, packets);
    match env.strategy {
      case PerFragment => BuildFragmentsLive(env, w.s.nodes.Keys, w.s.users, w'.s.users, w.h, u, info, packets);
      case WholeMessage =>
        OriginalsKnown(env, w);
        BuildRoots(env, w.s.nodes.Keys, w.s.users, w'.s.users, w.h, u, info, packets);
        SendOnce(env, w, w', u, n, now, packets);
        TimersKnown(env, w, u);
        BuildOrder(env, w, u, now, PopEvent(w.s.users, u), info, packets);
    }
  }

  lemma SendKeeps(env: Env, w: World, u: UserId)
    requires Turn(env, w, AtUser(u)) && Event(w.s, u).SendMessage?
    ensures CanStep(env, w, AtUser(u)) && Inv(env, After(env, w, AtUser(u)))
  {
    SendFires(env, w, u);
    SendQueues(env, w, u);
    var n, now, w' := Event(w.s, u).numFrags, UserTime(w.s, u), After(env, w, AtUser(u));
    var packets := SentPackets(env, w.s, u, n);
    SendBooks(env, w, w', u, n, now, packets);
    SendLive(env, w, w', u, n, now, packets);
  }
}
