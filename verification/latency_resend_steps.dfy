/** PerFragment: a timer fires and its fragment goes out again under a new identifier. */
module LatencyResendSteps {
  import opened EventQueue
  import opened LatencySim
  import opened LatencyHistory
  import opened LatencyInvariant
  import opened LatencyQueues
  import opened LatencyPackets
  import opened LatencyBooks
  import opened LatencyNodeSteps
  import opened LatencyUserSteps
  import opened LatencySendSteps

  ghost predicate TimeoutOk(env: Env, w: World, u: UserId, id: nat, m: Message, now: Timestamp) {
    && BusyUser(w.s, u) && w.s.timestamp <= now && TimerAt(w.h, id, u)
    && id in w.s.users[u].originals && m == w.s.users[u].originals[id]
    && OriginalOk(env, w.s.nodes.Keys, w.h.book, u, id, m)
    && m.recipient in w.s.users
  }

  lemma TimeoutReady(env: Env, w: World, u: UserId)
    requires Turn(env, w, AtUser(u)) && Event(w.s, u).AckTimeout?
    ensures var id := Event(w.s, u).id;
            id in w.s.users[u].originals && TimeoutOk(env, w, u, id, w.s.users[u].originals[id], UserTime(w.s, u))
  {
    EventOk(env, w, u);
    var id := Event(w.s, u).id;
    assert MemoryOk(env, w.s.nodes.Keys, w.s.timestamp, w.h.book, u, w.s.users[u]);
    var m := w.s.users[u].originals[id];
    assert OriginalOk(env, w.s.nodes.Keys, w.h.book, u, id, m);
    assert SetOk(env, w.s.users.Keys, w.s.timestamp, w.h.book, m.fragmentSet);
  }

  /** The renewed packet `p` carries the fragment of `m` under identifier `newId`. */
  predicate RenewsOk(env: Env, nodes: set<NodeId>, m: Message, newId: nat, p: Packet) {
    && RouteOk(nodes, p) && Core(p).OfMessage?
    && var r := MessageOf(p);
       && r == m.(id := newId, ack := r.ack)
       && RouteOk(nodes, r.ack) && Core(r.ack) == OfAck(Ack(newId, m.sender))
  }

  function Renumbered(h: History, u: UserId, id: nat, p: Packet): History
    requires Core(p).OfMessage?
  {
    var info := Info(p);
    h.(book := h.book.(ids := h.book.ids + [info]), stage := h.stage + [Queued(u)],
       timers := h.timers - {id}, current := h.current[(info.fragmentSet, info.index) := |h.book.ids|])
  }

  ghost predicate ResendDelta(env: Env, w: World, w': World, u: UserId, id: nat, m: Message, now: Timestamp,
                              p: Packet) {
    && BusyUser(w.s, u) && SameFigures(w.s, w'.s, now)
    && RenewsOk(env, w.s.nodes.Keys, m, |w.h.book.ids|, p)
    && w'.s.users == PushEvent(Forgotten(PopEvent(w.s.users, u), u, id), u, now, Egress(p))
    && w'.s.nextMessageId == w.s.nextMessageId + 1 && w'.s.nextFragmentSet == w.s.nextFragmentSet
    && w'.h == Renumbered(w.h, u, id, p)
  }

  ghost function Forgetful(s: State, u: UserId, id: nat): State
    requires BusyUser(s, u)
  {
    var s1 := Popped(s, u);
    s1.(users := Forgotten(s1.users, u, id))
  }

  lemma RenewedOk(env: Env, s: State, u: UserId, m: Message, nodes: set<NodeId>)
    requires RangeIn(NodeRange(s), nodes) && m.sender == u
    ensures RenewsOk(env, nodes, m, s.nextMessageId, RenewedPacket(env, s, u, m))
    ensures MessageOf(RenewedPacket(env, s, u, m)) == Renewed(env, s, u, m)
  {
    BuiltPacket(env, NodeRange(s), s.cursor, OfAck(Ack(s.nextMessageId, u)), nodes);
    BuiltPacket(env, NodeRange(s), s.cursor + 2 * env.numHops, OfMessage(Renewed(env, s, u, m)), nodes);
  }

  lemma ResendHistory(env: Env, s: State, h: History, u: UserId, id: nat, m: Message)
    requires BusyUser(s, u) && env.strategy.PerFragment? && id in s.users[u].originals && m == s.users[u].originals[id]
    requires var p := RenewedPacket(env, Forgetful(s, u, id), u, m);
             Core(p).OfMessage? && MessageOf(p) == Renewed(env, Forgetful(s, u, id), u, m)
    ensures AfterTimeout(env, Popped(s, u), h, u, id)
            == Renumbered(h, u, id, RenewedPacket(env, Forgetful(s, u, id), u, m))
  {
  }

  lemma ResendChanges(env: Env, w: World, u: UserId, id: nat, m: Message)
    requires IsNext(w.s, AtUser(u)) && Event(w.s, u) == AckTimeout(id) && env.strategy.PerFragment?
    requires TimeoutOk(env, w, u, id, m, UserTime(w.s, u)) && Tally(w.s, w.h.book)
    ensures CanStep(env, w, AtUser(u))
    ensures ResendDelta(env, w, After(env, w, AtUser(u)), u, id, m, UserTime(w.s, u),
                        RenewedPacket(env, Forgetful(w.s, u, id), u, m))
  {
    var s2 := Forgetful(w.s, u, id);
    assert NodeRange(s2) == NodeRange(w.s);
    RenewedOk(env, s2, u, m, w.s.nodes.Keys);
    ResendHistory(env, w.s, w.h, u, id, m);
  }

  lemma ResendFires(env: Env, w: World, u: UserId)
    requires Turn(env, w, AtUser(u)) && Event(w.s, u).AckTimeout? && env.strategy.PerFragment?
    ensures CanStep(env, w, AtUser(u))
    ensures var id := Event(w.s, u).id;
            id in w.s.users[u].originals
            && var m := w.s.users[u].originals[id];
               ResendDelta(env, w, After(env, w, AtUser(u)), u, id, m, UserTime(w.s, u),
                           RenewedPacket(env, Forgetful(w.s, u, id), u, m))
  {
    TimeoutReady(env, w, u);
    ResendChanges(env, w, u, Event(w.s, u).id, w.s.users[u].originals[Event(w.s, u).id]);
  }

  // ---------- Queues ----------

  lemma ForgottenQueues(env: Env, now: Timestamp, nodes: Nodes, users: Users, h: History, u: UserId, id: nat)
    requires Queues(env, now, nodes, users, h) && u in users
    ensures Queues(env, now, nodes, Forgotten(users, u, id), h) && Forgotten(users, u, id).Keys == users.Keys
  {
    assert Forgotten(users, u, id).Keys == users.Keys;
    SameEventsQueues(env, now, nodes, users, Forgotten(users, u, id), h);
  }

  lemma RenumberedMessage(env: Env, nodes: set<NodeId>, h: History, u: UserId, id: nat, m: Message, p: Packet)
    requires env.strategy.PerFragment? && OriginalOk(env, nodes, h.book, u, id, m)
    requires RenewsOk(env, nodes, m, |h.book.ids|, p)
    ensures MessageOk(env, nodes, Renumbered(h, u, id, p).book, MessageOf(p)) && MessageOf(p).sender == u
  {
  }

  lemma ResendQueued(env: Env, now: Timestamp, nodes: Nodes, users: Users, h: History, u: UserId, id: nat, m: Message,
                     p: Packet)
    requires env.strategy.PerFragment? && u in users && |h.stage| == |h.book.ids|
    requires Queues(env, now, nodes, users, h.(timers := h.timers - {id}))
    requires OriginalOk(env, nodes.Keys, h.book, u, id, m) && RenewsOk(env, nodes.Keys, m, |h.book.ids|, p)
    ensures Queues(env, now, nodes, PushEvent(users, u, now, Egress(p)), Renumbered(h, u, id, p))
  {
    var h0, h' := h.(timers := h.timers - {id}), Renumbered(h, u, id, p);
    var h1 := h'.(stage := h.stage + [Finished]);
    assert Enlarges(h0, h1);
    GrowQueues(env, now, nodes, users, h0, h1);
    RenumberedMessage(env, nodes.Keys, h, u, id, m, p);
    PushEgress(env, now, nodes, users, h1, u, |h.stage|, p);
    assert (h.stage + [Finished])[|h.stage| := Queued(u)] == h'.stage;
    assert SetStage(h1, |h.stage|, Queued(u)) == h';
  }

  lemma ResendLands(env: Env, w: World, w': World, u: UserId, id: nat, m: Message, now: Timestamp, p: Packet)
    requires env.strategy.PerFragment? && |w.h.stage| == |w.h.book.ids|
    requires TimeoutOk(env, w, u, id, m, now) && ResendDelta(env, w, w', u, id, m, now, p)
    requires Queues(env, now, w.s.nodes, PopEvent(w.s.users, u), w.h.(timers := w.h.timers - {id}))
    ensures QueuesOk(env, w')
  {
    var users1 := PopEvent(w.s.users, u);
    ForgottenQueues(env, now, w.s.nodes, users1, w.h.(timers := w.h.timers - {id}), u, id);
    ResendQueued(env, now, w.s.nodes, Forgotten(users1, u, id), w.h, u, id, m, p);
  }

  // ---------- Books ----------

  lemma ResendMemory(w: World, u: UserId, id: nat, now: Timestamp, p: Packet, v: UserId)
    requires BusyUser(w.s, u) && v in w.s.users
    ensures var users' := PushEvent(Forgotten(PopEvent(w.s.users, u), u, id), u, now, Egress(p));
            && users'.Keys == w.s.users.Keys
            && users'[v].fragments == w.s.users[v].fragments && users'[v].tFirst == w.s.users[v].tFirst
            && users'[v].originals == if v == u then w.s.users[u].originals - {id} else w.s.users[v].originals
  {
  }

  lemma FewerOriginals(env: Env, nodes: set<NodeId>, now: Timestamp, book: Book, u: UserId, user: UserState,
                       user': UserState, ids: set<nat>)
    requires MemoryOk(env, nodes, now, book, u, user)
    requires user'.fragments == user.fragments && user'.tFirst == user.tFirst && user'.originals == user.originals - ids
    ensures MemoryOk(env, nodes, now, book, u, user')
  {
  }

  lemma RenumberedGrows(h: History, u: UserId, id: nat, p: Packet)
    requires Core(p).OfMessage?
    ensures Grows(h.book, Renumbered(h, u, id, p).book)
  {
  }

  lemma ResendMemories(env: Env, w: World, w': World, u: UserId, id: nat, m: Message, now: Timestamp, p: Packet)
    requires MemoriesOk(env, w.s.nodes.Keys, w.s.timestamp, w.h.book, w.s.users)
    requires ResendDelta(env, w, w', u, id, m, now, p)
    ensures MemoriesOk(env, w.s.nodes.Keys, now, w'.h.book, w'.s.users)
  {
    RenumberedGrows(w.h, u, id, p);
    forall v | v in w'.s.users
      ensures MemoryOk(env, w.s.nodes.Keys, now, w'.h.book, v, w'.s.users[v])
    {
      ResendMemory(w, u, id, now, p, v);
      GrowMemory(env, w.s.nodes.Keys, w.s.timestamp, now, w.h.book, w'.h.book, v, w.s.users[v]);
      FewerOriginals(env, w.s.nodes.Keys, now, w'.h.book, v, w.s.users[v], w'.s.users[v], if v == u then {id} else {});
    }
  }

  lemma ResendBook(env: Env, users: set<UserId>, now: Timestamp, later: Timestamp, nodes: set<NodeId>, h: History,
                   u: UserId, id: nat, m: Message, p: Packet)
    requires env.strategy.PerFragment? && BookOk(env, users, now, h.book) && now <= later
    requires OriginalOk(env, nodes, h.book, u, id, m) && RenewsOk(env, nodes, m, |h.book.ids|, p)
    ensures BookOk(env, users, later, Renumbered(h, u, id, p).book)
  {
    var book, book' := h.book, Renumbered(h, u, id, p).book;
    LaterBook(env, users, now, later, book);
    assert IdOk(env, book, m.id);
    forall k | 0 <= k < |book'.sets|
      ensures SetOk(env, users, later, book', k)
    {
      assert SetOk(env, users, later, book, k);
      assert forall i: nat :: Slot(book, k, i) ==> Slot(book', k, i);
    }
    forall i | 0 <= i < |book'.ids|
      ensures IdOk(env, book', i)
    {
      if i < |book.ids| { assert IdOk(env, book, i); }
    }
  }

  lemma ResendStages(env: Env, w: World, w': World, u: UserId, id: nat, m: Message, now: Timestamp, p: Packet)
    requires env.strategy.PerFragment? && StagesOk(env, w.s.nodes.Keys, w.h)
    requires BookOk(env, w.s.users.Keys, w.s.timestamp, w.h.book)
    requires TimeoutOk(env, w, u, id, m, now) && ResendDelta(env, w, w', u, id, m, now, p)
    ensures StagesOk(env, w.s.nodes.Keys, w'.h)
  {
    ResendBook(env, w.s.users.Keys, w.s.timestamp, now, w.s.nodes.Keys, w.h, u, id, m, p);
    forall i | 0 <= i < |w'.h.stage|
      ensures StageOk(env, w.s.nodes.Keys, w'.h, i)
    {
      assert IdOk(env, w'.h.book, i);
      if i < |w.h.stage| { assert StageOk(env, w.s.nodes.Keys, w.h, i); }
    }
  }

  lemma ResendTimers(w: World, w': World, env: Env, u: UserId, id: nat, m: Message, now: Timestamp, p: Packet)
    requires TimersOk(w.s.users, w.h.timers) && ResendDelta(env, w, w', u, id, m, now, p)
    ensures TimersOk(w'.s.users, w'.h.timers) && w'.s.users.Keys == w.s.users.Keys
  {
  }

  lemma ResendBooks(env: Env, w: World, w': World, u: UserId, id: nat, m: Message, now: Timestamp, p: Packet)
    requires env.strategy.PerFragment? && Books(env, w.s, w.h)
    requires TimeoutOk(env, w, u, id, m, now) && ResendDelta(env, w, w', u, id, m, now, p)
    ensures Books(env, w'.s, w'.h)
  {
    hide MemoriesOk, StagesOk, BookOk, TimersOk;
    ResendTimers(w, w', env, u, id, m, now, p);
    ResendMemories(env, w, w', u, id, m, now, p);
    ResendStages(env, w, w', u, id, m, now, p);
    ResendBook(env, w.s.users.Keys, w.s.timestamp, now, w.s.nodes.Keys, w.h, u, id, m, p);
    assert NodeRange(w'.s) == NodeRange(w.s);
  }

  // ---------- Liveness ----------

  lemma ResendReceived(env: Env, w: World, w': World, u: UserId, id: nat, m: Message, now: Timestamp, p: Packet,
                       k: nat, i: nat)
    requires ResendDelta(env, w, w', u, id, m, now, p)
    ensures Received(w'.s.users, w'.h.book, k, i) == Received(w.s.users, w.h.book, k, i)
  {
  }

  lemma ResendCurrent(env: Env, w: World, w': World, u: UserId, id: nat, m: Message, now: Timestamp, p: Packet, i: nat)
    requires env.strategy.PerFragment? && FragmentsLive(w.s.users, w.h) && |w.h.stage| == |w.h.book.ids|
    requires TimeoutOk(env, w, u, id, m, now) && ResendDelta(env, w, w', u, id, m, now, p)
    requires Waiting(w'.h, i)
    ensures IsCurrent(w'.h, i)
  {
    assert IsCurrent(w.h, id) by { assert Waiting(w.h, id); }
    if i < |w.h.stage| {
      assert w'.h.stage[i] == w.h.stage[i] && Waiting(w.h, i) && IsCurrent(w.h, i);
    }
  }

  lemma ResendFragment(env: Env, w: World, w': World, u: UserId, id: nat, m: Message, now: Timestamp, p: Packet,
                       k: nat, i: nat)
    requires env.strategy.PerFragment? && FragmentsLive(w.s.users, w.h) && |w.h.stage| == |w.h.book.ids|
    requires TimeoutOk(env, w, u, id, m, now) && ResendDelta(env, w, w', u, id, m, now, p)
    requires k < |w.h.book.sets| && i < w.h.book.sets[k].size
    ensures FragmentLive(w'.s.users, w'.h, k, i)
  {
    ResendReceived(env, w, w', u, id, m, now, p, k, i);
    assert FragmentLive(w.s.users, w.h, k, i);
    assert Waiting(w.h, id) && IsCurrent(w.h, id);
  }

  lemma ResendLive(env: Env, w: World, w': World, u: UserId, id: nat, m: Message, now: Timestamp, p: Packet)
    requires env.strategy.PerFragment? && FragmentsLive(w.s.users, w.h) && |w.h.stage| == |w.h.book.ids|
    requires TimeoutOk(env, w, u, id, m, now) && ResendDelta(env, w, w', u, id, m, now, p)
    ensures FragmentsLive(w'.s.users, w'.h)
  {
    forall i: nat | Waiting(w'.h, i)
      ensures IsCurrent(w'.h, i)
    {
      ResendCurrent(env, w, w', u, id, m, now, p, i);
    }
    forall k: nat, i: nat | k < |w'.h.book.sets| && i < w'.h.book.sets[k].size
      ensures FragmentLive(w'.s.users, w'.h, k, i)
    {
      ResendFragment(env, w, w', u, id, m, now, p, k, i);
    }
    forall i | 0 <= i < |w'.h.stage| && i < |w'.h.book.ids| && (w'.h.stage[i].Acking? || w'.h.stage[i].Finished?)
      ensures Received(w'.s.users, w'.h.book, w'.h.book.ids[i].fragmentSet, w'.h.book.ids[i].index)
    {
      ResendReceived(env, w, w', u, id, m, now, p, w'.h.book.ids[i].fragmentSet, w'.h.book.ids[i].index);
    }
  }

  lemma ResendKeeps(env: Env, w: World, u: UserId)
    requires Turn(env, w, AtUser(u)) && Event(w.s, u).AckTimeout? && env.strategy.PerFragment?
    ensures CanStep(env, w, AtUser(u)) && Inv(env, After(env, w, AtUser(u)))
  {
    TimeoutReady(env, w, u);
    ResendFires(env, w, u);
    PopUser(env, w.s, w.h, u);
    var id, now, w' := Event(w.s, u).id, UserTime(w.s, u), After(env, w, AtUser(u));
    var m := w.s.users[u].originals[id];
    var p := RenewedPacket(env, Forgetful(w.s, u, id), u, m);
    ResendLands(env, w, w', u, id, m, now, p);
    ResendBooks(env, w, w', u, id, m, now, p);
    ResendLive(env, w, w', u, id, m, now, p);
  }
}
