/** A packet leaves its sender, or is dropped: the invariant is kept. */
module LatencyEgressSteps {
  import opened EventQueue
  import opened LatencySim
  import opened LatencyHistory
  import opened LatencyInvariant
  import opened LatencyQueues
  import opened LatencyBooks
  import opened LatencyNodeSteps
  import opened LatencyUserSteps

  ghost predicate EgressOk(env: Env, w: World, u: UserId, p: Packet, now: Timestamp) {
    && BusyUser(w.s, u) && w.s.timestamp <= now
    && RouteOk(w.s.nodes.Keys, p) && Core(p).OfMessage?
    && MessageOk(env, w.s.nodes.Keys, w.h.book, MessageOf(p)) && u == MessageOf(p).sender
    && MessageOf(p).recipient in w.s.users
    && At(w.h, MessageOf(p).id, Queued(u)) && MessageOf(p).id !in w.h.book.flights
    && (SetsTimer(env, w.s.users[u], MessageOf(p)) ==> TimerId(env, MessageOf(p)) !in w.h.timers)
    && Sorted(w.s.users[u].events)
    && (forall it :: it in w.s.users[u].events && it.1.Egress? ==> it.0 <= now)
  }

  function Flown(env: Env, book: Book, p: Packet, now: Timestamp): Book
    requires Core(p).OfMessage?
  {
    book.(flights := book.flights[MessageOf(p).id := FlightOf(env, now, p)])
  }

  function Sent(survives: bool, p: Packet): Stage {
    if survives then Relayed(p.destination) else Dropped
  }

  function TimersAfter(env: Env, users: Users, u: UserId, timers: map<nat, UserId>, m: Message): map<nat, UserId>
    requires u in users
  {
    if SetsTimer(env, users[u], m) then timers[TimerId(env, m) := u] else timers
  }

  ghost predicate EgressDelta(env: Env, w: World, w': World, u: UserId, p: Packet, now: Timestamp)
    requires EgressOk(env, w, u, p, now)
  {
    var m, survives := MessageOf(p), Survives(env, w.s.cursor, w.s.users[u]);
    && w'.s.timestamp == now && w'.s.users == Timed(env, PopEvent(w.s.users, u), u, now, p)
    && w'.s.nodes == (if survives then PushIngress(w.s.nodes, p.destination, now + p.delay, p) else w.s.nodes)
    && w'.s.nextMessageId == w.s.nextMessageId && w'.s.nextFragmentSet == w.s.nextFragmentSet
    && w'.s.deliveryTimes == w.s.deliveryTimes && w'.s.firstToLast == w.s.firstToLast
    && w'.h == SetStage(w.h, m.id, Sent(survives, p))
               .(book := Flown(env, w.h.book, p, now), timers := TimersAfter(env, w.s.users, u, w.h.timers, m))
  }

  lemma NotYetTimed(env: Env, w: World, u: UserId, m: Message)
    requires Books(env, w.s, w.h) && Live(env, w.s.users, w.h) && u in w.s.users
    requires MessageOk(env, w.s.nodes.Keys, w.h.book, m) && u == m.sender && At(w.h, m.id, Queued(u))
    requires SetsTimer(env, w.s.users[u], m)
    ensures TimerId(env, m) !in w.h.timers
  {
  }

  lemma EgressReady(env: Env, w: World, u: UserId)
    requires Turn(env, w, AtUser(u)) && Event(w.s, u).Egress?
    ensures EgressOk(env, w, u, Event(w.s, u).packet, UserTime(w.s, u))
  {
    EventOk(env, w, u);
    var p, now := Event(w.s, u).packet, UserTime(w.s, u);
    var m := MessageOf(p);
    assert StageOk(env, w.s.nodes.Keys, w.h, m.id);
    assert SetOk(env, w.s.users.Keys, w.s.timestamp, w.h.book, m.fragmentSet);
    forall it | it in w.s.users[u].events && it.1.Egress?
      ensures it.0 <= now
    {
      assert UserItemOk(env, w.s.nodes.Keys, w.s.timestamp, w.h.book, u, it);
    }
    if SetsTimer(env, w.s.users[u], m) { NotYetTimed(env, w, u, m); }
  }

  lemma EgressFires(env: Env, w: World, u: UserId)
    requires IsNext(w.s, AtUser(u)) && Event(w.s, u).Egress?
    requires EgressOk(env, w, u, Event(w.s, u).packet, UserTime(w.s, u))
    ensures CanStep(env, w, AtUser(u))
    ensures EgressDelta(env, w, After(env, w, AtUser(u)), u, Event(w.s, u).packet, UserTime(w.s, u))
  {
    hide EventQueue.Insert, Timed, IsNext;
  }

  // ---------- Queues ----------

  function Kept(users: Users, u: UserId, id: nat, m: Message): Users
    requires u in users
  {
    users[u := users[u].(originals := users[u].originals[id := m])]
  }

  lemma KeptQueues(env: Env, now: Timestamp, nodes: Nodes, users: Users, h: History, u: UserId, id: nat, m: Message)
    requires Queues(env, now, nodes, users, h) && u in users
    ensures Queues(env, now, nodes, Kept(users, u, id, m), h) && Kept(users, u, id, m).Keys == users.Keys
  {
    var kept := Kept(users, u, id, m);
    assert kept.Keys == users.Keys;
    SameEventsQueues(env, now, nodes, users, kept, h);
  }

  lemma TimerQueues(env: Env, now: Timestamp, nodes: Nodes, users: Users, h: History, u: UserId, id: nat, t: Timestamp)
    requires Queues(env, now, nodes, users, h) && u in users && id !in h.timers && now <= t
    requires env.strategy.PerFragment?
             ==> id in h.book.flights && t == h.book.flights[id].at + h.book.flights[id].timeout
    ensures Queues(env, now, nodes, PushEvent(users, u, t, AckTimeout(id)), h.(timers := h.timers[id := u]))
    ensures PushEvent(users, u, t, AckTimeout(id)).Keys == users.Keys
  {
    PushUser(env, now, nodes, users, h, u, t, AckTimeout(id));
    assert PushEvent(users, u, t, AckTimeout(id)).Keys == users.Keys;
  }

  lemma KeptTimerQueues(env: Env, now: Timestamp, nodes: Nodes, users: Users, h: History, u: UserId, id: nat,
                        m: Message, t: Timestamp)
    requires Queues(env, now, nodes, users, h) && u in users && id !in h.timers && now <= t
    requires env.strategy.PerFragment?
             ==> id in h.book.flights && t == h.book.flights[id].at + h.book.flights[id].timeout
    ensures Queues(env, now, nodes, PushEvent(Kept(users, u, id, m), u, t, AckTimeout(id)),
                   h.(timers := h.timers[id := u]))
    ensures PushEvent(Kept(users, u, id, m), u, t, AckTimeout(id)).Keys == users.Keys
  {
    KeptQueues(env, now, nodes, users, h, u, id, m);
    TimerQueues(env, now, nodes, Kept(users, u, id, m), h, u, id, t);
  }

  lemma TimedShape(env: Env, users: Users, u: UserId, now: Timestamp, p: Packet)
    requires u in users && Core(p).OfMessage?
    ensures var m := MessageOf(p);
            Timed(env, users, u, now, p)
              == if SetsTimer(env, users[u], m)
                 then PushEvent(Kept(users, u, TimerId(env, m), m), u, now + env.timeout(TotalDelay(p)),
                                AckTimeout(TimerId(env, m)))
                 else users
  {
  }

  lemma EgressTimed(env: Env, now: Timestamp, nodes: Nodes, users: Users, h: History, u: UserId, p: Packet)
    requires Queues(env, now, nodes, users, h) && u in users && Core(p).OfMessage?
    requires SetsTimer(env, users[u], MessageOf(p)) ==> TimerId(env, MessageOf(p)) !in h.timers
    requires env.strategy.PerFragment? ==>
               MessageOf(p).id in h.book.flights && h.book.flights[MessageOf(p).id] == FlightOf(env, now, p)
    ensures Queues(env, now, nodes, Timed(env, users, u, now, p),
                   h.(timers := TimersAfter(env, users, u, h.timers, MessageOf(p))))
    ensures Timed(env, users, u, now, p).Keys == users.Keys
  {
    hide PushEvent;
    var m := MessageOf(p);
    var id, t := TimerId(env, m), now + env.timeout(TotalDelay(p));
    TimedShape(env, users, u, now, p);
    var users', h' := Timed(env, users, u, now, p), h.(timers := TimersAfter(env, users, u, h.timers, m));
    if SetsTimer(env, users[u], m) {
      assert users' == PushEvent(Kept(users, u, id, m), u, t, AckTimeout(id));
      assert h' == h.(timers := h.timers[id := u]);
      KeptTimerQueues(env, now, nodes, users, h, u, id, m, t);
    } else {
      assert users' == users;
      assert h' == h;
    }
  }

  lemma SetDropped(env: Env, now: Timestamp, nodes: Nodes, users: Users, h: History, id: nat)
    requires Queues(env, now, nodes, users, h) && Idle(h, id)
    ensures Queues(env, now, nodes, users, SetStage(h, id, Dropped))
  {
    UsersKeep(users, h, id, Dropped);
    NodesKeep(env, nodes, h, id, Dropped);
  }

  lemma EgressSent(env: Env, now: Timestamp, nodes: Nodes, users: Users, h: History, p: Packet, survives: bool)
    requires Queues(env, now, nodes, users, h) && Core(p).OfMessage? && Idle(h, MessageOf(p).id)
    requires RouteOk(nodes.Keys, p) && MessageOk(env, nodes.Keys, h.book, MessageOf(p))
    requires MessageOf(p).recipient in users
    requires MessageOf(p).id in h.book.flights && h.book.flights[MessageOf(p).id] == FlightOf(env, now, p)
    ensures Queues(env, now, if survives then PushIngress(nodes, p.destination, now + p.delay, p) else nodes, users,
                   SetStage(h, MessageOf(p).id, Sent(survives, p)))
  {
    hide Queues;
    if survives {
      PushNode(env, now, nodes, users, h, p.destination, now + p.delay, p);
    } else {
      SetDropped(env, now, nodes, users, h, MessageOf(p).id);
    }
  }

  lemma EgressStages(h: History, id: nat, stage: Stage, book: Book, timers: map<nat, UserId>)
    ensures SetStage(SetStage(h, id, Finished).(book := book).(timers := timers), id, stage)
         == SetStage(h, id, stage).(book := book, timers := timers)
  {
  }

  lemma FlownGrows(env: Env, book: Book, p: Packet, now: Timestamp)
    requires Core(p).OfMessage? && MessageOf(p).id !in book.flights
    ensures Grows(book, Flown(env, book, p, now))
  {
  }

  lemma EgressLands(env: Env, w: World, w': World, u: UserId, p: Packet, now: Timestamp)
    requires EgressOk(env, w, u, p, now) && EgressDelta(env, w, w', u, p, now)
    requires Queues(env, now, w.s.nodes, PopEvent(w.s.users, u), SetStage(w.h, MessageOf(p).id, Finished))
    ensures QueuesOk(env, w')
  {
    var m, survives := MessageOf(p), Survives(env, w.s.cursor, w.s.users[u]);
    var users1 := PopEvent(w.s.users, u);
    var h1 := SetStage(w.h, m.id, Finished);
    var h2 := h1.(book := Flown(env, w.h.book, p, now));
    FlownGrows(env, w.h.book, p, now);
    GrowQueues(env, now, w.s.nodes, users1, h1, h2);
    EgressTimed(env, now, w.s.nodes, users1, h2, u, p);
    var h3 := h2.(timers := TimersAfter(env, users1, u, h2.timers, m));
    assert users1.Keys == w.s.users.Keys;
    EgressSent(env, now, w.s.nodes, w'.s.users, h3, p, survives);
    EgressStages(w.h, m.id, Sent(survives, p), h2.book, h3.timers);
  }

  lemma EgressQueues(env: Env, w: World, u: UserId)
    requires Turn(env, w, AtUser(u)) && Event(w.s, u).Egress?
    ensures CanStep(env, w, AtUser(u)) && QueuesOk(env, After(env, w, AtUser(u)))
  {
    EgressReady(env, w, u);
    EgressFires(env, w, u);
    PopUser(env, w.s, w.h, u);
    EgressLands(env, w, After(env, w, AtUser(u)), u, Event(w.s, u).packet, UserTime(w.s, u));
  }

  // ---------- Books ----------

  lemma FlownBook(env: Env, users: set<UserId>, now: Timestamp, later: Timestamp, book: Book, p: Packet)
    requires BookOk(env, users, now, book) && now <= later && Core(p).OfMessage? && MessageOf(p).id < |book.ids|
    ensures BookOk(env, users, later, Flown(env, book, p, later))
  {
    var book' := Flown(env, book, p, later);
    LaterBook(env, users, now, later, book);
    forall k | 0 <= k < |book'.sets|
      ensures SetOk(env, users, later, book', k)
    {
      assert SetOk(env, users, later, book, k);
      assert forall i: nat :: Slot(book', k, i) == Slot(book, k, i);
    }
    forall id | 0 <= id < |book'.ids|
      ensures IdOk(env, book', id)
    {
      assert IdOk(env, book, id);
    }
  }

  lemma EgressStagesOk(env: Env, w: World, w': World, u: UserId, p: Packet, now: Timestamp)
    requires StagesOk(env, w.s.nodes.Keys, w.h) && EgressOk(env, w, u, p, now) && EgressDelta(env, w, w', u, p, now)
    ensures StagesOk(env, w.s.nodes.Keys, w'.h)
  {
    forall id | 0 <= id < |w'.h.stage|
      ensures StageOk(env, w.s.nodes.Keys, w'.h, id)
    {
      assert StageOk(env, w.s.nodes.Keys, w.h, id);
    }
  }

  lemma TimedMemory(env: Env, users: Users, u: UserId, now: Timestamp, p: Packet, v: UserId)
    requires u in users && v in users && Core(p).OfMessage?
    ensures var users', m := Timed(env, users, u, now, p), MessageOf(p);
            && users'.Keys == users.Keys
            && users'[v].fragments == users[v].fragments && users'[v].tFirst == users[v].tFirst
            && users'[v].originals == if v == u && SetsTimer(env, users[u], m)
                                      then users[u].originals[TimerId(env, m) := m] else users[v].originals
  {
  }

  lemma EgressMemories(env: Env, w: World, w': World, u: UserId, p: Packet, now: Timestamp)
    requires MemoriesOk(env, w.s.nodes.Keys, w.s.timestamp, w.h.book, w.s.users)
    requires EgressOk(env, w, u, p, now) && EgressDelta(env, w, w', u, p, now)
    ensures MemoriesOk(env, w.s.nodes.Keys, now, w'.h.book, w'.s.users)
  {
    hide MemoryOk;
    FlownGrows(env, w.h.book, p, now);
    forall v | v in w'.s.users
      ensures MemoryOk(env, w.s.nodes.Keys, now, w'.h.book, v, w'.s.users[v])
    {
      TimedMemory(env, PopEvent(w.s.users, u), u, now, p, v);
      GrowMemory(env, w.s.nodes.Keys, w.s.timestamp, now, w.h.book, w'.h.book, v, w.s.users[v]);
      KeptMemory(env, w.s.nodes.Keys, now, w'.h.book, v, w.s.users[v], w'.s.users[v], TimerId(env, MessageOf(p)),
                 MessageOf(p));
    }
  }

  lemma KeptMemory(env: Env, nodes: set<NodeId>, now: Timestamp, book: Book, u: UserId, user: UserState,
                   user': UserState, k: nat, m: Message)
    requires MemoryOk(env, nodes, now, book, u, user)
    requires user'.fragments == user.fragments && user'.tFirst == user.tFirst
    requires user'.originals == user.originals
             || (user'.originals == user.originals[k := m] && OriginalOk(env, nodes, book, u, k, m))
    ensures MemoryOk(env, nodes, now, book, u, user')
  {
  }

  lemma EgressTimers(env: Env, w: World, w': World, u: UserId, p: Packet, now: Timestamp)
    requires TimersOk(w.s.users, w.h.timers) && EgressOk(env, w, u, p, now) && EgressDelta(env, w, w', u, p, now)
    ensures TimersOk(w'.s.users, w'.h.timers) && w'.s.users.Keys == w.s.users.Keys && w'.s.nodes.Keys == w.s.nodes.Keys
  {
    forall v | v in w.s.users { TimedMemory(env, PopEvent(w.s.users, u), u, now, p, v); }
    TimedMemory(env, PopEvent(w.s.users, u), u, now, p, u);
  }

  lemma EgressBooks(env: Env, w: World, w': World, u: UserId, p: Packet, now: Timestamp)
    requires Books(env, w.s, w.h) && EgressOk(env, w, u, p, now) && EgressDelta(env, w, w', u, p, now)
    ensures Books(env, w'.s, w'.h)
  {
    hide MemoriesOk, StagesOk, BookOk, TimersOk;
    EgressTimers(env, w, w', u, p, now);
    EgressMemories(env, w, w', u, p, now);
    EgressStagesOk(env, w, w', u, p, now);
    FlownBook(env, w.s.users.Keys, w.s.timestamp, now, w.h.book, p);
    assert NodeRange(w'.s) == NodeRange(w.s);
  }

  // ---------- Liveness ----------

  lemma EgressFragments(env: Env, w: World, w': World, u: UserId, p: Packet, now: Timestamp)
    requires env.strategy.PerFragment? && FragmentsLive(w.s.users, w.h)
    requires EgressOk(env, w, u, p, now) && EgressDelta(env, w, w', u, p, now)
    ensures FragmentsLive(w'.s.users, w'.h)
  {
    hide Timed;
    var id := MessageOf(p).id;
    assert forall i :: Waiting(w'.h, i) == Waiting(w.h, i);
    assert forall i :: IsCurrent(w'.h, i) == IsCurrent(w.h, i);
    forall k: nat, i: nat
      ensures Received(w'.s.users, w'.h.book, k, i) == Received(w.s.users, w.h.book, k, i)
    {
      if k < |w.h.book.sets| && w.h.book.sets[k].recipient in w.s.users {
        TimedMemory(env, PopEvent(w.s.users, u), u, now, p, w.h.book.sets[k].recipient);
      } else {
        TimedMemory(env, PopEvent(w.s.users, u), u, now, p, u);
      }
    }
    forall k: nat, i: nat | k < |w.h.book.sets| && i < w.h.book.sets[k].size
      ensures FragmentLive(w'.s.users, w'.h, k, i)
    {
      assert FragmentLive(w.s.users, w.h, k, i);
    }
  }

  /** After its egress the set of `p` is timed, or its SendMessage event has been recorded. */
  lemma EgressRoot(env: Env, w: World, w': World, u: UserId, p: Packet, now: Timestamp)
    requires env.strategy.WholeMessage? && RootsLive(w.s.users, w.h)
    requires EgressOk(env, w, u, p, now) && EgressDelta(env, w, w', u, p, now)
    ensures var k := MessageOf(p).fragmentSet; k in w'.h.timers || RootRecorded(w.h.book, w.h.book.sets[k].root)
  {
  }

  lemma FlownRecorded(env: Env, book: Book, p: Packet, now: Timestamp, r: nat)
    requires Core(p).OfMessage?
    ensures RootRecorded(Flown(env, book, p, now), r) == RootRecorded(book, r)
  {
  }

  lemma EgressPending(env: Env, w: World, w': World, u: UserId, p: Packet, now: Timestamp, k: nat)
    requires env.strategy.WholeMessage? && RootsLive(w.s.users, w.h) && k < |w.h.book.sets| && SetPending(w.h, k)
    requires EgressOk(env, w, u, p, now) && EgressDelta(env, w, w', u, p, now)
    ensures SetPending(w'.h, k) || RootRecorded(w.h.book, w.h.book.sets[k].root)
  {
    if k !in w.h.timers {
      var id: nat :| QueuedIn(w.h, id, k);
      if id == MessageOf(p).id {
        EgressRoot(env, w, w', u, p, now);
      } else {
        assert QueuedIn(w'.h, id, k);
      }
    }
  }

  lemma EgressRoots(env: Env, w: World, w': World, u: UserId, p: Packet, now: Timestamp)
    requires env.strategy.WholeMessage? && RootsLive(w.s.users, w.h)
    requires EgressOk(env, w, u, p, now) && EgressDelta(env, w, w', u, p, now)
    ensures RootsLive(w'.s.users, w'.h)
  {
    forall r | 0 <= r < |w'.h.book.sets| && w'.h.book.sets[r].root == r && 0 < w'.h.book.sets[r].size
      ensures RootRecorded(w'.h.book, r) || RootPending(w'.h, r)
    {
      FlownRecorded(env, w.h.book, p, now, r);
      if !RootRecorded(w.h.book, r) {
        var k :| 0 <= k < |w.h.book.sets| && w.h.book.sets[k].root == r && SetPending(w.h, k);
        EgressPending(env, w, w', u, p, now, k);
      }
    }
    forall v, k | v in w'.s.users && k in w'.s.users[v].originals && k < |w'.h.book.sets|
      ensures k in w'.h.timers || RootRecorded(w'.h.book, w'.h.book.sets[k].root)
    {
      FlownRecorded(env, w.h.book, p, now, w.h.book.sets[k].root);
      TimedMemory(env, PopEvent(w.s.users, u), u, now, p, u);
      TimedMemory(env, PopEvent(w.s.users, u), u, now, p, v);
    }
  }

  lemma EgressOnce(env: Env, w: World, w': World, u: UserId, p: Packet, now: Timestamp)
    requires OnceEach(w.s.users, w.h)
    requires EgressOk(env, w, u, p, now) && EgressDelta(env, w, w', u, p, now)
    ensures OnceEach(w'.s.users, w'.h)
  {
    forall v, k: nat, i: nat | k < |w'.h.book.sets| && Holds(w'.s.users, v, k, i)
      ensures SlotFinished(w'.h, k, i)
    {
      TimedMemory(env, PopEvent(w.s.users, u), u, now, p, u);
      TimedMemory(env, PopEvent(w.s.users, u), u, now, p, v);
      assert Holds(w.s.users, v, k, i) && SlotFinished(w.h, k, i);
    }
    forall k: nat, i: nat | k in w'.h.book.records && k < |w'.h.book.sets| && i < w'.h.book.sets[k].size
      ensures SlotFinished(w'.h, k, i)
    {
      assert SlotFinished(w.h, k, i);
    }
  }

  lemma EgressOrder(env: Env, w: World, w': World, u: UserId, p: Packet, now: Timestamp)
    requires EgressesFirst(w.s.users) && EgressOk(env, w, u, p, now) && EgressDelta(env, w, w', u, p, now)
    ensures EgressesFirst(w'.s.users)
  {
    hide EgressFirst, TotalDelay, Core, EventQueue.Insert;
    var q, id := w.s.users[u].events, TimerId(env, MessageOf(p));
    PopInOrder(q);
    assert forall it :: it in q[1..] ==> it in q;
    TimerInOrder(q[1..], now + env.timeout(TotalDelay(p)), id);
    InsertInOrder(q[1..], now + env.timeout(TotalDelay(p)), AckTimeout(id));
  }

  lemma EgressKeeps(env: Env, w: World, u: UserId)
    requires Turn(env, w, AtUser(u)) && Event(w.s, u).Egress?
    ensures CanStep(env, w, AtUser(u)) && Inv(env, After(env, w, AtUser(u)))
  {
    EgressReady(env, w, u);
    EgressFires(env, w, u);
    EgressQueues(env, w, u);
    var p, now, w' := Event(w.s, u).packet, UserTime(w.s, u), After(env, w, AtUser(u));
    EgressBooks(env, w, w', u, p, now);
    match env.strategy {
      case PerFragment => EgressFragments(env, w, w', u, p, now);
      case WholeMessage =>
        EgressRoots(env, w, w', u, p, now);
        EgressOnce(env, w, w', u, p, now);
        EgressOrder(env, w, w', u, p, now);
    }
  }
}
