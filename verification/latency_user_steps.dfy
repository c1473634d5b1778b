/** A message is handed over to its recipient, or leaves its sender: both keep the invariant. */
module LatencyUserSteps {
  import opened EventQueue
  import opened LatencySim
  import opened LatencyHistory
  import opened LatencyInvariant
  import opened LatencyQueues
  import opened LatencyBooks
  import opened LatencyNodeSteps

  ghost function Event(s: State, u: UserId): UserEvent
    requires BusyUser(s, u)
  {
    s.users[u].events[0].1
  }

  lemma EventOk(env: Env, w: World, u: UserId)
    requires Turn(env, w, AtUser(u))
    ensures w.s.timestamp <= UserTime(w.s, u)
    ensures UserItemOk(env, w.s.nodes.Keys, UserTime(w.s, u), w.h.book, u, (UserTime(w.s, u), Event(w.s, u)))
    ensures WasThere(w.h, u, Event(w.s, u))
  {
    PopUser(env, w.s, w.h, u);
  }

  lemma SetStageTwice(h: History, id: nat, a: Stage, b: Stage, book: Book)
    ensures SetStage(SetStage(h, id, a).(book := book), id, b) == SetStage(h, id, b).(book := book)
  {
  }

  // ---------- Handover: what changes ----------

  function Recorded(book: Book, complete: bool, k: nat): Book {
    if complete then book.(records := book.records + [k]) else book
  }

  function MarkedAt(users: Users, u: UserId, m: Message, now: Timestamp): Users
    requires u in users && users[u].events != []
  {
    var users1 := PopEvent(users, u);
    users1[u := Marked(users1[u], m, now)]
  }

  ghost predicate HandoverOk(env: Env, w: World, u: UserId, m: Message, now: Timestamp) {
    && BusyUser(w.s, u) && w.s.timestamp <= now
    && MessageOk(env, w.s.nodes.Keys, w.h.book, m) && u == m.recipient
    && m.id in w.h.book.flights && now == HandoverTime(w.h.book.flights[m.id])
    && At(w.h, m.id, Arrived(u))
    && m.sendingTime <= now
    && (m.fragmentSet in w.s.users[u].tFirst ==> m.sendingTime <= w.s.users[u].tFirst[m.fragmentSet] <= now)
  }

  /** Is the set of `m` complete now that `m` has come? */
  predicate Completes(users: Users, u: UserId, m: Message, now: Timestamp)
    requires u in users && users[u].events != []
  {
    Complete(MarkedAt(users, u, m, now)[u], m)
  }

  ghost predicate HandoverDelta(env: Env, w: World, w': World, u: UserId, m: Message, now: Timestamp)
    requires HandoverOk(env, w, u, m, now)
  {
    var complete := Completes(w.s.users, u, m, now);
    && w'.s.timestamp == now && w'.s.users == MarkedAt(w.s.users, u, m, now)
    && w'.s.nodes.Keys == w.s.nodes.Keys
    && w'.s.nextMessageId == w.s.nextMessageId && w'.s.nextFragmentSet == w.s.nextFragmentSet
    && w'.h == SetStage(w.h, m.id, if env.strategy.PerFragment? then Acking(m.ack.destination) else Finished)
               .(book := Recorded(w.h.book, complete, m.fragmentSet))
    && (!complete ==> w'.s.deliveryTimes == w.s.deliveryTimes && w'.s.firstToLast == w.s.firstToLast)
    && (complete ==>
          && w'.s.deliveryTimes == w.s.deliveryTimes + [now - m.sendingTime]
          && w'.s.users[u].tFirst[m.fragmentSet] <= now
          && w'.s.firstToLast == w.s.firstToLast + [now - w'.s.users[u].tFirst[m.fragmentSet]])
  }

  lemma HandoverReady(env: Env, w: World, u: UserId)
    requires Turn(env, w, AtUser(u)) && Event(w.s, u).Handover?
    ensures HandoverOk(env, w, u, Event(w.s, u).message, UserTime(w.s, u))
  {
    EventOk(env, w, u);
    var m := Event(w.s, u).message;
    assert SetOk(env, w.s.users.Keys, w.s.timestamp, w.h.book, m.fragmentSet);
    assert MemoryOk(env, w.s.nodes.Keys, w.s.timestamp, w.h.book, u, w.s.users[u]);
    if m.fragmentSet in w.s.users[u].tFirst {
      assert FirstOk(w.s.timestamp, w.h.book, m.fragmentSet, w.s.users[u].tFirst[m.fragmentSet]);
    }
  }

  lemma HandoverResult(env: Env, s: State, u: UserId, m: Message)
    requires u in s.users && m.ack.destination in s.nodes && m.sendingTime <= s.timestamp
    requires m.fragmentSet in s.users[u].tFirst ==> s.users[u].tFirst[m.fragmentSet] <= s.timestamp
    ensures OnHandover(env, s, u, m).Stepped?
    ensures var user, s' := Marked(s.users[u], m, s.timestamp), OnHandover(env, s, u, m).state;
            var complete := Complete(user, m);
            && s'.users == s.users[u := user] && s'.timestamp == s.timestamp
            && s'.nodes == (if env.strategy.PerFragment? || complete
                            then PushIngress(s.nodes, m.ack.destination, s.timestamp + m.ack.delay, m.ack) else s.nodes)
            && s'.nextMessageId == s.nextMessageId && s'.nextFragmentSet == s.nextFragmentSet
            && s'.deliveryTimes == s.deliveryTimes + (if complete then [s.timestamp - m.sendingTime] else [])
            && user.tFirst[m.fragmentSet] <= s.timestamp
            && s'.firstToLast == s.firstToLast + if complete then [s.timestamp - user.tFirst[m.fragmentSet]] else []
  {
    hide EventQueue.Insert;
    assert s.deliveryTimes + [] == s.deliveryTimes && s.firstToLast + [] == s.firstToLast;
  }

  lemma HandoverFires(env: Env, w: World, u: UserId)
    requires IsNext(w.s, AtUser(u)) && Event(w.s, u).Handover?
    requires HandoverOk(env, w, u, Event(w.s, u).message, UserTime(w.s, u))
    ensures CanStep(env, w, AtUser(u))
    ensures HandoverDelta(env, w, After(env, w, AtUser(u)), u, Event(w.s, u).message, UserTime(w.s, u))
    ensures HandoverNodes(env, w, After(env, w, AtUser(u)), u, Event(w.s, u).message, UserTime(w.s, u))
  {
    hide OnHandover, Marked, Complete;
    HandoverResult(env, Popped(w.s, u), u, Event(w.s, u).message);
  }

  // ---------- Handover: queues ----------

  lemma AckItem(env: Env, nodes: set<NodeId>, users: set<UserId>, book: Book, m: Message, now: Timestamp)
    requires MessageOk(env, nodes, book, m) && m.sender in users
    requires m.id in book.flights && now == HandoverTime(book.flights[m.id])
    requires env.strategy.WholeMessage? ==> m.fragmentSet in book.records
    ensures NodeItemOk(env, nodes, users, book, (now + m.ack.delay, m.ack))
  {
  }

  lemma HandoverPopped(env: Env, w: World, u: UserId)
    requires Turn(env, w, AtUser(u)) && Event(w.s, u).Handover?
    ensures var m, now := Event(w.s, u).message, UserTime(w.s, u);
            && Queues(env, now, w.s.nodes, PopEvent(w.s.users, u), SetStage(w.h, m.id, Finished))
            && m.fragmentSet < |w.h.book.sets| && m.sender in w.s.users
  {
    PopUser(env, w.s, w.h, u);
    var m := Event(w.s, u).message;
    assert SetOk(env, w.s.users.Keys, w.s.timestamp, w.h.book, m.fragmentSet);
  }

  lemma MarkedEvents(users: Users, u: UserId, m: Message, now: Timestamp)
    requires u in users && users[u].events != []
    ensures SameEvents(PopEvent(users, u), MarkedAt(users, u, m, now))
    ensures MarkedAt(users, u, m, now).Keys == users.Keys == PopEvent(users, u).Keys
  {
  }

  lemma HandoverMarked(env: Env, now: Timestamp, nodes: Nodes, users: Users, h: History, u: UserId, m: Message,
                       complete: bool)
    requires u in users && users[u].events != [] && Queues(env, now, nodes, PopEvent(users, u), h)
    ensures Queues(env, now, nodes, MarkedAt(users, u, m, now), h.(book := Recorded(h.book, complete, m.fragmentSet)))
    ensures MarkedAt(users, u, m, now).Keys == users.Keys
  {
    hide Queues, MarkedAt, PopEvent, SameEvents;
    var users1, users2 := PopEvent(users, u), MarkedAt(users, u, m, now);
    MarkedEvents(users, u, m, now);
    SameEventsQueues(env, now, nodes, users1, users2, h);
    GrowQueues(env, now, nodes, users2, h, h.(book := Recorded(h.book, complete, m.fragmentSet)));
  }

  lemma HandoverAcked(env: Env, now: Timestamp, nodes: Nodes, users: Users, h: History, m: Message)
    requires Queues(env, now, nodes, users, h) && Idle(h, m.id) && m.sender in users
    requires MessageOk(env, nodes.Keys, h.book, m)
    requires m.id in h.book.flights && now == HandoverTime(h.book.flights[m.id])
    requires env.strategy.WholeMessage? ==> m.fragmentSet in h.book.records
    ensures Queues(env, now, PushIngress(nodes, m.ack.destination, now + m.ack.delay, m.ack), users,
                   if env.strategy.PerFragment? then SetStage(h, m.id, Acking(m.ack.destination)) else h)
  {
    AckItem(env, nodes.Keys, users.Keys, h.book, m, now);
    PushNode(env, now, nodes, users, h, m.ack.destination, now + m.ack.delay, m.ack);
  }

  lemma HandoverChain(env: Env, now: Timestamp, nodes: Nodes, users: Users, h: History, u: UserId, m: Message,
                      complete: bool)
    requires u in users && users[u].events != []
    requires Queues(env, now, nodes, PopEvent(users, u), SetStage(h, m.id, Finished)) && m.id < |h.stage|
    requires MessageOk(env, nodes.Keys, h.book, m) && m.sender in users
    requires m.id in h.book.flights && now == HandoverTime(h.book.flights[m.id])
    ensures m.ack.destination in nodes
    ensures var nodes' := if env.strategy.PerFragment? || complete
                          then PushIngress(nodes, m.ack.destination, now + m.ack.delay, m.ack) else nodes;
            Queues(env, now, nodes', MarkedAt(users, u, m, now),
                   SetStage(h, m.id, if env.strategy.PerFragment? then Acking(m.ack.destination) else Finished)
                   .(book := Recorded(h.book, complete, m.fragmentSet)))
  {
    var h1 := SetStage(h, m.id, Finished);
    HandoverMarked(env, now, nodes, users, h1, u, m, complete);
    SetStageTwice(h, m.id, Finished, Acking(m.ack.destination), Recorded(h.book, complete, m.fragmentSet));
    if env.strategy.PerFragment? || complete {
      HandoverAcked(env, now, nodes, MarkedAt(users, u, m, now),
                    h1.(book := Recorded(h.book, complete, m.fragmentSet)), m);
    }
  }

  ghost predicate HandoverNodes(env: Env, w: World, w': World, u: UserId, m: Message, now: Timestamp)
    requires HandoverOk(env, w, u, m, now)
  {
    w'.s.nodes == if env.strategy.PerFragment? || Completes(w.s.users, u, m, now)
                  then PushIngress(w.s.nodes, m.ack.destination, now + m.ack.delay, m.ack) else w.s.nodes
  }

  lemma HandoverLands(env: Env, w: World, w': World, u: UserId, m: Message, now: Timestamp)
    requires HandoverOk(env, w, u, m, now) && HandoverDelta(env, w, w', u, m, now)
    requires HandoverNodes(env, w, w', u, m, now)
    requires Queues(env, now, w.s.nodes, PopEvent(w.s.users, u), SetStage(w.h, m.id, Finished)) && m.sender in w.s.users
    ensures QueuesOk(env, w')
  {
    HandoverChain(env, now, w.s.nodes, w.s.users, w.h, u, m, Completes(w.s.users, u, m, now));
  }

  lemma HandoverQueues(env: Env, w: World, u: UserId)
    requires Turn(env, w, AtUser(u)) && Event(w.s, u).Handover?
    ensures CanStep(env, w, AtUser(u)) && QueuesOk(env, After(env, w, AtUser(u)))
  {
    HandoverReady(env, w, u);
    HandoverFires(env, w, u);
    HandoverPopped(env, w, u);
    HandoverLands(env, w, After(env, w, AtUser(u)), u, Event(w.s, u).message, UserTime(w.s, u));
  }

  // ---------- Handover: books ----------

  lemma GrowMemory(env: Env, nodes: set<NodeId>, now: Timestamp, later: Timestamp, book: Book, book': Book, u: UserId,
                   user: UserState)
    requires MemoryOk(env, nodes, now, book, u, user) && now <= later && Grows(book, book')
    ensures MemoryOk(env, nodes, later, book', u, user)
  {
  }

  lemma MarkedMemory(env: Env, nodes: set<NodeId>, now: Timestamp, book: Book, u: UserId, user: UserState, m: Message)
    requires MemoryOk(env, nodes, now, book, u, user) && MessageOk(env, nodes, book, m) && m.recipient == u
    requires m.fragmentIndex < m.fragmentSize && m.sendingTime <= now
    requires Complete(Marked(user, m, now), m) ==> m.fragmentSet in book.records
    ensures MemoryOk(env, nodes, now, book, u, Marked(user, m, now))
  {
    var user' := Marked(user, m, now);
    forall k | k in user'.fragments
      ensures FragmentsOk(book, u, user', k)
    {
      if k in user.fragments { assert FragmentsOk(book, u, user, k); }
    }
    forall k | k in user'.tFirst
      ensures FirstOk(now, book, k, user'.tFirst[k])
    {
      if k in user.tFirst { assert FirstOk(now, book, k, user.tFirst[k]); }
    }
  }

  lemma RecordedBook(env: Env, users: set<UserId>, now: Timestamp, later: Timestamp, book: Book, complete: bool, k: nat)
    requires BookOk(env, users, now, book) && now <= later && k < |book.sets|
    ensures BookOk(env, users, later, Recorded(book, complete, k)) && Grows(book, Recorded(book, complete, k))
  {
    var book' := Recorded(book, complete, k);
    LaterBook(env, users, now, later, book);
    forall j | 0 <= j < |book'.sets|
      ensures SetOk(env, users, later, book', j)
    {
      assert SetOk(env, users, later, book, j);
      assert forall i: nat :: Slot(book', j, i) == Slot(book, j, i);
    }
    forall id | 0 <= id < |book'.ids|
      ensures IdOk(env, book', id)
    {
      assert IdOk(env, book, id);
    }
  }

  lemma HandoverMemories(env: Env, w: World, w': World, u: UserId, m: Message, now: Timestamp)
    requires Books(env, w.s, w.h) && HandoverOk(env, w, u, m, now) && HandoverDelta(env, w, w', u, m, now)
    ensures MemoriesOk(env, w'.s.nodes.Keys, now, w'.h.book, w'.s.users)
  {
    hide Marked;
    RecordedBook(env, w.s.users.Keys, w.s.timestamp, now, w.h.book, Completes(w.s.users, u, m, now), m.fragmentSet);
    assert IdOk(env, w.h.book, m.id);
    forall v | v in w'.s.users
      ensures MemoryOk(env, w'.s.nodes.Keys, now, w'.h.book, v, w'.s.users[v])
    {
      assert MemoryOk(env, w.s.nodes.Keys, w.s.timestamp, w.h.book, v, w.s.users[v]);
      GrowMemory(env, w.s.nodes.Keys, w.s.timestamp, now, w.h.book, w'.h.book, v, w.s.users[v]);
      if v == u {
        var popped := PopEvent(w.s.users, u)[u];
        LaterMemory(env, w.s.nodes.Keys, now, now, w'.h.book, u, w.s.users[u], popped);
        MarkedMemory(env, w.s.nodes.Keys, now, w'.h.book, u, popped, m);
      }
    }
  }

  lemma HandoverStages(env: Env, w: World, w': World, u: UserId, m: Message, now: Timestamp)
    requires StagesOk(env, w.s.nodes.Keys, w.h) && HandoverOk(env, w, u, m, now) && HandoverDelta(env, w, w', u, m, now)
    ensures StagesOk(env, w'.s.nodes.Keys, w'.h)
  {
    var stage := if env.strategy.PerFragment? then Acking(m.ack.destination) else Finished;
    StageChange(env, w.s.nodes.Keys, w.h, m.id, stage);
    forall id | 0 <= id < |w'.h.stage|
      ensures StageOk(env, w'.s.nodes.Keys, w'.h, id)
    {
      assert StageOk(env, w.s.nodes.Keys, SetStage(w.h, m.id, stage), id);
    }
  }

  lemma HandoverTally(env: Env, w: World, w': World, u: UserId, m: Message, now: Timestamp)
    requires Tally(w.s, w.h.book) && HandoverOk(env, w, u, m, now) && HandoverDelta(env, w, w', u, m, now)
    ensures Tally(w'.s, w'.h.book)
  {
  }

  lemma HandoverTimers(users: Users, timers: map<nat, UserId>, u: UserId, m: Message, now: Timestamp)
    requires TimersOk(users, timers) && u in users && users[u].events != []
    ensures TimersOk(MarkedAt(users, u, m, now), timers)
  {
  }

  lemma HandoverBooks(env: Env, w: World, w': World, u: UserId, m: Message, now: Timestamp)
    requires Books(env, w.s, w.h) && HandoverOk(env, w, u, m, now) && HandoverDelta(env, w, w', u, m, now)
    ensures Books(env, w'.s, w'.h)
  {
    hide Tally, MemoriesOk, StagesOk, BookOk, TimersOk;
    HandoverTally(env, w, w', u, m, now);
    HandoverStages(env, w, w', u, m, now);
    HandoverMemories(env, w, w', u, m, now);
    assert w'.s.users.Keys == w.s.users.Keys;
    RecordedBook(env, w.s.users.Keys, w.s.timestamp, now, w.h.book, Completes(w.s.users, u, m, now), m.fragmentSet);
    HandoverTimers(w.s.users, w.h.timers, u, m, now);
  }

  // ---------- Handover: liveness ----------

  lemma StillReceived(users: Users, u: UserId, m: Message, now: Timestamp, book: Book, book': Book, k: nat, i: nat)
    requires u in users && users[u].events != [] && Received(users, book, k, i) && book.sets <= book'.sets
    ensures Received(MarkedAt(users, u, m, now), book', k, i)
  {
  }

  lemma HandoverFragments(env: Env, w: World, w': World, u: UserId, m: Message, now: Timestamp)
    requires env.strategy.PerFragment? && FragmentsLive(w.s.users, w.h)
    requires HandoverOk(env, w, u, m, now) && HandoverDelta(env, w, w', u, m, now)
    ensures FragmentsLive(w'.s.users, w'.h)
  {
    assert forall i :: Waiting(w'.h, i) == Waiting(w.h, i);
    assert forall i :: IsCurrent(w'.h, i) == IsCurrent(w.h, i);
    forall k: nat, i: nat | k < |w.h.book.sets| && i < w.h.book.sets[k].size
      ensures FragmentLive(w'.s.users, w'.h, k, i)
    {
      assert FragmentLive(w.s.users, w.h, k, i);
      if Received(w.s.users, w.h.book, k, i) {
        StillReceived(w.s.users, u, m, now, w.h.book, w'.h.book, k, i);
      }
    }
    forall id | 0 <= id < |w'.h.stage| && id < |w'.h.book.ids| && (w'.h.stage[id].Acking? || w'.h.stage[id].Finished?)
      ensures Received(w'.s.users, w'.h.book, w'.h.book.ids[id].fragmentSet, w'.h.book.ids[id].index)
    {
      if id != m.id {
        StillReceived(w.s.users, u, m, now, w.h.book, w'.h.book, w.h.book.ids[id].fragmentSet, w.h.book.ids[id].index);
      }
    }
  }

  lemma StillRecorded(book: Book, book': Book, r: nat)
    requires RootRecorded(book, r) && Grows(book, book')
    ensures RootRecorded(book', r)
  {
  }

  lemma HandoverPending(h: History, h': History, id: nat, stage: Stage, k: nat)
    requires SetPending(h, k) && id < |h.stage| && !h.stage[id].Queued? && !stage.Queued?
    requires h'.stage == h.stage[id := stage] && h'.timers == h.timers && h'.book.ids == h.book.ids
    ensures SetPending(h', k)
  {
    if k !in h.timers {
      var j: nat :| QueuedIn(h, j, k);
      assert QueuedIn(h', j, k);
    }
  }

  lemma HandoverRoot(env: Env, w: World, w': World, u: UserId, m: Message, now: Timestamp, r: nat)
    requires env.strategy.WholeMessage? && RootsLive(w.s.users, w.h)
    requires HandoverOk(env, w, u, m, now) && HandoverDelta(env, w, w', u, m, now)
    requires r < |w'.h.book.sets| && w'.h.book.sets[r].root == r && 0 < w'.h.book.sets[r].size
    ensures RootRecorded(w'.h.book, r) || RootPending(w'.h, r)
  {
    hide RootRecorded, SetPending, MarkedAt, Completes, MessageOk;
    if RootRecorded(w.h.book, r) {
      StillRecorded(w.h.book, w'.h.book, r);
    } else {
      var k :| 0 <= k < |w.h.book.sets| && w.h.book.sets[k].root == r && SetPending(w.h, k);
      HandoverPending(w.h, w'.h, m.id, Finished, k);
    }
  }

  lemma HandoverOriginal(env: Env, w: World, w': World, u: UserId, m: Message, now: Timestamp, v: UserId, k: nat)
    requires env.strategy.WholeMessage? && RootsLive(w.s.users, w.h)
    requires HandoverOk(env, w, u, m, now) && HandoverDelta(env, w, w', u, m, now)
    requires v in w'.s.users && k in w'.s.users[v].originals && k < |w'.h.book.sets|
    ensures k in w'.h.timers || RootRecorded(w'.h.book, w'.h.book.sets[k].root)
  {
    hide RootRecorded, RootPending, Completes, MessageOk;
    assert k in w.s.users[v].originals;
    if k !in w.h.timers { StillRecorded(w.h.book, w'.h.book, w.h.book.sets[k].root); }
  }

  lemma HandoverRoots(env: Env, w: World, w': World, u: UserId, m: Message, now: Timestamp)
    requires env.strategy.WholeMessage? && RootsLive(w.s.users, w.h)
    requires HandoverOk(env, w, u, m, now) && HandoverDelta(env, w, w', u, m, now)
    ensures RootsLive(w'.s.users, w'.h)
  {
    hide HandoverOk, HandoverDelta, RootRecorded, RootPending;
    forall r | 0 <= r < |w'.h.book.sets| && w'.h.book.sets[r].root == r && 0 < w'.h.book.sets[r].size
      ensures RootRecorded(w'.h.book, r) || RootPending(w'.h, r)
    {
      HandoverRoot(env, w, w', u, m, now, r);
    }
    forall v, k | v in w'.s.users && k in w'.s.users[v].originals && k < |w'.h.book.sets|
      ensures k in w'.h.timers || RootRecorded(w'.h.book, w'.h.book.sets[k].root)
    {
      HandoverOriginal(env, w, w', u, m, now, v, k);
    }
  }

  // ---------- Pigeonhole ----------

  lemma {:induction false} SmallerSet(a: set<nat>, n: nat)
    requires forall i :: i in a ==> i < n
    ensures |a| <= n
  {
    if n > 0 {
      SmallerSet(a - {n - 1}, n - 1);
    } else {
      assert a == {};
    }
  }

  /** `n` distinct numbers below `n` are all of them. */
  lemma {:induction false} FullSet(a: set<nat>, n: nat, i: nat)
    requires (forall j :: j in a ==> j < n) && |a| == n && i < n
    ensures i in a
  {
    if n - 1 in a {
      if i < n - 1 { FullSet(a - {n - 1}, n - 1, i); }
    } else {
      SmallerSet(a, n - 1);
    }
  }

  /** A complete set has all its fragments. */
  lemma CompleteHolds(env: Env, w: World, w': World, u: UserId, m: Message, now: Timestamp, i: nat)
    requires Books(env, w'.s, w'.h) && HandoverOk(env, w, u, m, now) && HandoverDelta(env, w, w', u, m, now)
    requires Completes(w.s.users, u, m, now) && i < m.fragmentSize
    ensures Holds(w'.s.users, u, m.fragmentSet, i)
  {
    var user := w'.s.users[u];
    assert MemoryOk(env, w'.s.nodes.Keys, now, w'.h.book, u, user);
    assert FragmentsOk(w'.h.book, u, user, m.fragmentSet);
    FullSet(user.fragments[m.fragmentSet], m.fragmentSize, i);
  }

  lemma HandoverHolds(env: Env, w: World, w': World, u: UserId, m: Message, now: Timestamp, v: UserId, k: nat, i: nat)
    requires env.strategy.WholeMessage? && OnceEach(w.s.users, w.h) && m.id < |w.h.book.ids|
    requires IdOk(env, w.h.book, m.id)
    requires HandoverOk(env, w, u, m, now) && HandoverDelta(env, w, w', u, m, now)
    requires k < |w.h.book.sets| && Holds(w'.s.users, v, k, i)
    ensures SlotFinished(w'.h, k, i)
  {
    hide EventQueue.Insert, TotalDelay, NoRepeats;
    if Holds(w.s.users, v, k, i) {
      assert SlotFinished(w.h, k, i);
    } else {
      assert v == u && k == m.fragmentSet && i == m.fragmentIndex;
    }
  }

  lemma HandoverSlots(env: Env, w: World, w': World, u: UserId, m: Message, now: Timestamp, k: nat, i: nat)
    requires env.strategy.WholeMessage? && OnceEach(w.s.users, w.h) && m.id < |w.h.book.ids|
    requires IdOk(env, w.h.book, m.id)
    requires Books(env, w'.s, w'.h) && HandoverOk(env, w, u, m, now) && HandoverDelta(env, w, w', u, m, now)
    requires k in w'.h.book.records && k < |w.h.book.sets| && i < w.h.book.sets[k].size
    ensures SlotFinished(w'.h, k, i)
  {
    hide Books;
    if k in w.h.book.records {
      assert SlotFinished(w.h, k, i);
    } else {
      CompleteHolds(env, w, w', u, m, now, i);
      HandoverHolds(env, w, w', u, m, now, u, k, i);
    }
  }

  lemma HandoverFresh(env: Env, w: World, w': World, u: UserId, m: Message, now: Timestamp)
    requires env.strategy.WholeMessage? && OnceEach(w.s.users, w.h) && m.id < |w.h.book.ids|
    requires IdOk(env, w.h.book, m.id)
    requires HandoverOk(env, w, u, m, now) && HandoverDelta(env, w, w', u, m, now)
    ensures NoRepeats(w'.h.book.records)
  {
    assert m.fragmentSet in w.h.book.records ==> SlotFinished(w.h, m.fragmentSet, m.fragmentIndex);
    assert m.fragmentSet !in w.h.book.records;
  }

  lemma HandoverOnce(env: Env, w: World, w': World, u: UserId, m: Message, now: Timestamp)
    requires env.strategy.WholeMessage? && OnceEach(w.s.users, w.h) && m.id < |w.h.book.ids|
    requires IdOk(env, w.h.book, m.id)
    requires Books(env, w'.s, w'.h) && HandoverOk(env, w, u, m, now) && HandoverDelta(env, w, w', u, m, now)
    ensures OnceEach(w'.s.users, w'.h)
  {
    forall v, k: nat, i: nat | k < |w'.h.book.sets| && Holds(w'.s.users, v, k, i)
      ensures SlotFinished(w'.h, k, i)
    {
      HandoverHolds(env, w, w', u, m, now, v, k, i);
    }
    forall k: nat, i: nat | k in w'.h.book.records && k < |w'.h.book.sets| && i < w'.h.book.sets[k].size
      ensures SlotFinished(w'.h, k, i)
    {
      HandoverSlots(env, w, w', u, m, now, k, i);
    }
    HandoverFresh(env, w, w', u, m, now);
  }

  lemma PopInOrder(q: Queue<UserEvent>)
    requires EgressFirst(q) && q != []
    ensures EgressFirst(q[1..])
  {
  }

  lemma HandoverLive(env: Env, w: World, w': World, u: UserId, m: Message, now: Timestamp)
    requires Live(env, w.s.users, w.h) && Books(env, w.s, w.h) && Books(env, w'.s, w'.h)
    requires HandoverOk(env, w, u, m, now) && HandoverDelta(env, w, w', u, m, now)
    ensures Live(env, w'.s.users, w'.h)
  {
    hide Tally, MemoriesOk;
    assert IdOk(env, w.h.book, m.id);
    match env.strategy {
      case PerFragment => HandoverFragments(env, w, w', u, m, now);
      case WholeMessage =>
        HandoverRoots(env, w, w', u, m, now);
        HandoverOnce(env, w, w', u, m, now);
        PopInOrder(w.s.users[u].events);
    }
  }

  lemma HandoverKeeps(env: Env, w: World, u: UserId)
    requires Turn(env, w, AtUser(u)) && Event(w.s, u).Handover?
    ensures CanStep(env, w, AtUser(u)) && Inv(env, After(env, w, AtUser(u)))
  {
    HandoverReady(env, w, u);
    HandoverFires(env, w, u);
    HandoverQueues(env, w, u);
    var m, now, w' := Event(w.s, u).message, UserTime(w.s, u), After(env, w, AtUser(u));
    HandoverBooks(env, w, w', u, m, now);
    HandoverLive(env, w, w', u, m, now);
  }
}
