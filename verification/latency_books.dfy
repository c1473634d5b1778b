/** How the books and the liveness invariants carry over from one state to the next. */
module LatencyBooks {
  import opened EventQueue
  import opened LatencySim
  import opened LatencyHistory
  import opened LatencyInvariant
  import opened LatencyQueues

  predicate SameMemory(user: UserState, user': UserState) {
    user'.fragments == user.fragments && user'.tFirst == user.tFirst && user'.originals == user.originals
  }

  ghost predicate SameMemories(users: Users, users': Users) {
    users'.Keys == users.Keys && forall u :: u in users ==> SameMemory(users[u], users'[u])
  }

  /** Only the clock, the queues and the cursor differ. */
  ghost predicate SameCounts(s: State, s': State) {
    && s'.nodes.Keys == s.nodes.Keys && SameMemories(s.users, s'.users) && s.timestamp <= s'.timestamp
    && s'.deliveryTimes == s.deliveryTimes && s'.firstToLast == s.firstToLast
    && s'.nextMessageId == s.nextMessageId && s'.nextFragmentSet == s.nextFragmentSet
  }

  lemma LaterBook(env: Env, users: set<UserId>, now: Timestamp, later: Timestamp, book: Book)
    requires BookOk(env, users, now, book) && now <= later
    ensures BookOk(env, users, later, book)
  {
    forall k | 0 <= k < |book.sets|
      ensures SetOk(env, users, later, book, k)
    {
      assert SetOk(env, users, now, book, k);
    }
  }

  lemma LaterMemory(env: Env, nodes: set<NodeId>, now: Timestamp, later: Timestamp, book: Book, u: UserId,
                    user: UserState, user': UserState)
    requires MemoryOk(env, nodes, now, book, u, user) && now <= later && SameMemory(user, user')
    ensures MemoryOk(env, nodes, later, book, u, user')
  {
  }

  lemma QuietBooks(env: Env, s: State, s': State, h: History, h': History)
    requires Books(env, s, h) && SameCounts(s, s') && h'.book == h.book && StagesOk(env, s.nodes.Keys, h')
    requires forall k :: k in h'.timers ==> k in h.timers && h'.timers[k] == h.timers[k]
    ensures Books(env, s', h')
  {
    hide MemoryOk;
    LaterBook(env, s.users.Keys, s.timestamp, s'.timestamp, h.book);
    forall u | u in s'.users
      ensures MemoryOk(env, s.nodes.Keys, s'.timestamp, h.book, u, s'.users[u])
    {
      LaterMemory(env, s.nodes.Keys, s.timestamp, s'.timestamp, h.book, u, s.users[u], s'.users[u]);
    }
    assert TimersOk(s'.users, h'.timers);
  }

  lemma StageChange(env: Env, nodes: set<NodeId>, h: History, id: nat, stage: Stage)
    requires StagesOk(env, nodes, h) && id < |h.stage| && !h.stage[id].Queued? && !stage.Queued?
    requires match stage
             case Relayed(n) => n in nodes
             case Arrived(u) => id < |h.book.ids| && h.book.ids[id].fragmentSet < |h.book.sets|
                                && u == h.book.sets[h.book.ids[id].fragmentSet].recipient
             case Acking(n) => n in nodes && env.strategy.PerFragment?
             case _ => true
    ensures StagesOk(env, nodes, SetStage(h, id, stage))
  {
    var h' := SetStage(h, id, stage);
    assert StageOk(env, nodes, h, id);
    forall i | 0 <= i < |h'.stage|
      ensures StageOk(env, nodes, h', i)
    {
      assert StageOk(env, nodes, h, i);
    }
  }

  // ---------- Liveness ----------

  /** `h'` differs from `h` at most in the stage of `id`, which is queued in neither. */
  predicate StageOnly(h: History, h': History, id: nat) {
    && h'.book == h.book && h'.current == h.current && |h'.stage| == |h.stage|
    && (forall i :: 0 <= i < |h.stage| && i != id ==> h'.stage[i] == h.stage[i])
    && (id < |h.stage| ==> !h.stage[id].Queued? && !h'.stage[id].Queued?)
  }

  lemma QuietFragments(users: Users, users': Users, h: History, h': History, id: nat)
    requires FragmentsLive(users, h) && SameMemories(users, users') && StageOnly(h, h', id) && h'.timers == h.timers
    requires id < |h.stage| && !h'.stage[id].Finished? && (h'.stage[id].Acking? ==> h.stage[id].Acking?)
    ensures FragmentsLive(users', h')
  {
    assert forall i :: Waiting(h', i) == Waiting(h, i);
    forall k: nat, i: nat | k < |h.book.sets| && i < h.book.sets[k].size
      ensures FragmentLive(users', h', k, i)
    {
      assert FragmentLive(users, h, k, i);
    }
  }

  lemma AckedFragments(users: Users, users': Users, h: History, h': History, id: nat)
    requires FragmentsLive(users, h) && SameMemories(users, users') && StageOnly(h, h', id)
    requires id < |h.stage| && h.stage[id].Acking? && h'.stage[id].Finished? && h'.timers == h.timers - {id}
    requires |h.book.ids| == |h.stage|
    ensures FragmentsLive(users', h')
  {
    forall k: nat, i: nat | k < |h.book.sets| && i < h.book.sets[k].size
      ensures FragmentLive(users', h', k, i)
    {
      assert FragmentLive(users, h, k, i);
      assert Waiting(h, h.current[(k, i)]) ==> Waiting(h', h.current[(k, i)]) || h.current[(k, i)] == id;
    }
    forall i | Waiting(h', i)
      ensures IsCurrent(h', i)
    {
      assert Waiting(h, i);
    }
  }

  lemma StillPending(h: History, h': History, k: nat)
    requires SetPending(h, k) && h'.book == h.book && (k in h.timers ==> k in h'.timers)
    requires |h'.stage| == |h.stage| && forall i :: 0 <= i < |h.stage| ==> h'.stage[i].Queued? == h.stage[i].Queued?
    ensures SetPending(h', k)
  {
    if k !in h.timers {
      var id: nat :| QueuedIn(h, id, k);
      assert QueuedIn(h', id, k);
    }
  }

  /** A cancelled timer is that of a recorded set, if there is one. */
  lemma QuietRoots(users: Users, users': Users, h: History, h': History, id: nat, cancelled: set<nat>)
    requires RootsLive(users, h) && SameMemories(users, users') && StageOnly(h, h', id)
    requires h'.timers == h.timers - cancelled
    requires forall k :: k in cancelled ==> k in h.book.records
    ensures RootsLive(users', h')
  {
    forall r | 0 <= r < |h.book.sets| && h.book.sets[r].root == r && 0 < h.book.sets[r].size
      ensures RootRecorded(h.book, r) || RootPending(h', r)
    {
      if !RootRecorded(h.book, r) {
        var k :| 0 <= k < |h.book.sets| && h.book.sets[k].root == r && SetPending(h, k);
        StillPending(h, h', k);
      }
    }
  }

  lemma QuietOnce(users: Users, users': Users, h: History, h': History, id: nat)
    requires OnceEach(users, h) && SameMemories(users, users') && StageOnly(h, h', id)
    requires id < |h.stage| ==> !h.stage[id].Finished?
    ensures OnceEach(users', h')
  {
    forall u, k: nat, i: nat | k < |h.book.sets| && Holds(users', u, k, i)
      ensures SlotFinished(h', k, i)
    {
      assert Holds(users, u, k, i) && SlotFinished(h, k, i);
    }
    forall k: nat, i: nat | k in h.book.records && k < |h.book.sets| && i < h.book.sets[k].size
      ensures SlotFinished(h', k, i)
    {
      assert SlotFinished(h, k, i);
    }
  }

  /** May `x` come at time `t` without getting ahead of a queued fragment? */
  ghost predicate InOrder(q: Queue<UserEvent>, t: Timestamp, x: UserEvent) {
    forall it :: it in q ==> !Overtakes(it.1, x) && (t < it.0 ==> !Overtakes(x, it.1))
  }

  lemma InsertInOrder(q: Queue<UserEvent>, t: Timestamp, x: UserEvent)
    requires EgressFirst(q) && Sorted(q) && InOrder(q, t, x)
    ensures EgressFirst(Insert(q, t, x))
  {
  }

  lemma TimerInOrder(q: Queue<UserEvent>, t: Timestamp, id: nat)
    requires forall it :: it in q && it.1.Egress? ==> it.0 <= t
    ensures InOrder(q, t, AckTimeout(id))
  {
  }

  lemma {:induction false} CancelInOrder(q: Queue<UserEvent>, id: nat)
    requires EgressFirst(q)
    ensures EgressFirst(CancelTimers(q, id))
  {
    if q != [] {
      var rest := CancelTimers(q[1..], id);
      assert EgressFirst(q[1..]);
      CancelInOrder(q[1..], id);
      CancelMembers(q[1..], id);
      if q[0].1 != AckTimeout(id) {
        forall j | 0 <= j < |rest|
          ensures !Overtakes(q[0].1, rest[j].1)
        {
          assert rest[j] in q[1..];
        }
      }
    }
  }
}
