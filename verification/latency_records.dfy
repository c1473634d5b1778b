/** Which timers are armed, and when a delivery is recorded. */
module LatencyRecords {
  import opened EventQueue
  import opened LatencySim
  import opened LatencyHistory
  import opened LatencyInvariant
  import opened LatencyUserSteps
  import opened LatencyBuilds
  import opened LatencyRuns
  import opened LatencyTiming
  import opened LatencyDelivery

  // ---------- Timers ----------

  lemma EventsDiffer(q: Queue<UserEvent>, i: nat, j: nat)
    requires i < j < |q| && Bag(q, EventKey)[EventKey(q[i].1)] <= 1
    ensures EventKey(q[i].1) != EventKey(q[j].1)
  {
    if EventKey(q[i].1) == EventKey(q[j].1) {
      BagTwice(q, EventKey, i, j);
    }
  }

  lemma TimerUnique(users: Users, h: History, u: UserId, i: nat, j: nat)
    requires UsersConserved(users, h) && u in users && i < |users[u].events| && j < |users[u].events| && i != j
    requires users[u].events[i].1.AckTimeout?
    ensures users[u].events[j].1 != users[u].events[i].1
  {
    var q := users[u].events;
    assert UserBag(users, u)[EventKey(q[i].1)] == One(TimerAt(h, q[i].1.id, u));
    if q[j].1 == q[i].1 {
      if i < j { EventsDiffer(q, i, j); } else { EventsDiffer(q, j, i); }
    }
  }

  /** No two timers of a user have the same identifier, and each finds its message when it fires. */
  lemma TimersAreOwned(env: Env, w: World, u: UserId, i: nat)
    requires Reachable(env, w) && u in w.s.users && i < |w.s.users[u].events| && w.s.users[u].events[i].1.AckTimeout?
    ensures w.s.users[u].events[i].1.id in w.s.users[u].originals
    ensures forall j :: 0 <= j < |w.s.users[u].events| && j != i ==>
              w.s.users[u].events[j].1 != w.s.users[u].events[i].1
  {
    hide Live, Clock, NodesConserved, UsersConserved, NodeItems, UserItems;
    ReachableInv(env, w);
    QueuedTimer(w.s.users, w.h, u, w.s.users[u].events[i]);
    forall j | 0 <= j < |w.s.users[u].events| && j != i
      ensures w.s.users[u].events[j].1 != w.s.users[u].events[i].1
    {
      TimerUnique(w.s.users, w.h, u, i, j);
    }
  }

  /** A set is not retransmitted before all its fragments have left: no timer of the set of a queued
      fragment is ahead of that fragment, and under PerFragment no queued message has a timer at all. */
  lemma TimersComeLast(env: Env, w: World, u: UserId, i: nat, j: nat)
    requires Reachable(env, w) && u in w.s.users && i < |w.s.users[u].events| && j < |w.s.users[u].events|
    requires w.s.users[u].events[i].1.AckTimeout? && w.s.users[u].events[j].1.Egress?
    ensures Core(w.s.users[u].events[j].1.packet).OfMessage?
    ensures TimerId(env, MessageOf(w.s.users[u].events[j].1.packet)) == w.s.users[u].events[i].1.id ==>
              env.strategy.WholeMessage? && j < i
  {
    ReachableInv(env, w);
    assert w.s.users[u].events[j] in w.s.users[u].events;
    assert UserItemOk(env, w.s.nodes.Keys, w.s.timestamp, w.h.book, u, w.s.users[u].events[j]);
    match env.strategy {
      case PerFragment => NoTimerYet(w.s.users, w.h, u, i, j);
      case WholeMessage => EgressBefore(w.s.users[u].events, i, j);
    }
  }

  lemma NoTimerYet(users: Users, h: History, u: UserId, i: nat, j: nat)
    requires UsersConserved(users, h) && FragmentsLive(users, h) && u in users && i < |users[u].events|
    requires j < |users[u].events|
    requires users[u].events[i].1.AckTimeout? && users[u].events[j].1.Egress?
    requires Core(users[u].events[j].1.packet).OfMessage?
    ensures MessageOf(users[u].events[j].1.packet).id != users[u].events[i].1.id
  {
    QueuedTimer(users, h, u, users[u].events[i]);
    QueuedEgress(users, h, u, users[u].events[j]);
  }

  lemma EgressBefore(q: Queue<UserEvent>, i: nat, j: nat)
    requires EgressFirst(q) && i < |q| && j < |q|
    requires q[i].1.AckTimeout? && q[j].1.Egress? && Core(q[j].1.packet).OfMessage?
    ensures MessageOf(q[j].1.packet).fragmentSet == q[i].1.id ==> j < i
  {
  }

  lemma QueuedEgress(users: Users, h: History, u: UserId, it: (Timestamp, UserEvent))
    requires UsersConserved(users, h) && u in users && it in users[u].events && it.1.Egress?
    requires Core(it.1.packet).OfMessage?
    ensures At(h, MessageOf(it.1.packet).id, Queued(u))
  {
    var i :| 0 <= i < |users[u].events| && users[u].events[i] == it;
    MemberBag(users[u].events, EventKey, i);
    var id := MessageOf(it.1.packet).id;
    assert UserBag(users, u)[EgressKey(id)] == One(At(h, id, Queued(u)));
  }

  /** The message that an event will send (again). */
  predicate Sending(user: UserState, e: UserEvent, m: Message) {
    match e
    case Egress(p) => Core(p).OfMessage? && m == MessageOf(p)
    case AckTimeout(id) => id in user.originals && m == user.originals[id]
    case _ => false
  }

  lemma SendingIsCurrent(env: Env, w: World, u: UserId, i: nat, m: Message)
    requires Inv(env, w) && env.strategy.PerFragment? && u in w.s.users && i < |w.s.users[u].events|
    requires Sending(w.s.users[u], w.s.users[u].events[i].1, m)
    ensures (m.fragmentSet, m.fragmentIndex) in w.h.current && w.h.current[(m.fragmentSet, m.fragmentIndex)] == m.id
    ensures match w.s.users[u].events[i].1
            case Egress(_) => At(w.h, m.id, Queued(u)) && EventKey(w.s.users[u].events[i].1) == EgressKey(m.id)
            case _ => TimerAt(w.h, m.id, u) && EventKey(w.s.users[u].events[i].1) == TimerKey(m.id)
  {
    var it := w.s.users[u].events[i];
    assert it in w.s.users[u].events && UserItemOk(env, w.s.nodes.Keys, w.s.timestamp, w.h.book, u, it);
    match it.1 {
      case Egress(_) => QueuedEgress(w.s.users, w.h, u, it);
      case AckTimeout(id) =>
        QueuedTimer(w.s.users, w.h, u, it);
        assert MemoryOk(env, w.s.nodes.Keys, w.s.timestamp, w.h.book, u, w.s.users[u]);
        assert OriginalOk(env, w.s.nodes.Keys, w.h.book, u, id, m);
    }
    assert Waiting(w.h, m.id) && IsCurrent(w.h, m.id);
  }

  /** PerFragment: at most one egress or timer is pending for each fragment, among all users. */
  lemma OnePendingPerFragment(env: Env, w: World, u: UserId, i: nat, v: UserId, j: nat, m: Message, m': Message)
    requires Reachable(env, w) && env.strategy.PerFragment? && (u, i) != (v, j)
    requires u in w.s.users && i < |w.s.users[u].events| && Sending(w.s.users[u], w.s.users[u].events[i].1, m)
    requires v in w.s.users && j < |w.s.users[v].events| && Sending(w.s.users[v], w.s.users[v].events[j].1, m')
    ensures (m.fragmentSet, m.fragmentIndex) != (m'.fragmentSet, m'.fragmentIndex)
  {
    hide Queues, Books, Sending;
    ReachableInv(env, w);
    SendingIsCurrent(env, w, u, i, m);
    SendingIsCurrent(env, w, v, j, m');
    if (m.fragmentSet, m.fragmentIndex) == (m'.fragmentSet, m'.fragmentIndex) {
      assert m.id == m'.id && u == v;
      OnePendingAlone(env, w, u, i, m.id);
      OnePendingAlone(env, w, u, j, m.id);
      if i < j { EventsDiffer(w.s.users[u].events, i, j); } else { EventsDiffer(w.s.users[u].events, j, i); }
    }
  }

  lemma OnePendingAlone(env: Env, w: World, u: UserId, i: nat, id: nat)
    requires Inv(env, w) && u in w.s.users && i < |w.s.users[u].events|
    requires EventKey(w.s.users[u].events[i].1) in {EgressKey(id), TimerKey(id)}
    ensures Bag(w.s.users[u].events, EventKey)[EventKey(w.s.users[u].events[i].1)] <= 1
  {
    hide Books, Live;
    assert UserBag(w.s.users, u)[EgressKey(id)] == One(At(w.h, id, Queued(u)));
    assert UserBag(w.s.users, u)[TimerKey(id)] == One(TimerAt(w.h, id, u));
  }

  // ---------- Records ----------

  /** The step at which user `u` takes message `m` and records a delivery. */
  ghost predicate Records(env: Env, w: World, u: UserId, m: Message) {
    && CanStep(env, w, AtUser(u)) && Event(w.s, u) == Handover(m)
    && |After(env, w, AtUser(u)).s.deliveryTimes| != |w.s.deliveryTimes|
  }

  /** `user` holds exactly the fragments 0 to `n` - 1 of set `k`. */
  ghost predicate HoldsExactly(user: UserState, k: nat, n: nat) {
    k in user.fragments && forall i: nat :: i in user.fragments[k] <==> i < n
  }

  lemma CompleteIsExact(env: Env, w: World, w': World, u: UserId, m: Message, now: Timestamp)
    requires Books(env, w'.s, w'.h) && HandoverOk(env, w, u, m, now) && HandoverDelta(env, w, w', u, m, now)
    ensures Completes(w.s.users, u, m, now) <==> HoldsExactly(w'.s.users[u], m.fragmentSet, m.fragmentSize)
  {
    var user := w'.s.users[u];
    assert MemoryOk(env, w'.s.nodes.Keys, now, w'.h.book, u, user);
    assert FragmentsOk(w'.h.book, u, user, m.fragmentSet);
    if Completes(w.s.users, u, m, now) {
      forall i: nat | i < m.fragmentSize
        ensures i in user.fragments[m.fragmentSet]
      {
        FullSet(user.fragments[m.fragmentSet], m.fragmentSize, i);
      }
    }
    if HoldsExactly(user, m.fragmentSet, m.fragmentSize) {
      var r := RangeCard(m.fragmentSize);
      assert user.fragments[m.fragmentSet] == r;
    }
  }

  /** From `s` to `s'` a delivery of `m` has been recorded if and only if the recipient now holds exactly
      all fragments of the set, whether for the first time or again; the two figures are then the times
      since the message was sent and since its first fragment came. */
  ghost predicate RecordedRight(s: State, s': State, u: UserId, m: Message) {
    && u in s'.users
    && (|s'.deliveryTimes| != |s.deliveryTimes| <==> HoldsExactly(s'.users[u], m.fragmentSet, m.fragmentSize))
    && (|s'.deliveryTimes| != |s.deliveryTimes| ==>
          && m.fragmentSet in s'.users[u].tFirst
          && m.sendingTime <= s'.users[u].tFirst[m.fragmentSet] <= s'.timestamp
          && s'.deliveryTimes == s.deliveryTimes + [s'.timestamp - m.sendingTime]
          && s'.firstToLast == s.firstToLast + [s'.timestamp - s'.users[u].tFirst[m.fragmentSet]])
    && (|s'.deliveryTimes| == |s.deliveryTimes|
        ==> s'.deliveryTimes == s.deliveryTimes && s'.firstToLast == s.firstToLast)
  }

  lemma RecordedFigures(env: Env, w: World, w': World, u: UserId, m: Message, now: Timestamp)
    requires Books(env, w'.s, w'.h) && HandoverOk(env, w, u, m, now) && HandoverDelta(env, w, w', u, m, now)
    ensures RecordedRight(w.s, w'.s, u, m)
  {
    hide Books;
    CompleteIsExact(env, w, w', u, m, now);
  }

  lemma RecordedWhenComplete(env: Env, w: World, u: UserId, m: Message)
    requires Reachable(env, w) && IsNext(w.s, AtUser(u)) && Event(w.s, u) == Handover(m)
    ensures CanStep(env, w, AtUser(u)) && RecordedRight(w.s, After(env, w, AtUser(u)).s, u, m)
  {
    ReachableInv(env, w);
    HandoverReady(env, w, u);
    HandoverFires(env, w, u);
    HandoverKeeps(env, w, u);
    RecordedFigures(env, w, After(env, w, AtUser(u)), u, m, UserTime(w.s, u));
  }

  /** Deliveries are not recorded exactly once: when a fragment of a complete set is handed over again, the set
      is recorded again. Under WholeMessage no set is recorded again, as RecordedAtMostOnce says, but a set that
      was rebuilt for the same message may be. */
  lemma DuplicateRecordsAgain(env: Env, w: World, u: UserId, m: Message)
    requires Reachable(env, w) && IsNext(w.s, AtUser(u)) && Event(w.s, u) == Handover(m)
    requires HoldsExactly(w.s.users[u], m.fragmentSet, m.fragmentSize)
    ensures CanStep(env, w, AtUser(u))
    ensures After(env, w, AtUser(u)).s.deliveryTimes == w.s.deliveryTimes + [UserTime(w.s, u) - m.sendingTime]
  {
    hide Inv, Live, Queues, Books, Fire, IsNext, Reachable, HoldsExactly;
    RecordedWhenComplete(env, w, u, m);
    DuplicateIsComplete(env, w, u, m);
  }

  lemma DuplicateIsComplete(env: Env, w: World, u: UserId, m: Message)
    requires Reachable(env, w) && IsNext(w.s, AtUser(u)) && Event(w.s, u) == Handover(m)
    requires HoldsExactly(w.s.users[u], m.fragmentSet, m.fragmentSize)
    ensures CanStep(env, w, AtUser(u)) && u in After(env, w, AtUser(u)).s.users
    ensures After(env, w, AtUser(u)).s.timestamp == UserTime(w.s, u)
    ensures HoldsExactly(After(env, w, AtUser(u)).s.users[u], m.fragmentSet, m.fragmentSize)
  {
    hide Inv, Live, Queues, Books;
    ReachableInv(env, w);
    HandoverReady(env, w, u);
    HandoverFires(env, w, u);
    var w', now := After(env, w, AtUser(u)), UserTime(w.s, u);
    HandoverKeeps(env, w, u);
    StillExact(env, w, w', u, m, now);
  }

  lemma StillExact(env: Env, w: World, w': World, u: UserId, m: Message, now: Timestamp)
    requires Inv(env, w') && HandoverOk(env, w, u, m, now) && HandoverDelta(env, w, w', u, m, now)
    requires HoldsExactly(w.s.users[u], m.fragmentSet, m.fragmentSize)
    ensures HoldsExactly(w'.s.users[u], m.fragmentSet, m.fragmentSize)
  {
    hide Live, Queues;
    var user := w'.s.users[u];
    assert MemoryOk(env, w'.s.nodes.Keys, now, w'.h.book, u, user);
    assert FragmentsOk(w'.h.book, u, user, m.fragmentSet);
    assert user.fragments[m.fragmentSet] == w.s.users[u].fragments[m.fragmentSet] + {m.fragmentIndex};
  }

  /** Only a handover records a delivery. */
  lemma OnlyHandoversRecord(env: Env, w: World, who: Who)
    requires CanStep(env, w, who) && (who.AtUser? ==> !Event(w.s, who.user).Handover?)
    ensures After(env, w, who).s.deliveryTimes == w.s.deliveryTimes
    ensures After(env, w, who).s.firstToLast == w.s.firstToLast
  {
    match who {
      case AtNode(_) =>
      case AtUser(u) => UserFigures(env, w.s, u);
    }
  }

  lemma UserFigures(env: Env, s: State, u: UserId)
    requires BusyUser(s, u) && FireUser(env, s, u).Stepped? && !Event(s, u).Handover?
    ensures FireUser(env, s, u).state.deliveryTimes == s.deliveryTimes
    ensures FireUser(env, s, u).state.firstToLast == s.firstToLast
  {
  }

  /** In every run the time from the first fragment to the last is at most the delivery time. */
  lemma FiguresAreConsistent(env: Env, w: World)
    requires Reachable(env, w)
    ensures |w.s.firstToLast| == |w.s.deliveryTimes|
    ensures forall i :: 0 <= i < |w.s.deliveryTimes| ==> w.s.firstToLast[i] <= w.s.deliveryTimes[i]
  {
    ReachableInv(env, w);
  }

  /** A run of one step from `w` to `w1`, in which user `u` takes message `m` and a delivery is recorded. */
  ghost predicate RecordingStep(env: Env, w: World, u: UserId, m: Message, w1: World) {
    && BusyUser(w.s, u) && Event(w.s, u) == Handover(m)
    && Leads(env, w, [AtUser(u)], w1) && |w1.s.deliveryTimes| != |w.s.deliveryTimes|
  }

  lemma RecordingStepRecords(env: Env, w: World, u: UserId, m: Message, w1: World)
    requires RecordingStep(env, w, u, m, w1)
    ensures Records(env, w, u, m) && w1 == After(env, w, AtUser(u))
  {
    hide CanStep, After, IsNext;
    LeadsOn(env, w, [AtUser(u)], w1);
    assert [AtUser(u)][1..] == [];
    LeadsNowhere(env, After(env, w, AtUser(u)), w1);
  }

  /** WholeMessage: no fragment set is recorded twice, even though a timeout clears partly received sets
      and stragglers may still arrive. */
  lemma RecordedAtMostOnce(env: Env, w: World, u: UserId, m: Message, w1: World, schedule: seq<Who>,
                           w': World, u': UserId, m': Message, w2: World)
    requires Reachable(env, w) && env.strategy.WholeMessage?
    requires RecordingStep(env, w, u, m, w1) && Leads(env, w1, schedule, w') && RecordingStep(env, w', u', m', w2)
    ensures m'.fragmentSet != m.fragmentSet
  {
    hide After, IsNext, RecordingStep;
    RecordingStepRecords(env, w, u, m, w1);
    RecordingStepRecords(env, w', u', m', w2);
    ReachableInv(env, w);
    StepKeeps(env, w, AtUser(u));
    RunKeeps(env, w1, schedule, w');
    RecordIsListed(env, w, u, m);
    RunPrefix(env, w1, schedule, w');
    RecordIsNew(env, w', u', m');
  }

  lemma RecordIsListed(env: Env, w: World, u: UserId, m: Message)
    requires Inv(env, w) && Records(env, w, u, m)
    ensures m.fragmentSet in After(env, w, AtUser(u)).h.book.records
  {
    HandoverReady(env, w, u);
    HandoverFires(env, w, u);
  }

  lemma RecordIsNew(env: Env, w: World, u: UserId, m: Message)
    requires Inv(env, w) && env.strategy.WholeMessage? && Records(env, w, u, m)
    ensures m.fragmentSet !in w.h.book.records
  {
    HandoverReady(env, w, u);
    HandoverFires(env, w, u);
    assert IdOk(env, w.h.book, m.id);
    RecordFollows(env, w, After(env, w, AtUser(u)), u, m, UserTime(w.s, u));
  }

  lemma RecordFollows(env: Env, w: World, w': World, u: UserId, m: Message, now: Timestamp)
    requires env.strategy.WholeMessage? && OnceEach(w.s.users, w.h) && m.id < |w.h.book.ids|
    requires IdOk(env, w.h.book, m.id)
    requires HandoverOk(env, w, u, m, now) && HandoverDelta(env, w, w', u, m, now)
    requires |w'.s.deliveryTimes| != |w.s.deliveryTimes|
    ensures m.fragmentSet !in w.h.book.records
  {
    HandoverFresh(env, w, w', u, m, now);
    var before, after := w.h.book.records, w'.h.book.records;
    assert after == before + [m.fragmentSet];
    assert forall i :: 0 <= i < |before| ==> after[i] == before[i] && after[i] != after[|before|];
  }
}
