/** WholeMessage: the sets whose timers have fired. Each timer fires at most once, and a set whose timer has
    not fired is recorded or still on its way. */
module LatencyFired {
  import opened EventQueue
  import opened LatencySim
  import opened LatencyHistory
  import opened LatencyInvariant
  import opened LatencyBooks
  import opened LatencyNodeSteps
  import opened LatencyUserSteps
  import opened LatencyEgressSteps
  import opened LatencyBuilds
  import opened LatencySendSteps
  import opened LatencyRebuildSteps
  import opened LatencyRuns
  import opened LatencyTiming
  import opened LatencyTransit
  import opened LatencyRecords
  import opened LatencyTermination

  /** The timer that fires at this step, if any. */
  ghost function FiredAt(w: World, who: Who): set<nat> {
    if Fires(w, who) then {Event(w.s, who.user).id} else {}
  }

  /** The timers that fire in a run. */
  ghost function FiredIn(env: Env, w: World, schedule: seq<Who>): set<nat>
    decreases |schedule|
  {
    if schedule == [] || !CanStep(env, w, schedule[0]) then {}
    else FiredAt(w, schedule[0]) + FiredIn(env, After(env, w, schedule[0]), schedule[1..])
  }

  // ---------- The invariant ----------

  ghost predicate Unqueued(h: History, k: nat) {
    forall id: nat :: !QueuedIn(h, id, k)
  }

  /** A set whose timer has fired: neither its timer nor a fragment of it is waiting. */
  ghost predicate Spent(h: History, k: nat) {
    k < |h.book.sets| && 0 < h.book.sets[k].size && k !in h.timers && Unqueued(h, k)
  }

  /** Set `k` is recorded or still on its way. */
  ghost predicate OnItsWay(h: History, k: nat) {
    k in h.book.records || SetPending(h, k)
  }

  ghost predicate FiredSets(h: History, fired: set<nat>) {
    && (forall k :: k in fired ==> Spent(h, k))
    && (forall k: nat :: k < |h.book.sets| && 0 < h.book.sets[k].size && k !in fired ==> OnItsWay(h, k))
  }

  predicate OriginalLive(h: History, k: nat) {
    k < |h.book.sets| && (k in h.timers || k in h.book.records)
  }

  /** What is kept for retransmission is timed, or has been recorded. */
  ghost predicate OriginalsLive(users: Users, h: History) {
    forall u, k :: u in users && k in users[u].originals ==> OriginalLive(h, k)
  }

  ghost predicate SameOriginals(users: Users, users': Users) {
    users'.Keys == users.Keys && forall u :: u in users ==> users'[u].originals == users[u].originals
  }

  // ---------- Nodes and handovers ----------

  /** Nothing is queued or built, and only timers of recorded sets are cancelled. */
  ghost predicate Quiet(h: History, h': History) {
    && h'.book.sets == h.book.sets && h'.book.ids == h.book.ids && h.book.records <= h'.book.records
    && (forall id, k :: QueuedIn(h', id, k) <==> QueuedIn(h, id, k))
    && (forall k :: k in h'.timers ==> k in h.timers)
    && (forall k :: k in h.timers ==> k in h'.timers || k in h.book.records)
  }

  lemma QuietSets(h: History, h': History, fired: set<nat>)
    requires FiredSets(h, fired) && Quiet(h, h')
    ensures FiredSets(h', fired)
  {
    forall k | k in fired
      ensures Spent(h', k)
    {
      assert Spent(h, k);
    }
    forall k: nat | k < |h'.book.sets| && 0 < h'.book.sets[k].size && k !in fired
      ensures OnItsWay(h', k)
    {
      assert OnItsWay(h, k);
      if k !in h.book.records && k !in h.timers {
        var id: nat :| QueuedIn(h, id, k);
        assert QueuedIn(h', id, k);
      }
    }
  }

  lemma QuietKept(users: Users, users': Users, h: History, h': History)
    requires OriginalsLive(users, h) && SameOriginals(users, users') && Quiet(h, h')
    ensures OriginalsLive(users', h')
  {
    forall u, k | u in users' && k in users'[u].originals
      ensures OriginalLive(h', k)
    {
      assert k in users[u].originals && OriginalLive(h, k);
    }
  }

  lemma NodeQuiet(env: Env, w: World, n: NodeId)
    requires Turn(env, w, AtNode(n)) && CanStep(env, w, AtNode(n)) && env.strategy.WholeMessage?
    ensures Quiet(w.h, After(env, w, AtNode(n)).h)
  {
    hide Inv, Fire;
    HeadMoves(env, w, n);
    HeadOk(env, w, n);
  }

  lemma NodeOriginals(env: Env, s: State, n: NodeId)
    requires BusyNode(s, n) && FireNode(env, s, n).Stepped?
    ensures SameOriginals(s.users, FireNode(env, s, n).state.users)
  {
  }

  lemma HandoverQuiet(env: Env, w: World, w': World, u: UserId, m: Message, now: Timestamp)
    requires HandoverOk(env, w, u, m, now) && HandoverDelta(env, w, w', u, m, now)
    ensures Quiet(w.h, w'.h) && SameOriginals(w.s.users, w'.s.users)
  {
    hide Completes;
  }

  // ---------- Egress ----------

  /** Fragment `id` of set `k` leaves its sender, and `k` is timed. */
  ghost predicate Leaving(h: History, h': History, id: nat, k: nat) {
    && h'.book.sets == h.book.sets && h'.book.ids == h.book.ids && h'.book.records == h.book.records
    && QueuedIn(h, id, k) && |h'.stage| == |h.stage| && !h'.stage[id].Queued?
    && (forall j :: 0 <= j < |h.stage| && j != id ==> h'.stage[j] == h.stage[j])
    && h'.timers.Keys <= h.timers.Keys + {k} && h.timers.Keys <= h'.timers.Keys
    && (k in h'.timers || k in h'.book.records)
  }

  lemma LeavingSets(h: History, h': History, fired: set<nat>, id: nat, k: nat)
    requires FiredSets(h, fired) && Leaving(h, h', id, k)
    ensures FiredSets(h', fired)
  {
    forall j | j in fired
      ensures Spent(h', j)
    {
      assert Spent(h, j) && !QueuedIn(h, id, j);
      forall i: nat
        ensures !QueuedIn(h', i, j)
      {
        assert !QueuedIn(h, i, j);
      }
    }
    forall j: nat | j < |h'.book.sets| && 0 < h'.book.sets[j].size && j !in fired
      ensures OnItsWay(h', j)
    {
      assert OnItsWay(h, j);
      if j != k && j !in h.book.records && j !in h.timers {
        var i: nat :| QueuedIn(h, i, j);
        assert QueuedIn(h', i, j);
      }
    }
  }

  lemma EgressLeaving(env: Env, w: World, w': World, u: UserId, p: Packet, now: Timestamp)
    requires env.strategy.WholeMessage? && |w.h.stage| == |w.h.book.ids| && OriginalsLive(w.s.users, w.h)
    requires EgressOk(env, w, u, p, now) && EgressDelta(env, w, w', u, p, now)
    ensures Leaving(w.h, w'.h, MessageOf(p).id, MessageOf(p).fragmentSet)
  {
    hide Timed, PushIngress, TotalDelay, RouteOk, Core;
    var k := MessageOf(p).fragmentSet;
    if k in w.s.users[u].originals { assert OriginalLive(w.h, k); }
  }

  lemma EgressKept(env: Env, w: World, w': World, u: UserId, p: Packet, now: Timestamp)
    requires env.strategy.WholeMessage? && OriginalsLive(w.s.users, w.h)
    requires EgressOk(env, w, u, p, now) && EgressDelta(env, w, w', u, p, now)
    ensures OriginalsLive(w'.s.users, w'.h)
  {
    hide Timed, PushIngress, TotalDelay, RouteOk, Core;
    var users1, m := PopEvent(w.s.users, u), MessageOf(p);
    assert users1[u].originals == w.s.users[u].originals;
    assert w'.h.timers == TimersAfter(env, w.s.users, u, w.h.timers, m);
    forall v, k | v in w'.s.users && k in w'.s.users[v].originals
      ensures OriginalLive(w'.h, k)
    {
      TimedMemory(env, users1, u, now, p, u);
      TimedMemory(env, users1, u, now, p, v);
      if v != u || !SetsTimer(env, w.s.users[u], m) || k != m.fragmentSet {
        assert v in w.s.users && k in w.s.users[v].originals;
        assert OriginalLive(w.h, k);
      }
    }
  }

  // ---------- New sets ----------

  lemma BuildSets(env: Env, nodes: set<NodeId>, h: History, u: UserId, info: SetInfo, packets: seq<Packet>,
                  fired: set<nat>)
    requires FiredSets(h, fired) && PartsOk(env, nodes, h.book, info, packets) && |h.stage| == |h.book.ids|
    requires forall p :: p in packets ==> Core(p).OfMessage?
    ensures FiredSets(AfterBuild(h, u, info, packets), fired)
  {
    hide PartOk, Core;
    var h' := AfterBuild(h, u, info, packets);
    forall k | k in fired
      ensures Spent(h', k)
    {
      assert Spent(h, k);
      forall id: nat
        ensures !QueuedIn(h', id, k)
      {
        assert !QueuedIn(h, id, k);
        if |h.book.ids| <= id < |h'.book.ids| { BuiltSet(env, nodes, h, u, info, packets, id - |h.book.ids|); }
      }
    }
    forall k: nat | k < |h'.book.sets| && 0 < h'.book.sets[k].size && k !in fired
      ensures OnItsWay(h', k)
    {
      if k < |h.book.sets| {
        assert OnItsWay(h, k);
        if k !in h.book.records && k !in h.timers {
          var id: nat :| QueuedIn(h, id, k);
          assert QueuedIn(h', id, k);
        }
      } else {
        BuiltSet(env, nodes, h, u, info, packets, 0);
        assert QueuedIn(h', |h.book.ids|, k);
      }
    }
  }

  /** The messages of a new set belong to it, and are queued. */
  lemma BuiltSet(env: Env, nodes: set<NodeId>, h: History, u: UserId, info: SetInfo, packets: seq<Packet>, i: nat)
    requires PartsOk(env, nodes, h.book, info, packets) && |h.stage| == |h.book.ids| && i < info.size
    requires forall p :: p in packets ==> Core(p).OfMessage?
    ensures QueuedIn(AfterBuild(h, u, info, packets), |h.book.ids| + i, |h.book.sets|)
  {
    hide PartOk, Core, Infos;
    BuildId(env, nodes, h, u, info, packets, i);
    assert AfterBuild(h, u, info, packets).stage[info.base + i] == AllQueued(u, |packets|)[i];
  }

  // ---------- Timeouts ----------

  /** When the timer of a set fires, none of its fragments waits to be sent. */
  lemma TimerIsLast(env: Env, w: World, u: UserId, id: nat, m: Message, now: Timestamp)
    requires Inv(env, w) && RebuildOk(env, w, u, id, m, now) && Event(w.s, u) == AckTimeout(id)
    ensures Unqueued(w.h, id)
  {
    hide Clock, NodesConserved, NodeItems, Tally, MemoriesOk, TimersOk, RootsLive, OnceEach, EgressFirst;
    forall j: nat
      ensures !QueuedIn(w.h, j, id)
    {
      if QueuedIn(w.h, j, id) {
        assert StageOk(env, w.s.nodes.Keys, w.h, j);
        assert UserBag(w.s.users, u)[EgressKey(j)] == One(At(w.h, j, Queued(u)));
        var q := w.s.users[u].events;
        var i := BagMember(q, EventKey, EgressKey(j));
        assert q[i] in q;
        assert UserItemOk(env, w.s.nodes.Keys, w.s.timestamp, w.h.book, u, q[i]);
        EgressBefore(q, 0, i);
        assert false;
      }
    }
  }

  lemma UntimedSets(h: History, id: nat, fired: set<nat>)
    requires FiredSets(h, fired) && id < |h.book.sets| && 0 < h.book.sets[id].size && Unqueued(h, id)
    ensures FiredSets(Untimed(h, id), fired + {id})
  {
    var h' := Untimed(h, id);
    assert forall j, k :: QueuedIn(h', j, k) <==> QueuedIn(h, j, k);
    forall k | k in fired + {id}
      ensures Spent(h', k)
    {
      if k in fired { assert Spent(h, k); }
    }
    forall k: nat | k < |h'.book.sets| && 0 < h'.book.sets[k].size && k !in fired + {id}
      ensures OnItsWay(h', k)
    {
      assert OnItsWay(h, k);
      if k !in h.book.records && k !in h.timers {
        var j: nat :| QueuedIn(h, j, k);
        assert QueuedIn(h', j, k);
      }
    }
  }

  lemma TimeoutSets(env: Env, w: World, w': World, u: UserId, id: nat, m: Message, now: Timestamp,
                    packets: seq<Packet>, fired: set<nat>)
    requires Inv(env, w) && FiredSets(w.h, fired) && RebuildOk(env, w, u, id, m, now)
    requires Event(w.s, u) == AckTimeout(id) && RebuildDelta(env, w, w', u, id, m, now, packets)
    ensures FiredSets(w'.h, fired + {id}) && id !in fired
  {
    hide Queues, Live, Tally, BookOk, MemoriesOk, TimersOk, FiredSets;
    TimerIsLast(env, w, u, id, m, now);
    FiredAreSpent(w.h, fired);
    UntimedSets(w.h, id, fired);
    BuildSets(env, w.s.nodes.Keys, Untimed(w.h, id), u, RebuildInfo(w.h, id, m), packets, fired + {id});
  }

  lemma FiredAreSpent(h: History, fired: set<nat>)
    requires FiredSets(h, fired)
    ensures forall k :: k in fired ==> k !in h.timers && k < |h.book.sets|
  {
    forall k | k in fired
      ensures k !in h.timers && k < |h.book.sets|
    {
      assert Spent(h, k);
    }
  }

  /** Only the sender of a set keeps its message. */
  lemma OwnOriginal(env: Env, w: World, u: UserId, id: nat, m: Message, now: Timestamp, v: UserId, k: nat)
    requires Books(env, w.s, w.h) && RebuildOk(env, w, u, id, m, now)
    requires v in w.s.users && k in w.s.users[v].originals
    ensures k == id ==> v == u
  {
    hide Tally, BookOk, StagesOk, TimersOk;
    assert MemoryOk(env, w.s.nodes.Keys, w.s.timestamp, w.h.book, v, w.s.users[v]);
    assert OriginalOk(env, w.s.nodes.Keys, w.h.book, v, k, w.s.users[v].originals[k]);
  }

  lemma TimeoutKept(env: Env, w: World, w': World, u: UserId, id: nat, m: Message, now: Timestamp,
                    packets: seq<Packet>)
    requires Books(env, w.s, w.h) && OriginalsLive(w.s.users, w.h)
    requires RebuildOk(env, w, u, id, m, now) && RebuildDelta(env, w, w', u, id, m, now, packets)
    ensures OriginalsLive(w'.s.users, w'.h)
  {
    hide Books, PartsOk;
    forall v, k | v in w'.s.users && k in w'.s.users[v].originals
      ensures OriginalLive(w'.h, k)
    {
      ClearedOriginals(w.s.users, u, id, m, now, packets, v);
      assert k in w.s.users[v].originals && OriginalLive(w.h, k);
      OwnOriginal(env, w, u, id, m, now, v, k);
    }
  }

  lemma ClearedOriginals(users: Users, u: UserId, id: nat, m: Message, now: Timestamp, packets: seq<Packet>, v: UserId)
    requires u in users && users[u].events != [] && m.recipient in users && v in users
    ensures var users' := PushEgresses(ClearedUsers(users, u, id, m), u, now, packets);
            && v in users'
            && users'[v].originals == if v == u then users[u].originals - {id} else users[v].originals
  {
  }

  // ---------- Steps ----------

  ghost predicate FiredInv(w: World, fired: set<nat>) {
    FiredSets(w.h, fired) && OriginalsLive(w.s.users, w.h)
  }

  lemma StagesCount(env: Env, w: World)
    requires Inv(env, w)
    ensures |w.h.stage| == |w.h.book.ids|
  {
  }

  lemma SendFired(env: Env, w: World, u: UserId, fired: set<nat>)
    requires Turn(env, w, AtUser(u)) && Event(w.s, u).SendMessage? && FiredInv(w, fired)
    ensures CanStep(env, w, AtUser(u)) && FiredInv(After(env, w, AtUser(u)), fired)
  {
    hide Inv, Fire, FiredSets;
    SendFires(env, w, u);
    StagesCount(env, w);
    var n, now := Event(w.s, u).numFrags, UserTime(w.s, u);
    var packets := SentPackets(env, w.s, u, n);
    BuildSets(env, w.s.nodes.Keys, w.h, u, SendInfo(w.h, u, n, now), packets, fired);
    SendMemory(w, After(env, w, AtUser(u)), u, now, packets);
    BuildKept(w.s.users, After(env, w, AtUser(u)).s.users, w.h, After(env, w, AtUser(u)).h);
  }

  lemma BuildKept(users: Users, users': Users, h: History, h': History)
    requires OriginalsLive(users, h) && SameMemories(users, users')
    requires h.book.sets <= h'.book.sets && h'.timers == h.timers && h'.book.records == h.book.records
    ensures OriginalsLive(users', h')
  {
    forall u, k | u in users' && k in users'[u].originals
      ensures OriginalLive(h', k)
    {
      assert k in users[u].originals && OriginalLive(h, k);
    }
  }

  lemma EgressFired(env: Env, w: World, u: UserId, fired: set<nat>)
    requires Turn(env, w, AtUser(u)) && Event(w.s, u).Egress? && env.strategy.WholeMessage? && FiredInv(w, fired)
    ensures CanStep(env, w, AtUser(u)) && FiredInv(After(env, w, AtUser(u)), fired)
  {
    hide Inv, Fire, FiredSets, OriginalsLive, Leaving;
    EgressReady(env, w, u);
    EgressFires(env, w, u);
    StagesCount(env, w);
    var p, now, w' := Event(w.s, u).packet, UserTime(w.s, u), After(env, w, AtUser(u));
    EgressLeaving(env, w, w', u, p, now);
    LeavingSets(w.h, w'.h, fired, MessageOf(p).id, MessageOf(p).fragmentSet);
    EgressKept(env, w, w', u, p, now);
  }

  lemma TimeoutFired(env: Env, w: World, u: UserId, fired: set<nat>)
    requires Turn(env, w, AtUser(u)) && Event(w.s, u).AckTimeout? && env.strategy.WholeMessage? && FiredInv(w, fired)
    ensures CanStep(env, w, AtUser(u)) && Event(w.s, u).id !in fired
    ensures FiredInv(After(env, w, AtUser(u)), fired + {Event(w.s, u).id})
  {
    hide Queues, Tally, BookOk, StagesOk, MemoriesOk, TimersOk, Live, Fire, FiredSets, OriginalsLive;
    RebuildTurn(env, w, u);
    var id, now, w' := Event(w.s, u).id, UserTime(w.s, u), After(env, w, AtUser(u));
    var m := w.s.users[u].originals[id];
    var packets := RebuiltPackets(env, ClearedState(w.s, u, id, m), m);
    TimeoutSets(env, w, w', u, id, m, now, packets, fired);
    TimeoutKept(env, w, w', u, id, m, now, packets);
  }

  /** A step adds the timer that it fires, which has not fired before. */
  lemma StepFired(env: Env, w: World, who: Who, fired: set<nat>)
    requires Inv(env, w) && CanStep(env, w, who) && env.strategy.WholeMessage? && FiredInv(w, fired)
    ensures FiredInv(After(env, w, who), fired + FiredAt(w, who)) && FiredAt(w, who) !! fired
  {
    hide Inv, Fire, After, FiredSets, OriginalsLive, Quiet, SameOriginals;
    var w' := After(env, w, who);
    assert fired + {} == fired;
    match who {
      case AtNode(n) =>
        NodeQuiet(env, w, n);
        NodeOriginalsOf(env, w, n);
        QuietSets(w.h, w'.h, fired);
        QuietKept(w.s.users, w'.s.users, w.h, w'.h);
      case AtUser(u) =>
        match Event(w.s, u) {
          case Handover(m) =>
            HandoverReady(env, w, u);
            HandoverFires(env, w, u);
            HandoverQuiet(env, w, w', u, m, UserTime(w.s, u));
            QuietSets(w.h, w'.h, fired);
            QuietKept(w.s.users, w'.s.users, w.h, w'.h);
          case Egress(_) => EgressFired(env, w, u, fired);
          case SendMessage(_) => SendFired(env, w, u, fired);
          case AckTimeout(_) => TimeoutFired(env, w, u, fired);
        }
    }
  }

  lemma NodeOriginalsOf(env: Env, w: World, n: NodeId)
    requires CanStep(env, w, AtNode(n))
    ensures SameOriginals(w.s.users, After(env, w, AtNode(n)).s.users)
  {
    hide FireNode, SameOriginals;
    NodeOriginals(env, w.s, n);
  }

  lemma {:induction false} RunFired(env: Env, w: World, schedule: seq<Who>, w': World, fired: set<nat>)
    requires Inv(env, w) && Leads(env, w, schedule, w') && env.strategy.WholeMessage? && FiredInv(w, fired)
    ensures FiredInv(w', fired + FiredIn(env, w, schedule)) && FiredIn(env, w, schedule) !! fired
    decreases |schedule|
  {
    hide Inv, FiredInv, FiredAt, IsNext, Fire, After;
    if schedule == [] {
      LeadsNowhere(env, w, w');
      assert fired + {} == fired;
    } else {
      LeadsOn(env, w, schedule, w');
      var who := schedule[0];
      var fired1, w1 := fired + FiredAt(w, who), After(env, w, who);
      StepKeeps(env, w, who);
      StepFired(env, w, who, fired);
      RunFired(env, w1, schedule[1..], w', fired1);
      assert fired1 + FiredIn(env, w1, schedule[1..]) == fired + FiredIn(env, w, schedule);
    }
  }

  // ---------- Every timer fires at most once ----------

  lemma FiringIsFired(w: World, who: Who, k: nat)
    ensures FiringOf(k)(w, who) <==> k in FiredAt(w, who)
  {
  }

  /** The timers that fire are those of the run, and each fires once. */
  lemma {:induction false} RunFiresOnce(env: Env, w: World, schedule: seq<Who>, w': World, fired: set<nat>, k: nat)
    requires Inv(env, w) && Leads(env, w, schedule, w') && env.strategy.WholeMessage? && FiredInv(w, fired)
    ensures Steps(env, w, schedule, FiringOf(k)) == One(k in FiredIn(env, w, schedule))
    decreases |schedule|
  {
    hide Inv, FiredInv, FiredAt, IsNext, Fire, After, FiresTimer;
    if schedule != [] {
      LeadsOn(env, w, schedule, w');
      var who := schedule[0];
      var fired1, w1 := fired + FiredAt(w, who), After(env, w, who);
      StepKeeps(env, w, who);
      StepFired(env, w, who, fired);
      FiringIsFired(w, who, k);
      RunFiresOnce(env, w1, schedule[1..], w', fired1, k);
      RunFired(env, w1, schedule[1..], w', fired1);
    }
  }

  lemma StartFired(w: World)
    requires Start(w)
    ensures FiredInv(w, {})
  {
  }

  /** WholeMessage: in no run does the timer of a set fire twice. */
  lemma TimersFireOnce(env: Env, w: World, schedule: seq<Who>, w': World, k: nat)
    requires Reachable(env, w) && Leads(env, w, schedule, w') && env.strategy.WholeMessage?
    ensures Steps(env, w, schedule, FiringOf(k)) <= 1
  {
    hide Inv, FiredInv, Steps, Start, Leads;
    var w0, before :| Start(w0) && Leads(env, w0, before, w);
    StartKeeps(env, w0);
    StartFired(w0);
    RunKeeps(env, w0, before, w);
    RunFired(env, w0, before, w, {});
    RunFiresOnce(env, w, schedule, w', {} + FiredIn(env, w0, before), k);
  }
}
