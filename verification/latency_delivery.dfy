/** What has been delivered when a run halts, and what each delivery record stands for. */
module LatencyDelivery {
  import opened EventQueue
  import opened LatencySim
  import opened LatencyHistory
  import opened LatencyInvariant
  import opened LatencyQueues
  import opened LatencyNodeSteps
  import opened LatencyUserSteps
  import opened LatencyEgressSteps
  import opened LatencySendSteps
  import opened LatencyResendSteps
  import opened LatencyRebuildSteps
  import opened LatencyRuns

  // ---------- SendMessage events are used up one by one ----------

  ghost function Sends(users: Users, u: UserId, n: nat): nat
    requires u in users
  {
    UserBag(users, u)[SendKey(n)]
  }

  lemma {:induction false} BatchSends(q: Queue<UserEvent>, t: Timestamp, packets: seq<Packet>, n: nat)
    ensures Bag(InsertEgresses(q, t, packets), EventKey)[SendKey(n)] == Bag(q, EventKey)[SendKey(n)]
    decreases |packets|
  {
    if packets != [] {
      BagInsert(q, t, Egress(packets[0]), EventKey);
      BatchSends(Insert(q, t, Egress(packets[0])), t, packets[1..], n);
    }
  }

  lemma SameSends(users: Users, users': Users, u: UserId, n: nat)
    requires u in users && u in users' && users'[u].events == users[u].events
    ensures Sends(users', u, n) == Sends(users, u, n)
  {
  }

  lemma NodeStepSends(env: Env, w: World, x: NodeId, u: UserId, n: nat)
    requires Turn(env, w, AtNode(x)) && u in w.s.users
    ensures CanStep(env, w, AtNode(x)) && u in After(env, w, AtNode(x)).s.users
    ensures Sends(After(env, w, AtNode(x)).s.users, u, n) == Sends(w.s.users, u, n)
  {
    StepKeeps(env, w, AtNode(x));
    match Head(w.s, x).content {
      case OfMessage(m) =>
        MessageFires(env, w, x);
        PushUserCount(w.s.users, m.recipient, NodeTime(w.s, x), Handover(m), u, SendKey(n));
      case OfAck(a) =>
        AckFires(env, w, x);
        CancelUserCount(w.s.users, a.recipient, a.messageId, u, SendKey(n));
      case OfPacket(_) => RelayFires(env, w, x);
    }
  }

  /** Is this the step that takes a SendMessage(n) event from user `u`? */
  ghost predicate Takes(w: World, who: Who, u: UserId, n: nat) {
    who == AtUser(u) && BusyUser(w.s, u) && Event(w.s, u) == SendMessage(n)
  }

  lemma HandoverSends(env: Env, w: World, x: UserId, u: UserId, n: nat)
    requires Turn(env, w, AtUser(x)) && u in w.s.users && Event(w.s, x).Handover?
    ensures CanStep(env, w, AtUser(x)) && u in After(env, w, AtUser(x)).s.users
    ensures Sends(After(env, w, AtUser(x)).s.users, u, n) == Sends(w.s.users, u, n)
  {
    HandoverReady(env, w, x);
    HandoverFires(env, w, x);
    PopUserCount(w.s.users, x, u, SendKey(n));
    SameSends(PopEvent(w.s.users, x), After(env, w, AtUser(x)).s.users, u, n);
  }

  lemma EgressSends(env: Env, w: World, x: UserId, u: UserId, n: nat)
    requires Turn(env, w, AtUser(x)) && u in w.s.users && Event(w.s, x).Egress?
    ensures CanStep(env, w, AtUser(x)) && u in After(env, w, AtUser(x)).s.users
    ensures Sends(After(env, w, AtUser(x)).s.users, u, n) == Sends(w.s.users, u, n)
  {
    hide Inv;
    EgressReady(env, w, x);
    EgressFires(env, w, x);
    PopUserCount(w.s.users, x, u, SendKey(n));
    TimedSends(env, PopEvent(w.s.users, x), x, UserTime(w.s, x), Event(w.s, x).packet, u, n);
  }

  lemma TimedSends(env: Env, users: Users, x: UserId, now: Timestamp, p: Packet, u: UserId, n: nat)
    requires x in users && u in users && Core(p).OfMessage?
    ensures u in Timed(env, users, x, now, p) && Sends(Timed(env, users, x, now, p), u, n) == Sends(users, u, n)
  {
    var m := MessageOf(p);
    TimedShape(env, users, x, now, p);
    if SetsTimer(env, users[x], m) {
      var id := TimerId(env, m);
      PushUserCount(Kept(users, x, id, m), x, now + env.timeout(TotalDelay(p)), AckTimeout(id), u, SendKey(n));
      SameSends(users, Kept(users, x, id, m), u, n);
    }
  }

  lemma BatchedSends(users: Users, x: UserId, now: Timestamp, packets: seq<Packet>, u: UserId, n: nat)
    requires x in users && u in users
    ensures u in PushEgresses(users, x, now, packets)
    ensures Sends(PushEgresses(users, x, now, packets), u, n) == Sends(users, u, n)
  {
    BatchSends(users[x].events, now, packets, n);
  }

  lemma SendSends(env: Env, w: World, x: UserId, u: UserId, n: nat)
    requires Turn(env, w, AtUser(x)) && u in w.s.users && Event(w.s, x).SendMessage?
    ensures CanStep(env, w, AtUser(x)) && u in After(env, w, AtUser(x)).s.users
    ensures Sends(w.s.users, u, n) == Sends(After(env, w, AtUser(x)).s.users, u, n) + One(Takes(w, AtUser(x), u, n))
  {
    hide Inv;
    SendFires(env, w, x);
    PopUserCount(w.s.users, x, u, SendKey(n));
    BatchedSends(PopEvent(w.s.users, x), x, UserTime(w.s, x), SentPackets(env, w.s, x, Event(w.s, x).numFrags), u, n);
  }

  lemma ResendSends(env: Env, w: World, x: UserId, u: UserId, n: nat)
    requires Turn(env, w, AtUser(x)) && u in w.s.users && Event(w.s, x).AckTimeout? && env.strategy.PerFragment?
    ensures CanStep(env, w, AtUser(x)) && u in After(env, w, AtUser(x)).s.users
    ensures Sends(After(env, w, AtUser(x)).s.users, u, n) == Sends(w.s.users, u, n)
  {
    hide Inv;
    ResendFires(env, w, x);
    var id := Event(w.s, x).id;
    var p := RenewedPacket(env, Forgetful(w.s, x, id), x, w.s.users[x].originals[id]);
    ForgottenSends(w.s.users, x, id, UserTime(w.s, x), p, u, n);
    PopUserCount(w.s.users, x, u, SendKey(n));
  }

  lemma ForgottenSends(users: Users, x: UserId, id: nat, now: Timestamp, p: Packet, u: UserId, n: nat)
    requires x in users && users[x].events != [] && u in users
    ensures var users' := PushEvent(Forgotten(PopEvent(users, x), x, id), x, now, Egress(p));
            u in users' && Sends(users', u, n) == Sends(PopEvent(users, x), u, n)
  {
    var users1 := Forgotten(PopEvent(users, x), x, id);
    SameSends(PopEvent(users, x), users1, u, n);
    PushUserCount(users1, x, now, Egress(p), u, SendKey(n));
  }

  lemma RebuildSends(env: Env, w: World, x: UserId, u: UserId, n: nat)
    requires Turn(env, w, AtUser(x)) && u in w.s.users && Event(w.s, x).AckTimeout? && env.strategy.WholeMessage?
    ensures CanStep(env, w, AtUser(x)) && u in After(env, w, AtUser(x)).s.users
    ensures Sends(After(env, w, AtUser(x)).s.users, u, n) == Sends(w.s.users, u, n)
  {
    hide Inv, Sends;
    RebuildTurn(env, w, x);
    var id, now := Event(w.s, x).id, UserTime(w.s, x);
    var m := w.s.users[x].originals[id];
    ClearedSends(w.s.users, x, id, m, now, RebuiltPackets(env, ClearedState(w.s, x, id, m), m), u, n);
    PoppedSends(w.s.users, x, u, n);
  }

  lemma PoppedSends(users: Users, x: UserId, u: UserId, n: nat)
    requires x in users && users[x].events != [] && u in users && !users[x].events[0].1.SendMessage?
    ensures u in PopEvent(users, x) && Sends(PopEvent(users, x), u, n) == Sends(users, u, n)
  {
  }

  lemma ClearedSends(users: Users, x: UserId, id: nat, m: Message, now: Timestamp, packets: seq<Packet>, u: UserId,
                     n: nat)
    requires x in users && users[x].events != [] && u in users && m.recipient in users
    ensures var users' := PushEgresses(ClearedUsers(users, x, id, m), x, now, packets);
            u in users' && Sends(users', u, n) == Sends(PopEvent(users, x), u, n)
  {
    var users1 := ClearedUsers(users, x, id, m);
    SameSends(PopEvent(users, x), users1, u, n);
    BatchedSends(users1, x, now, packets, u, n);
  }

  lemma StepSends(env: Env, w: World, who: Who, u: UserId, n: nat)
    requires Inv(env, w) && CanStep(env, w, who) && u in w.s.users
    ensures u in After(env, w, who).s.users
    ensures Sends(w.s.users, u, n) == Sends(After(env, w, who).s.users, u, n) + One(Takes(w, who, u, n))
  {
    match who {
      case AtNode(x) => NodeStepSends(env, w, x, u, n);
      case AtUser(x) =>
        match Event(w.s, x) {
          case Handover(_) => HandoverSends(env, w, x, u, n);
          case Egress(_) => EgressSends(env, w, x, u, n);
          case SendMessage(_) => SendSends(env, w, x, u, n);
          case AckTimeout(_) =>
            if env.strategy.PerFragment? { ResendSends(env, w, x, u, n); } else { RebuildSends(env, w, x, u, n); }
        }
    }
  }

  // ---------- Each of them becomes one root set ----------

  /** Set `k` was built for a SendMessage(n) event of user `u`, not for a retransmission. */
  predicate IsRoot(sets: seq<SetInfo>, k: nat, u: UserId, n: nat) {
    k < |sets| && sets[k].root == k && sets[k].sender == u && sets[k].size == n
  }

  ghost function Roots(sets: seq<SetInfo>, u: UserId, n: nat): set<nat> {
    set k: nat | k < |sets| && IsRoot(sets, k, u, n)
  }

  lemma RootsAppend(sets: seq<SetInfo>, info: SetInfo, u: UserId, n: nat)
    ensures |Roots(sets + [info], u, n)| == |Roots(sets, u, n)| + One(IsRoot(sets + [info], |sets|, u, n))
  {
    var r, r' := Roots(sets, u, n), Roots(sets + [info], u, n);
    assert forall k: nat :: k < |sets| ==> IsRoot(sets + [info], k, u, n) == IsRoot(sets, k, u, n);
    if IsRoot(sets + [info], |sets|, u, n) {
      assert r' == r + {|sets|};
    } else {
      assert r' == r;
    }
  }

  lemma QuietRoots(env: Env, w: World, who: Who, u: UserId, n: nat)
    requires CanStep(env, w, who)
    requires who.AtUser? ==> Event(w.s, who.user).Handover? || Event(w.s, who.user).Egress?
    ensures Roots(After(env, w, who).h.book.sets, u, n) == Roots(w.h.book.sets, u, n)
  {
    assert Advance(env, w.s, w.h, who).book.sets == w.h.book.sets;
  }

  lemma SendRoots(env: Env, w: World, x: UserId, u: UserId, n: nat)
    requires Turn(env, w, AtUser(x)) && Event(w.s, x).SendMessage?
    ensures CanStep(env, w, AtUser(x))
    ensures |Roots(After(env, w, AtUser(x)).h.book.sets, u, n)|
            == |Roots(w.h.book.sets, u, n)| + One(Takes(w, AtUser(x), u, n))
  {
    SendFires(env, w, x);
    RootsAppend(w.h.book.sets, SendInfo(w.h, x, Event(w.s, x).numFrags, UserTime(w.s, x)), u, n);
  }

  lemma TimeoutRoots(env: Env, w: World, x: UserId, u: UserId, n: nat)
    requires Turn(env, w, AtUser(x)) && Event(w.s, x).AckTimeout?
    ensures CanStep(env, w, AtUser(x))
    ensures |Roots(After(env, w, AtUser(x)).h.book.sets, u, n)| == |Roots(w.h.book.sets, u, n)|
  {
    TimeoutReady(env, w, x);
    var id := Event(w.s, x).id;
    var m := w.s.users[x].originals[id];
    if env.strategy.PerFragment? {
      ResendFires(env, w, x);
    } else {
      RebuildReady(env, w, x);
      RebuildChanges(env, w, x, id, m);
      RootsAppend(w.h.book.sets, RebuildInfo(w.h, id, m), u, n);
    }
  }

  /** Only a SendMessage event makes a new root. */
  lemma StepRoots(env: Env, w: World, who: Who, u: UserId, n: nat)
    requires Inv(env, w) && CanStep(env, w, who)
    ensures |Roots(After(env, w, who).h.book.sets, u, n)| == |Roots(w.h.book.sets, u, n)| + One(Takes(w, who, u, n))
  {
    match who {
      case AtNode(_) => QuietRoots(env, w, who, u, n);
      case AtUser(x) =>
        match Event(w.s, x) {
          case SendMessage(_) => SendRoots(env, w, x, u, n);
          case AckTimeout(_) => TimeoutRoots(env, w, x, u, n);
          case _ => QuietRoots(env, w, who, u, n);
        }
    }
  }

  /** Events waiting and roots made always add up. */
  lemma {:induction false} SendsBalance(env: Env, w: World, schedule: seq<Who>, w': World, u: UserId, n: nat)
    requires Inv(env, w) && Leads(env, w, schedule, w') && u in w.s.users
    ensures u in w'.s.users
    ensures Sends(w'.s.users, u, n) + |Roots(w'.h.book.sets, u, n)|
            == Sends(w.s.users, u, n) + |Roots(w.h.book.sets, u, n)|
    decreases |schedule|
  {
    if schedule == [] {
      LeadsNowhere(env, w, w');
    } else {
      LeadsOn(env, w, schedule, w');
      StepSends(env, w, schedule[0], u, n);
      StepRoots(env, w, schedule[0], u, n);
      StepKeeps(env, w, schedule[0]);
      SendsBalance(env, After(env, w, schedule[0]), schedule[1..], w', u, n);
    }
  }

  // ---------- Halting means delivered ----------

  lemma EmptyBag(s: State, u: UserId, k: UserKey)
    requires NoMoreEvents(s) && u in s.users
    ensures UserBag(s.users, u)[k] == 0
  {
    assert !BusyUser(s, u);
  }

  lemma NothingWaits(env: Env, w: World, id: nat)
    requires Inv(env, w) && NoMoreEvents(w.s)
    ensures !Waiting(w.h, id)
  {
    if id < |w.h.stage| && w.h.stage[id].Queued? {
      assert StageOk(env, w.s.nodes.Keys, w.h, id);
      var u := w.h.stage[id].user;
      assert SetOk(env, w.s.users.Keys, w.s.timestamp, w.h.book, w.h.book.ids[id].fragmentSet);
      assert UserBag(w.s.users, u)[EgressKey(id)] == One(At(w.h, id, Queued(u)));
      EmptyBag(w.s, u, EgressKey(id));
    }
    if id in w.h.timers {
      var u := w.h.timers[id];
      assert UserBag(w.s.users, u)[TimerKey(id)] == One(TimerAt(w.h, id, u));
      EmptyBag(w.s, u, TimerKey(id));
    }
  }

  lemma {:induction false} RangeCard(n: nat) returns (r: set<nat>)
    ensures |r| == n && forall i: nat :: i in r <==> i < n
  {
    if n == 0 {
      r := {};
    } else {
      var smaller := RangeCard(n - 1);
      r := smaller + {n - 1};
    }
  }

  lemma HaltedFragments(env: Env, w: World, k: nat)
    requires Inv(env, w) && NoMoreEvents(w.s) && env.strategy.PerFragment?
    requires k < |w.h.book.sets| && 0 < w.h.book.sets[k].size
    ensures k in w.h.book.records
  {
    hide Queues;
    var info := w.h.book.sets[k];
    assert SetOk(env, w.s.users.Keys, w.s.timestamp, w.h.book, k);
    var u := info.recipient;
    forall i: nat | i < info.size
      ensures Holds(w.s.users, u, k, i)
    {
      assert FragmentLive(w.s.users, w.h, k, i);
      NothingWaits(env, w, w.h.current[(k, i)]);
    }
    assert Holds(w.s.users, u, k, 0);
    assert MemoryOk(env, w.s.nodes.Keys, w.s.timestamp, w.h.book, u, w.s.users[u]);
    assert FragmentsOk(w.h.book, u, w.s.users[u], k);
    var r := RangeCard(info.size);
    forall i: nat
      ensures i in w.s.users[u].fragments[k] <==> i in r
    {
      if i < info.size { assert Holds(w.s.users, u, k, i); }
    }
    assert w.s.users[u].fragments[k] == r;
  }

  lemma HaltedRoot(env: Env, w: World, r: nat)
    requires Inv(env, w) && NoMoreEvents(w.s)
    requires r < |w.h.book.sets| && w.h.book.sets[r].root == r && 0 < w.h.book.sets[r].size
    ensures RootRecorded(w.h.book, r)
  {
    hide Books;
    match env.strategy {
      case PerFragment => HaltedFragments(env, w, r);
      case WholeMessage =>
        if !RootRecorded(w.h.book, r) {
          var k :| 0 <= k < |w.h.book.sets| && w.h.book.sets[k].root == r && SetPending(w.h, k);
          if k !in w.h.timers {
            var id: nat :| QueuedIn(w.h, id, k);
            NothingWaits(env, w, id);
          } else {
            NothingWaits(env, w, k);
          }
        }
    }
  }

  lemma EmptyRoots(u: UserId, n: nat)
    ensures Roots([], u, n) == {}
  {
  }

  /** When a run halts, every SendMessage event of every user has become a root set, and every root set
      with at least one fragment has been recorded as delivered, itself or in a set rebuilt for it. */
  lemma HaltingMeansDelivered(env: Env, w0: World, schedule: seq<Who>, w: World)
    requires Start(w0) && Leads(env, w0, schedule, w) && NoMoreEvents(w.s)
    ensures w.s.users.Keys == w0.s.users.Keys
    ensures forall u, n :: u in w0.s.users ==> |Roots(w.h.book.sets, u, n)| == Sends(w0.s.users, u, n)
    ensures forall u, n: nat, r :: u in w0.s.users && 0 < n && r in Roots(w.h.book.sets, u, n) ==>
              RootRecorded(w.h.book, r)
  {
    hide Inv, Leads, RootRecorded;
    StartKeeps(env, w0);
    RunKeeps(env, w0, schedule, w);
    RunUsers(env, w0, schedule, w);
    forall u, n | u in w0.s.users
      ensures |Roots(w.h.book.sets, u, n)| == Sends(w0.s.users, u, n)
    {
      SendsBalance(env, w0, schedule, w, u, n);
      EmptyRoots(u, n);
      assert !BusyUser(w.s, u);
    }
    forall u, n: nat, r | u in w0.s.users && 0 < n && r in Roots(w.h.book.sets, u, n)
      ensures RootRecorded(w.h.book, r)
    {
      HaltedRoot(env, w, r);
    }
  }

  predicate SameIds(s: State, o: Outcome) {
    o.Stepped? ==> o.state.users.Keys == s.users.Keys && o.state.nodes.Keys == s.nodes.Keys
  }

  lemma HandoverIdsSame(env: Env, s: State, u: UserId, m: Message)
    requires u in s.users
    ensures SameIds(s, OnHandover(env, s, u, m))
  {
  }

  lemma EgressIdsSame(env: Env, s: State, u: UserId, p: Packet)
    requires u in s.users
    ensures SameIds(s, OnEgress(env, s, u, p))
  {
  }

  lemma TimeoutIdsSame(env: Env, s: State, u: UserId, id: nat)
    requires u in s.users
    ensures SameIds(s, OnAckTimeout(env, s, u, id))
  {
  }

  lemma NodeIdsSame(env: Env, s: State, n: NodeId)
    requires BusyNode(s, n)
    ensures SameIds(s, FireNode(env, s, n))
  {
  }

  lemma UserIdsSame(env: Env, s: State, u: UserId)
    requires BusyUser(s, u)
    ensures SameIds(s, FireUser(env, s, u))
  {
    var s1 := Popped(s, u);
    assert s1.users.Keys == s.users.Keys;
    match Event(s, u) {
      case Handover(m) => HandoverIdsSame(env, s1, u, m);
      case Egress(p) => EgressIdsSame(env, s1, u, p);
      case SendMessage(n) => assert SameIds(s1, OnSendMessage(env, s1, u, n));
      case AckTimeout(id) => TimeoutIdsSame(env, s1, u, id);
    }
  }

  /** No step adds or removes a node or a user. */
  lemma StepUsers(env: Env, w: World, who: Who)
    requires CanStep(env, w, who)
    ensures After(env, w, who).s.users.Keys == w.s.users.Keys && After(env, w, who).s.nodes.Keys == w.s.nodes.Keys
  {
    match who {
      case AtNode(n) => NodeIdsSame(env, w.s, n);
      case AtUser(u) => UserIdsSame(env, w.s, u);
    }
  }

  lemma {:induction false} RunUsers(env: Env, w: World, schedule: seq<Who>, w': World)
    requires Leads(env, w, schedule, w')
    ensures w'.s.users.Keys == w.s.users.Keys && w'.s.nodes.Keys == w.s.nodes.Keys
    decreases |schedule|
  {
    if schedule == [] {
      LeadsNowhere(env, w, w');
    } else {
      LeadsOn(env, w, schedule, w');
      StepUsers(env, w, schedule[0]);
      RunUsers(env, After(env, w, schedule[0]), schedule[1..], w');
    }
  }

  ghost function RecordedRoots(book: Book, records: seq<nat>): set<nat> {
    set i | 0 <= i < |records| && records[i] < |book.sets| :: book.sets[records[i]].root
  }

  lemma RecordedAppend(book: Book, records: seq<nat>, k: nat)
    ensures RecordedRoots(book, records + [k])
         == RecordedRoots(book, records) + if k < |book.sets| then {book.sets[k].root} else {}
  {
    var all := records + [k];
    forall i | 0 <= i < |all| && all[i] < |book.sets|
      ensures book.sets[all[i]].root in RecordedRoots(book, records) || (k < |book.sets| && i == |records|)
    {
      if i < |records| { assert all[i] == records[i]; }
    }
    forall r | r in RecordedRoots(book, records)
      ensures r in RecordedRoots(book, all)
    {
      var i :| 0 <= i < |records| && records[i] < |book.sets| && r == book.sets[records[i]].root;
      assert all[i] == records[i];
    }
    if k < |book.sets| { assert all[|records|] == k; }
  }

  lemma {:induction false} FewRoots(book: Book, records: seq<nat>)
    ensures |RecordedRoots(book, records)| <= |records|
  {
    if records == [] {
      assert RecordedRoots(book, records) == {};
    } else {
      var last := |records| - 1;
      FewRoots(book, records[..last]);
      RecordedAppend(book, records[..last], records[last]);
      assert records[..last] + [records[last]] == records;
    }
  }

  lemma {:induction false} SubsetCard(a: set<nat>, b: set<nat>)
    requires a <= b
    ensures |a| <= |b|
  {
    if a != {} {
      var x :| x in a;
      SubsetCard(a - {x}, b - {x});
    }
  }
}
