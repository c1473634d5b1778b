/** When a message is recorded once, and when again. */
module LatencyOnce {
  import opened EventQueue
  import opened LatencySim
  import opened LatencyHistory
  import opened LatencyInvariant
  import opened LatencyNodeSteps
  import opened LatencyUserSteps
  import opened LatencyEgressSteps
  import opened LatencyBuilds
  import opened LatencySendSteps
  import opened LatencyResendSteps
  import opened LatencyRuns
  import opened LatencyTiming
  import opened LatencyDelivery
  import opened LatencyTotals
  import opened LatencyRecords
  import opened LatencyTermination

  // ---------- How often a set is recorded ----------

  /** Is this a step at which set `k` is recorded? */
  ghost predicate RecordsSet(env: Env, w: World, who: Who, k: nat) {
    && who.AtUser? && BusyUser(w.s, who.user) && Event(w.s, who.user).Handover?
    && Event(w.s, who.user).message.fragmentSet == k && Records(env, w, who.user, Event(w.s, who.user).message)
  }

  ghost function RecordingOf(env: Env, k: nat): (World, Who) -> bool {
    (w, who) => RecordsSet(env, w, who, k)
  }

  lemma SameRecords(env: Env, w: World, who: Who)
    requires CanStep(env, w, who) && (who.AtUser? ==> !Event(w.s, who.user).Handover?)
    ensures After(env, w, who).h.book.records == w.h.book.records
  {
    hide Fire;
    match who {
      case AtNode(n) => assert AdvanceNode(env, w.h, Head(w.s, n).content).book == w.h.book;
      case AtUser(u) =>
    }
  }

  lemma StepRecordings(env: Env, w: World, who: Who, k: nat)
    requires Inv(env, w) && CanStep(env, w, who)
    ensures multiset(After(env, w, who).h.book.records)[k]
         == multiset(w.h.book.records)[k] + One(RecordsSet(env, w, who, k))
  {
    hide Inv, Fire;
    if who.AtUser? && Event(w.s, who.user).Handover? {
      HandoverReady(env, w, who.user);
      HandoverFires(env, w, who.user);
    } else {
      SameRecords(env, w, who);
    }
  }

  /** The records of the books are those of the run. */
  lemma {:induction false} RunRecordings(env: Env, w: World, schedule: seq<Who>, w': World, k: nat)
    requires Inv(env, w) && Leads(env, w, schedule, w')
    ensures multiset(w'.h.book.records)[k]
         == multiset(w.h.book.records)[k] + Steps(env, w, schedule, RecordingOf(env, k))
    decreases |schedule|
  {
    hide Inv, RecordsSet, IsNext, Fire, After;
    if schedule == [] {
      LeadsNowhere(env, w, w');
    } else {
      LeadsOn(env, w, schedule, w');
      StepKeeps(env, w, schedule[0]);
      StepRecordings(env, w, schedule[0], k);
      RunRecordings(env, After(env, w, schedule[0]), schedule[1..], w', k);
    }
  }

  // ---------- PerFragment: what is recorded is held ----------

  ghost predicate RecordHeld(users: Users, book: Book, k: nat) {
    && k < |book.sets| && book.sets[k].recipient in users
    && HoldsExactly(users[book.sets[k].recipient], k, book.sets[k].size)
  }

  ghost predicate RecordsHeld(users: Users, book: Book) {
    forall k :: k in book.records ==> RecordHeld(users, book, k)
  }

  ghost predicate SameFragments(users: Users, users': Users) {
    users'.Keys == users.Keys && forall u :: u in users ==> users'[u].fragments == users[u].fragments
  }

  ghost predicate KeepsFragments(s: State, o: Outcome) {
    o.Stepped? ==> SameFragments(s.users, o.state.users)
  }

  lemma NodeFragments(env: Env, s: State, n: NodeId)
    requires BusyNode(s, n)
    ensures KeepsFragments(s, FireNode(env, s, n))
  {
  }

  lemma EgressFragments(env: Env, s: State, u: UserId, p: Packet)
    requires u in s.users
    ensures KeepsFragments(s, OnEgress(env, s, u, p))
  {
  }

  lemma SendFragments(env: Env, s: State, u: UserId, n: nat)
    requires u in s.users
    ensures KeepsFragments(s, OnSendMessage(env, s, u, n))
  {
  }

  lemma ResendFragments(env: Env, s: State, u: UserId, id: nat)
    requires u in s.users && env.strategy.PerFragment?
    ensures KeepsFragments(s, OnAckTimeout(env, s, u, id))
  {
  }

  /** PerFragment: only a handover changes what users hold. */
  lemma StepFragments(env: Env, w: World, who: Who)
    requires CanStep(env, w, who) && env.strategy.PerFragment? && (who.AtUser? ==> !Event(w.s, who.user).Handover?)
    ensures SameFragments(w.s.users, After(env, w, who).s.users)
  {
    hide OnHandover, OnEgress, OnSendMessage, OnAckTimeout, FireNode;
    match who {
      case AtNode(n) => NodeFragments(env, w.s, n);
      case AtUser(u) =>
        var s1 := Popped(w.s, u);
        match Event(w.s, u) {
          case Egress(p) => EgressFragments(env, s1, u, p);
          case SendMessage(n) => SendFragments(env, s1, u, n);
          case AckTimeout(id) => ResendFragments(env, s1, u, id);
        }
    }
  }

  lemma HandoverHeld(env: Env, w: World, w': World, u: UserId, m: Message, now: Timestamp)
    requires Inv(env, w') && HandoverOk(env, w, u, m, now) && HandoverDelta(env, w, w', u, m, now)
    requires RecordsHeld(w.s.users, w.h.book)
    ensures RecordsHeld(w'.s.users, w'.h.book)
  {
    hide Inv, HoldsExactly;
    forall k | k in w'.h.book.records
      ensures RecordHeld(w'.s.users, w'.h.book, k)
    {
      if k in w.h.book.records {
        assert RecordHeld(w.s.users, w.h.book, k);
        StillHeld(env, w, w', u, m, now, k);
      } else {
        assert k == m.fragmentSet;
        NowHeld(env, w, w', u, m, now);
      }
    }
  }

  lemma StillHeld(env: Env, w: World, w': World, u: UserId, m: Message, now: Timestamp, k: nat)
    requires Inv(env, w') && HandoverOk(env, w, u, m, now) && HandoverDelta(env, w, w', u, m, now)
    requires RecordHeld(w.s.users, w.h.book, k)
    ensures RecordHeld(w'.s.users, w'.h.book, k)
  {
    hide Inv;
    var v := w.h.book.sets[k].recipient;
    if k == m.fragmentSet {
      hide HoldsExactly;
      assert v == u;
      StillExact(env, w, w', u, m, now);
    } else {
      assert k in w.s.users[v].fragments ==>
          k in w'.s.users[v].fragments && w'.s.users[v].fragments[k] == w.s.users[v].fragments[k];
    }
  }

  lemma NowHeld(env: Env, w: World, w': World, u: UserId, m: Message, now: Timestamp)
    requires Inv(env, w') && HandoverOk(env, w, u, m, now) && HandoverDelta(env, w, w', u, m, now)
    requires Completes(w.s.users, u, m, now)
    ensures RecordHeld(w'.s.users, w'.h.book, m.fragmentSet)
  {
    hide Live, Queues, HoldsExactly;
    CompleteIsExact(env, w, w', u, m, now);
  }

  lemma SameHeld(users: Users, users': Users, book: Book, book': Book)
    requires RecordsHeld(users, book) && SameFragments(users, users')
    requires book'.records == book.records && book.sets <= book'.sets
    ensures RecordsHeld(users', book')
  {
    forall k | k in book'.records
      ensures RecordHeld(users', book', k)
    {
      assert RecordHeld(users, book, k);
    }
  }

  lemma StepHeld(env: Env, w: World, who: Who)
    requires Inv(env, w) && CanStep(env, w, who) && env.strategy.PerFragment? && RecordsHeld(w.s.users, w.h.book)
    ensures RecordsHeld(After(env, w, who).s.users, After(env, w, who).h.book)
  {
    hide Inv, Fire, RecordsHeld, SameFragments;
    var w' := After(env, w, who);
    if who.AtUser? && Event(w.s, who.user).Handover? {
      HandoverReady(env, w, who.user);
      HandoverFires(env, w, who.user);
      StepKeeps(env, w, who);
      HandoverHeld(env, w, w', who.user, Event(w.s, who.user).message, UserTime(w.s, who.user));
    } else {
      StepFragments(env, w, who);
      SameRecords(env, w, who);
      StepPrefix(env, w, who);
      SameHeld(w.s.users, w'.s.users, w.h.book, w'.h.book);
    }
  }

  lemma {:induction false} RunHeld(env: Env, w: World, schedule: seq<Who>, w': World)
    requires Inv(env, w) && Leads(env, w, schedule, w') && env.strategy.PerFragment? && RecordsHeld(w.s.users, w.h.book)
    ensures RecordsHeld(w'.s.users, w'.h.book)
    decreases |schedule|
  {
    hide Inv, RecordsHeld, IsNext, Fire, After;
    if schedule == [] {
      LeadsNowhere(env, w, w');
    } else {
      LeadsOn(env, w, schedule, w');
      StepKeeps(env, w, schedule[0]);
      StepHeld(env, w, schedule[0]);
      RunHeld(env, After(env, w, schedule[0]), schedule[1..], w');
    }
  }

  lemma HeldIsRecorded(env: Env, w: World, u: UserId, k: nat)
    requires Inv(env, w) && u in w.s.users && k < |w.h.book.sets|
    requires HoldsExactly(w.s.users[u], k, w.h.book.sets[k].size)
    ensures k in w.h.book.records
  {
    hide Live, Queues;
    assert MemoryOk(env, w.s.nodes.Keys, w.s.timestamp, w.h.book, u, w.s.users[u]);
    assert FragmentsOk(w.h.book, u, w.s.users[u], k);
    var r := RangeCard(w.h.book.sets[k].size);
    assert w.s.users[u].fragments[k] == r;
  }

  /** PerFragment: exactly when a delivery is recorded again. When a fragment is handed over, its set has been
      recorded earlier in the run if and only if the recipient holds all its fragments; and then, and only
      then, it is recorded once more. */
  lemma RecordedAgainExactly(env: Env, w0: World, schedule: seq<Who>, w: World, u: UserId, m: Message)
    requires Start(w0) && Leads(env, w0, schedule, w) && env.strategy.PerFragment?
    requires IsNext(w.s, AtUser(u)) && Event(w.s, u) == Handover(m)
    ensures var earlier := Steps(env, w0, schedule, RecordingOf(env, m.fragmentSet));
            var held := HoldsExactly(w.s.users[u], m.fragmentSet, m.fragmentSize);
            && (0 < earlier <==> m.fragmentSet in w.h.book.records)
            && (0 < earlier <==> held)
            && (0 < earlier && Records(env, w, u, m) <==> held)
  {
    hide Inv, HoldsExactly, IsNext, Fire, Steps;
    StartKeeps(env, w0);
    RunKeeps(env, w0, schedule, w);
    RunHeld(env, w0, schedule, w);
    RunRecordings(env, w0, schedule, w, m.fragmentSet);
    HandoverReady(env, w, u);
    assert Reachable(env, w);
    if HoldsExactly(w.s.users[u], m.fragmentSet, m.fragmentSize) {
      HeldIsRecorded(env, w, u, m.fragmentSet);
      DuplicateRecordsAgain(env, w, u, m);
    }
    if m.fragmentSet in w.h.book.records {
      assert RecordHeld(w.s.users, w.h.book, m.fragmentSet);
    }
  }

  // ---------- As long as no timer fires ----------

  /** Every set was built for a SendMessage event, and only sets with fragments are recorded. */
  ghost predicate OwnRoots(book: Book) {
    && (forall k :: 0 <= k < |book.sets| ==> book.sets[k].root == k)
    && (forall k :: k in book.records ==> IsMessage(book.sets, k))
  }

  lemma HandoverOwn(env: Env, w: World, w': World, u: UserId, m: Message, now: Timestamp)
    requires HandoverOk(env, w, u, m, now) && HandoverDelta(env, w, w', u, m, now) && OwnRoots(w.h.book)
    requires m.fragmentIndex < m.fragmentSize == w.h.book.sets[m.fragmentSet].size
    ensures OwnRoots(w'.h.book)
  {
  }

  lemma SendOwn(env: Env, w: World, u: UserId, n: nat)
    requires CanStep(env, w, AtUser(u)) && Event(w.s, u) == SendMessage(n) && OwnRoots(w.h.book)
    ensures OwnRoots(After(env, w, AtUser(u)).h.book)
  {
    hide Fire;
  }

  lemma StepOwnRoots(env: Env, w: World, who: Who)
    requires Inv(env, w) && CanStep(env, w, who) && !Fires(w, who) && OwnRoots(w.h.book)
    ensures OwnRoots(After(env, w, who).h.book)
  {
    hide Inv, Fire, After, OwnRoots;
    if who.AtUser? && Event(w.s, who.user).Handover? {
      var u, m := who.user, Event(w.s, who.user).message;
      HandoverReady(env, w, u);
      HandoverFires(env, w, u);
      HasFragments(env, w, m);
      HandoverOwn(env, w, After(env, w, who), u, m, UserTime(w.s, u));
    } else if who.AtUser? && Event(w.s, who.user).SendMessage? {
      SendOwn(env, w, who.user, Event(w.s, who.user).numFrags);
    } else {
      SameRecords(env, w, who);
      SameIdentifiers(env, w, who);
      SameOwn(w.h.book, After(env, w, who).h.book);
    }
  }

  lemma SameOwn(book: Book, book': Book)
    requires OwnRoots(book) && book'.sets == book.sets && book'.records == book.records
    ensures OwnRoots(book')
  {
  }

  lemma HasFragments(env: Env, w: World, m: Message)
    requires Inv(env, w) && MessageOk(env, w.s.nodes.Keys, w.h.book, m)
    ensures m.fragmentIndex < m.fragmentSize == w.h.book.sets[m.fragmentSet].size
  {
    hide Queues, Live;
    assert StageOk(env, w.s.nodes.Keys, w.h, m.id);
  }

  /** Message `id` has been handed over, under PerFragment. */
  predicate HandedOver(h: History, id: nat) {
    id < |h.stage| && (h.stage[id].Acking? || h.stage[id].Finished?)
  }

  /** Every fragment has one message only. */
  ghost predicate OneCopy(book: Book, id: nat)
    requires id < |book.ids|
  {
    var info := book.ids[id];
    info.fragmentSet < |book.sets| && id == book.sets[info.fragmentSet].base + info.index
  }

  /** PerFragment: what a user holds has been handed over to it, in the only message that there is. */
  ghost predicate SingleCopies(users: Users, h: History) {
    && (forall id :: 0 <= id < |h.book.ids| ==> OneCopy(h.book, id))
    && (forall u, k: nat, i: nat :: Holds(users, u, k, i) ==>
          k < |h.book.sets| && HandedOver(h, h.book.sets[k].base + i))
    && NoRepeats(h.book.records)
  }

  /** What has been handed over stays so. */
  ghost predicate StaysTaken(h: History, h': History) {
    forall id :: HandedOver(h, id) ==> HandedOver(h', id)
  }

  ghost predicate NewCopies(book: Book, book': Book) {
    forall id :: |book.ids| <= id < |book'.ids| ==> OneCopy(book', id)
  }

  lemma SameCopies(users: Users, users': Users, h: History, h': History)
    requires SingleCopies(users, h) && SameFragments(users, users') && StaysTaken(h, h')
    requires Prefix(h.book, h'.book) && h'.book.records == h.book.records && NewCopies(h.book, h'.book)
    ensures SingleCopies(users', h')
  {
    forall id | 0 <= id < |h'.book.ids|
      ensures OneCopy(h'.book, id)
    {
      if id < |h.book.ids| { assert OneCopy(h.book, id); }
    }
    forall u, k: nat, i: nat | Holds(users', u, k, i)
      ensures k < |h'.book.sets| && HandedOver(h', h'.book.sets[k].base + i)
    {
      assert Holds(users, u, k, i);
    }
  }

  lemma NodeTaken(env: Env, h: History, content: Content)
    requires Moving(env, h, content) && env.strategy.PerFragment?
    ensures StaysTaken(h, AdvanceNode(env, h, content))
  {
  }

  lemma HandoverTaken(env: Env, s: State, h: History, u: UserId, m: Message)
    requires u in s.users && env.strategy.PerFragment?
    ensures StaysTaken(h, AfterHandover(env, s, h, u, m))
  {
  }

  lemma EgressTaken(env: Env, s: State, h: History, u: UserId, p: Packet)
    requires u in s.users && Core(p).OfMessage? && At(h, MessageOf(p).id, Queued(u))
    ensures StaysTaken(h, AfterEgress(env, s, h, u, p))
  {
  }

  lemma TimeoutTaken(env: Env, s: State, h: History, u: UserId, id: nat)
    requires u in s.users && id in s.users[u].originals && env.strategy.PerFragment?
    ensures StaysTaken(h, AfterTimeout(env, s, h, u, id))
  {
  }

  lemma StepTaken(env: Env, w: World, who: Who)
    requires Inv(env, w) && CanStep(env, w, who) && env.strategy.PerFragment?
    ensures StaysTaken(w.h, After(env, w, who).h)
  {
    hide Inv, Fire, AdvanceNode, AfterHandover, AfterEgress, AfterTimeout, HandedOver;
    match who {
      case AtNode(n) =>
        HeadMoves(env, w, n);
        NodeTaken(env, w.h, Head(w.s, n).content);
      case AtUser(u) =>
        var s1 := Popped(w.s, u);
        match Event(w.s, u) {
          case Handover(m) => HandoverTaken(env, s1, w.h, u, m);
          case Egress(p) =>
            EgressReady(env, w, u);
            EgressTaken(env, s1, w.h, u, p);
          case SendMessage(n) => SendTaken(env, w, u, n);
          case AckTimeout(id) =>
            TimeoutReady(env, w, u);
            TimeoutTaken(env, s1, w.h, u, id);
        }
    }
  }

  lemma SendTaken(env: Env, w: World, u: UserId, n: nat)
    requires CanStep(env, w, AtUser(u)) && Event(w.s, u) == SendMessage(n)
    ensures StaysTaken(w.h, After(env, w, AtUser(u)).h)
  {
  }

  lemma PartIsOwn(env: Env, nodes: set<NodeId>, book: Book, info: SetInfo, i: nat, p: Packet)
    requires PartOk(env, nodes, book, info, i, p)
    ensures Core(p).OfMessage? && Info(p).fragmentSet == |book.sets| && Info(p).index == i
  {
  }

  lemma SendCopies(env: Env, w: World, u: UserId)
    requires Turn(env, w, AtUser(u)) && Event(w.s, u).SendMessage?
    ensures CanStep(env, w, AtUser(u)) && NewCopies(w.h.book, After(env, w, AtUser(u)).h.book)
  {
    hide Inv, Fire, PartOk;
    var n, now := Event(w.s, u).numFrags, UserTime(w.s, u);
    SendFires(env, w, u);
    var w', packets := After(env, w, AtUser(u)), SentPackets(env, w.s, u, n);
    forall id | |w.h.book.ids| <= id < |w'.h.book.ids|
      ensures OneCopy(w'.h.book, id)
    {
      var i := id - |w.h.book.ids|;
      assert PartOk(env, w.s.nodes.Keys, w.h.book, SendInfo(w.h, u, n, now), i, packets[i]);
      PartIsOwn(env, w.s.nodes.Keys, w.h.book, SendInfo(w.h, u, n, now), i, packets[i]);
      assert w'.h.book.ids[id] == Info(packets[i]);
    }
  }

  /** Nodes and egresses make no new messages. */
  lemma SameIdentifiers(env: Env, w: World, who: Who)
    requires CanStep(env, w, who) && (who.AtUser? ==> Event(w.s, who.user).Egress?)
    ensures After(env, w, who).h.book.ids == w.h.book.ids && After(env, w, who).h.book.sets == w.h.book.sets
  {
    hide Fire;
    match who {
      case AtNode(n) => assert AdvanceNode(env, w.h, Head(w.s, n).content).book == w.h.book;
      case AtUser(u) =>
    }
  }

  /** The recipient does not hold yet what is handed over to it. */
  lemma NotYetHeld(w: World, u: UserId, m: Message)
    requires SingleCopies(w.s.users, w.h) && m.id < |w.h.book.ids| && At(w.h, m.id, Arrived(u))
    requires w.h.book.ids[m.id].fragmentSet == m.fragmentSet && w.h.book.ids[m.id].index == m.fragmentIndex
    ensures forall v :: !Holds(w.s.users, v, m.fragmentSet, m.fragmentIndex)
  {
    assert OneCopy(w.h.book, m.id);
  }

  lemma RecordHolds(users: Users, book: Book, k: nat, i: nat)
    requires RecordHeld(users, book, k) && i < book.sets[k].size
    ensures Holds(users, book.sets[k].recipient, k, i)
  {
  }

  lemma NotYetRecorded(env: Env, w: World, u: UserId, m: Message, now: Timestamp)
    requires SingleCopies(w.s.users, w.h) && RecordsHeld(w.s.users, w.h.book) && m.fragmentIndex < m.fragmentSize
    requires HandoverOk(env, w, u, m, now)
    ensures m.fragmentSet !in w.h.book.records
  {
    hide RecordHeld, SingleCopies, Holds;
    NotYetHeld(w, u, m);
    if m.fragmentSet in w.h.book.records {
      RecordHolds(w.s.users, w.h.book, m.fragmentSet, m.fragmentIndex);
      assert false;
    }
  }

  lemma HandoverCopies(env: Env, w: World, w': World, u: UserId, m: Message, now: Timestamp)
    requires env.strategy.PerFragment? && SingleCopies(w.s.users, w.h) && RecordsHeld(w.s.users, w.h.book)
    requires HandoverOk(env, w, u, m, now) && HandoverDelta(env, w, w', u, m, now)
    requires m.fragmentIndex < m.fragmentSize
    ensures SingleCopies(w'.s.users, w'.h)
  {
    hide RecordsHeld, Complete;
    NotYetRecorded(env, w, u, m, now);
    assert OneCopy(w.h.book, m.id);
    forall id | 0 <= id < |w'.h.book.ids|
      ensures OneCopy(w'.h.book, id)
    {
      assert OneCopy(w.h.book, id);
    }
    forall v, k: nat, i: nat | Holds(w'.s.users, v, k, i)
      ensures k < |w'.h.book.sets| && HandedOver(w'.h, w'.h.book.sets[k].base + i)
    {
      if !Holds(w.s.users, v, k, i) { assert v == u && k == m.fragmentSet && i == m.fragmentIndex; }
    }
  }

  lemma StepCopies(env: Env, w: World, who: Who)
    requires Inv(env, w) && CanStep(env, w, who) && !Fires(w, who) && env.strategy.PerFragment?
    requires SingleCopies(w.s.users, w.h) && RecordsHeld(w.s.users, w.h.book)
    ensures SingleCopies(After(env, w, who).s.users, After(env, w, who).h)
  {
    hide Inv, Fire, After, SingleCopies, RecordsHeld, StaysTaken, SameFragments, Prefix;
    var w' := After(env, w, who);
    if who.AtUser? && Event(w.s, who.user).Handover? {
      var u, m := who.user, Event(w.s, who.user).message;
      HandoverReady(env, w, u);
      HandoverFires(env, w, u);
      HasFragments(env, w, m);
      HandoverCopies(env, w, w', u, m, UserTime(w.s, u));
    } else {
      if who.AtUser? && Event(w.s, who.user).SendMessage? {
        SendCopies(env, w, who.user);
      } else {
        SameIdentifiers(env, w, who);
      }
      StepFragments(env, w, who);
      SameRecords(env, w, who);
      StepPrefix(env, w, who);
      StepTaken(env, w, who);
      SameCopies(w.s.users, w'.s.users, w.h, w'.h);
    }
  }

  /** What holds in every run in which no timer has fired. */
  ghost predicate Undisturbed(env: Env, w: World) {
    && OwnRoots(w.h.book)
    && (env.strategy.PerFragment? ==> SingleCopies(w.s.users, w.h) && RecordsHeld(w.s.users, w.h.book))
  }

  lemma StartUndisturbed(env: Env, w: World)
    requires Start(w)
    ensures Undisturbed(env, w)
  {
  }

  lemma StepUndisturbed(env: Env, w: World, who: Who)
    requires Inv(env, w) && CanStep(env, w, who) && !Fires(w, who) && Undisturbed(env, w)
    ensures Undisturbed(env, After(env, w, who))
  {
    hide Inv, After, Fire, IsNext, OwnRoots, SingleCopies, RecordsHeld;
    StepOwnRoots(env, w, who);
    if env.strategy.PerFragment? {
      StepCopies(env, w, who);
      StepHeld(env, w, who);
    }
  }

  lemma {:induction false} RunUndisturbed(env: Env, w: World, schedule: seq<Who>, w': World)
    requires Inv(env, w) && Leads(env, w, schedule, w') && Timeouts(env, w, schedule) == 0 && Undisturbed(env, w)
    ensures Undisturbed(env, w')
    decreases |schedule|
  {
    hide Inv, Undisturbed, IsNext, Fire, After, Fires;
    if schedule == [] {
      LeadsNowhere(env, w, w');
    } else {
      LeadsOn(env, w, schedule, w');
      StepKeeps(env, w, schedule[0]);
      StepUndisturbed(env, w, schedule[0]);
      RunUndisturbed(env, After(env, w, schedule[0]), schedule[1..], w');
    }
  }

  lemma {:induction false} DistinctCount(xs: seq<nat>, x: nat)
    requires NoRepeats(xs)
    ensures multiset(xs)[x] == One(x in xs)
  {
    if xs != [] {
      var last := |xs| - 1;
      DistinctCount(xs[..last], x);
      assert xs == xs[..last] + [xs[last]];
    }
  }

  ghost function Members(xs: seq<nat>): set<nat> {
    set x | x in xs
  }

  lemma {:induction false} DistinctCard(xs: seq<nat>)
    requires NoRepeats(xs)
    ensures |Members(xs)| == |xs|
  {
    if xs == [] {
      assert Members(xs) == {};
    } else {
      var last := |xs| - 1;
      DistinctCard(xs[..last]);
      assert xs == xs[..last] + [xs[last]];
      assert Members(xs) == Members(xs[..last]) + {xs[last]};
      assert xs[last] !in Members(xs[..last]);
    }
  }

  lemma RecordsDiffer(env: Env, w: World)
    requires Inv(env, w) && Undisturbed(env, w)
    ensures NoRepeats(w.h.book.records)
  {
  }

  lemma HaltedRecords(env: Env, w: World, k: nat)
    requires Inv(env, w) && Undisturbed(env, w) && NoMoreEvents(w.s)
    ensures k in w.h.book.records <==> IsMessage(w.h.book.sets, k)
  {
    hide Inv, NoMoreEvents, SingleCopies, RecordsHeld;
    if IsMessage(w.h.book.sets, k) {
      HaltedRoot(env, w, k);
    }
  }

  /** If a run halts in which no timer has fired, then every message with fragments has been recorded exactly
      once and nothing else has been, and there are exactly as many delivery times as messages. */
  lemma RecordedExactlyOnce(env: Env, w0: World, schedule: seq<Who>, w: World)
    requires Start(w0) && Leads(env, w0, schedule, w) && NoMoreEvents(w.s) && Timeouts(env, w0, schedule) == 0
    ensures forall k: nat :: Steps(env, w0, schedule, RecordingOf(env, k)) == One(IsMessage(w.h.book.sets, k))
    ensures |w.s.deliveryTimes| == |w.s.firstToLast| == MessagesToSend(w0.s.users)
  {
    hide Inv, NoMoreEvents, Undisturbed, Timeouts, Start;
    StartKeeps(env, w0);
    StartUndisturbed(env, w0);
    RunKeeps(env, w0, schedule, w);
    RunUndisturbed(env, w0, schedule, w);
    RecordsDiffer(env, w);
    var records := w.h.book.records;
    forall k: nat
      ensures (k in records <==> IsMessage(w.h.book.sets, k))
      ensures Steps(env, w0, schedule, RecordingOf(env, k)) == One(IsMessage(w.h.book.sets, k))
    {
      HaltedRecords(env, w, k);
      RunRecordings(env, w0, schedule, w, k);
      StartRecords(w0);
      DistinctCount(records, k);
    }
    AllTakenOn(env, w0, schedule, w);
    DistinctCard(records);
    assert Members(records) == MessageRoots(w.h.book.sets);
    RecordsTally(env, w);
  }

  lemma StartRecords(w: World)
    requires Start(w)
    ensures w.h.book.records == []
  {
  }
}
