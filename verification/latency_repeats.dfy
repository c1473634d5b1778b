/** How many deliveries can be recorded beyond one for each message: at most one for each timer that fires. */
module LatencyRepeats {
  import opened EventQueue
  import opened LatencySim
  import opened LatencyHistory
  import opened LatencyInvariant
  import opened LatencyNodeSteps
  import opened LatencyUserSteps
  import opened LatencySendSteps
  import opened LatencyResendSteps
  import opened LatencyRebuildSteps
  import opened LatencyRuns
  import opened LatencyTiming
  import opened LatencyTotals
  import opened LatencyTermination
  import opened LatencyOnce
  import LatencyDelivery

  // ---------- Recorded sets have fragments ----------

  ghost predicate RecordsFull(book: Book) {
    forall k :: k in book.records ==> k < |book.sets| && 0 < book.sets[k].size
  }

  lemma HandoverFull(env: Env, w: World, w': World, u: UserId, m: Message, now: Timestamp)
    requires HandoverOk(env, w, u, m, now) && HandoverDelta(env, w, w', u, m, now) && RecordsFull(w.h.book)
    requires m.fragmentIndex < m.fragmentSize == w.h.book.sets[m.fragmentSet].size
    ensures RecordsFull(w'.h.book)
  {
  }

  lemma StepFull(env: Env, w: World, who: Who)
    requires Inv(env, w) && CanStep(env, w, who) && RecordsFull(w.h.book)
    ensures RecordsFull(After(env, w, who).h.book)
  {
    hide Inv, Fire, After;
    if who.AtUser? && Event(w.s, who.user).Handover? {
      var u, m := who.user, Event(w.s, who.user).message;
      HandoverReady(env, w, u);
      HandoverFires(env, w, u);
      HasFragments(env, w, m);
      HandoverFull(env, w, After(env, w, who), u, m, UserTime(w.s, u));
    } else {
      SameRecords(env, w, who);
      StepPrefix(env, w, who);
    }
  }

  lemma {:induction false} RunFull(env: Env, w: World, schedule: seq<Who>, w': World)
    requires Inv(env, w) && Leads(env, w, schedule, w') && RecordsFull(w.h.book)
    ensures RecordsFull(w'.h.book)
    decreases |schedule|
  {
    hide Inv, RecordsFull, IsNext, Fire, After;
    if schedule == [] {
      LeadsNowhere(env, w, w');
    } else {
      LeadsOn(env, w, schedule, w');
      StepKeeps(env, w, schedule[0]);
      StepFull(env, w, schedule[0]);
      RunFull(env, After(env, w, schedule[0]), schedule[1..], w');
    }
  }

  // ---------- New sets and new identifiers ----------

  /** Other steps build nothing. */
  lemma NothingBuilt(env: Env, w: World, who: Who)
    requires CanStep(env, w, who) && !Fires(w, who) && (who.AtUser? ==> !Event(w.s, who.user).SendMessage?)
    ensures After(env, w, who).h.book.sets == w.h.book.sets && After(env, w, who).h.book.ids == w.h.book.ids
  {
    hide Fire;
    match who {
      case AtNode(n) => assert AdvanceNode(env, w.h, Head(w.s, n).content).book == w.h.book;
      case AtUser(u) =>
    }
  }

  // ---------- WholeMessage: each timer that fires builds one more set ----------

  /** The sets built for retransmissions. */
  ghost function Rebuilt(sets: seq<SetInfo>): set<nat> {
    set k: nat | k < |sets| && sets[k].root != k
  }

  lemma RebuiltAppend(sets: seq<SetInfo>, info: SetInfo)
    ensures |Rebuilt(sets + [info])| == |Rebuilt(sets)| + One(info.root != |sets|)
  {
    assert Rebuilt(sets + [info]) == Rebuilt(sets) + if info.root != |sets| then {|sets|} else {};
  }

  lemma StepRebuilt(env: Env, w: World, who: Who)
    requires Inv(env, w) && CanStep(env, w, who) && env.strategy.WholeMessage?
    ensures |Rebuilt(After(env, w, who).h.book.sets)| == |Rebuilt(w.h.book.sets)| + One(Fires(w, who))
  {
    hide Inv, Fire, After, Rebuilt;
    if Fires(w, who) {
      var u, id := who.user, Event(w.s, who.user).id;
      RebuildTurn(env, w, u);
      RebuiltAppend(w.h.book.sets, RebuildInfo(w.h, id, w.s.users[u].originals[id]));
    } else if who.AtUser? && Event(w.s, who.user).SendMessage? {
      var u, n := who.user, Event(w.s, who.user).numFrags;
      SendFires(env, w, u);
      RebuiltAppend(w.h.book.sets, SendInfo(w.h, u, n, UserTime(w.s, u)));
    } else {
      NothingBuilt(env, w, who);
    }
  }

  lemma {:induction false} RunRebuilt(env: Env, w: World, schedule: seq<Who>, w': World)
    requires Inv(env, w) && Leads(env, w, schedule, w') && env.strategy.WholeMessage?
    ensures |Rebuilt(w'.h.book.sets)| == |Rebuilt(w.h.book.sets)| + Timeouts(env, w, schedule)
    decreases |schedule|
  {
    hide Inv, Rebuilt, Fires, IsNext, Fire, After;
    if schedule == [] {
      LeadsNowhere(env, w, w');
    } else {
      LeadsOn(env, w, schedule, w');
      StepKeeps(env, w, schedule[0]);
      StepRebuilt(env, w, schedule[0]);
      RunRebuilt(env, After(env, w, schedule[0]), schedule[1..], w');
    }
  }

  /** No set is recorded twice, so there are at most as many records as sets. */
  lemma WholeRecords(env: Env, w: World)
    requires Inv(env, w) && env.strategy.WholeMessage? && RecordsFull(w.h.book)
    ensures |w.h.book.records| <= |MessageRoots(w.h.book.sets)| + |Rebuilt(w.h.book.sets)|
  {
    hide Queues, Books;
    var records, roots, rebuilt := w.h.book.records, MessageRoots(w.h.book.sets), Rebuilt(w.h.book.sets);
    DistinctCard(records);
    forall k | k in Members(records)
      ensures k in roots + rebuilt
    {
      assert k in records;
    }
    LatencyDelivery.SubsetCard(Members(records), roots + rebuilt);
  }

  // ---------- PerFragment: each timer that fires makes one more message ----------

  ghost function Row(k: nat, n: nat): set<(nat, nat)> {
    set i: nat | i < n :: (k, i)
  }

  lemma {:induction false} RowCard(k: nat, n: nat)
    ensures |Row(k, n)| == n
  {
    if n == 0 {
      assert Row(k, n) == {};
    } else {
      RowCard(k, n - 1);
      assert Row(k, n) == Row(k, n - 1) + {(k, n - 1)};
    }
  }

  /** All fragments of all sets. */
  ghost function Frags(sets: seq<SetInfo>): set<(nat, nat)> {
    set k: nat, i: nat | k < |sets| && i < sets[k].size :: (k, i)
  }

  lemma FragsAppend(sets: seq<SetInfo>, info: SetInfo)
    ensures |Frags(sets + [info])| == |Frags(sets)| + info.size
  {
    var more := sets + [info];
    RowCard(|sets|, info.size);
    assert Frags(more) == Frags(sets) + Row(|sets|, info.size);
    assert Frags(sets) !! Row(|sets|, info.size);
  }

  lemma StepCounts(env: Env, w: World, who: Who)
    requires Inv(env, w) && CanStep(env, w, who) && env.strategy.PerFragment?
    ensures var book, book' := w.h.book, After(env, w, who).h.book;
            |book'.ids| + |Frags(book.sets)| == |book.ids| + |Frags(book'.sets)| + One(Fires(w, who))
  {
    hide Inv, Fire, After, Frags;
    if Fires(w, who) {
      ResendFires(env, w, who.user);
    } else if who.AtUser? && Event(w.s, who.user).SendMessage? {
      var u, n := who.user, Event(w.s, who.user).numFrags;
      SendFires(env, w, u);
      FragsAppend(w.h.book.sets, SendInfo(w.h, u, n, UserTime(w.s, u)));
    } else {
      NothingBuilt(env, w, who);
    }
  }

  lemma {:induction false} RunCounts(env: Env, w: World, schedule: seq<Who>, w': World)
    requires Inv(env, w) && Leads(env, w, schedule, w') && env.strategy.PerFragment?
    ensures |w'.h.book.ids| + |Frags(w.h.book.sets)|
         == |w.h.book.ids| + |Frags(w'.h.book.sets)| + Timeouts(env, w, schedule)
    decreases |schedule|
  {
    hide Inv, Frags, Fires, IsNext, Fire, After;
    if schedule == [] {
      LeadsNowhere(env, w, w');
    } else {
      LeadsOn(env, w, schedule, w');
      StepKeeps(env, w, schedule[0]);
      StepCounts(env, w, schedule[0]);
      RunCounts(env, After(env, w, schedule[0]), schedule[1..], w');
    }
  }

  /** The fragments that have been received. */
  ghost function HeldFrags(users: Users, sets: seq<SetInfo>): set<(nat, nat)> {
    set f | f in Frags(sets) && f.0 < |sets| && Holds(users, sets[f.0].recipient, f.0, f.1)
  }

  /** The messages that have been handed over. */
  ghost function TakenIds(h: History): set<nat> {
    set id: nat | id < |h.stage| && HandedOver(h, id)
  }

  ghost function Images(fs: set<(nat, nat)>, current: map<(nat, nat), nat>): set<nat> {
    set f | f in fs && f in current :: current[f]
  }

  lemma {:induction false} ImagesCard(fs: set<(nat, nat)>, current: map<(nat, nat), nat>)
    requires forall f :: f in fs ==> f in current
    requires forall f, g :: f in fs && g in fs && current[f] == current[g] ==> f == g
    ensures |Images(fs, current)| == |fs|
    decreases fs
  {
    if fs == {} {
      assert Images(fs, current) == {};
    } else {
      var f :| f in fs;
      ImagesCard(fs - {f}, current);
      assert Images(fs, current) == Images(fs - {f}, current) + {current[f]};
    }
  }

  /** The latest message of a fragment that has not been received has not been handed over. */
  lemma UnheldIsUntaken(env: Env, w: World, f: (nat, nat))
    requires Inv(env, w) && env.strategy.PerFragment?
    requires f in Frags(w.h.book.sets) && f !in HeldFrags(w.s.users, w.h.book.sets)
    ensures f in w.h.current && w.h.current[f] < |w.h.book.ids| && w.h.current[f] !in TakenIds(w.h)
    ensures (w.h.book.ids[w.h.current[f]].fragmentSet, w.h.book.ids[w.h.current[f]].index) == f
  {
    hide Queues, Tally, BookOk, MemoriesOk, TimersOk;
    assert FragmentLive(w.s.users, w.h, f.0, f.1);
  }

  /** So there are at least as many messages to come as there are fragments missing. */
  lemma MissingAreToCome(env: Env, w: World)
    requires Inv(env, w) && env.strategy.PerFragment?
    ensures |Frags(w.h.book.sets)| + |TakenIds(w.h)| <= |w.h.book.ids| + |HeldFrags(w.s.users, w.h.book.sets)|
  {
    hide Inv;
    var frags, held, taken := Frags(w.h.book.sets), HeldFrags(w.s.users, w.h.book.sets), TakenIds(w.h);
    var missing := frags - held;
    hide Frags, HeldFrags, TakenIds;
    forall f | f in missing
      ensures f in w.h.current && w.h.current[f] < |w.h.book.ids| && w.h.current[f] !in taken
      ensures (w.h.book.ids[w.h.current[f]].fragmentSet, w.h.book.ids[w.h.current[f]].index) == f
    {
      UnheldIsUntaken(env, w, f);
    }
    ImagesCard(missing, w.h.current);
    HeldAreFragments(w.s.users, w.h.book.sets);
    TakenAreKnown(env, w);
    var toCome := Images(missing, w.h.current);
    var all := LatencyDelivery.RangeCard(|w.h.book.ids|);
    LatencyDelivery.SubsetCard(toCome + taken, all);
    assert toCome !! taken && frags == missing + held;
  }

  lemma HeldAreFragments(users: Users, sets: seq<SetInfo>)
    ensures HeldFrags(users, sets) <= Frags(sets)
  {
  }

  lemma TakenAreKnown(env: Env, w: World)
    requires Inv(env, w)
    ensures forall id :: id in TakenIds(w.h) ==> id < |w.h.book.ids|
  {
    hide Queues, Live;
  }

  // ---------- PerFragment: repeated records come from repeated messages ----------

  /** Beyond one for each set that is recorded at all, there are at most as many records as there have been
      handovers of a fragment that was received already. */
  ghost predicate FewRepeats(users: Users, h: History) {
    |h.book.records| + |HeldFrags(users, h.book.sets)| <= |TakenIds(h)| + |Members(h.book.records)|
  }

  lemma SameHeldFrags(env: Env, w: World, w': World)
    requires Inv(env, w) && SameFragments(w.s.users, w'.s.users) && Prefix(w.h.book, w'.h.book)
    ensures HeldFrags(w'.s.users, w'.h.book.sets) == HeldFrags(w.s.users, w.h.book.sets)
  {
    hide Queues, Tally, StagesOk, TimersOk, Live;
    forall f: (nat, nat)
      ensures f in HeldFrags(w'.s.users, w'.h.book.sets) <==> f in HeldFrags(w.s.users, w.h.book.sets)
    {
      if f in HeldFrags(w'.s.users, w'.h.book.sets) {
        var u := w'.h.book.sets[f.0].recipient;
        assert MemoryOk(env, w.s.nodes.Keys, w.s.timestamp, w.h.book, u, w.s.users[u]);
        assert FragmentsOk(w.h.book, u, w.s.users[u], f.0);
      }
    }
  }

  lemma HandoverHolds(env: Env, w: World, w': World, u: UserId, m: Message, now: Timestamp, f: (nat, nat))
    requires HandoverOk(env, w, u, m, now) && HandoverDelta(env, w, w', u, m, now) && m.fragmentIndex < m.fragmentSize
    ensures f in HeldFrags(w'.s.users, w'.h.book.sets)
       <==> f in HeldFrags(w.s.users, w.h.book.sets) || f == (m.fragmentSet, m.fragmentIndex)
  {
    hide Completes, TotalDelay, EventQueue.Insert, RouteOk;
    var users := w'.s.users;
    assert users == MarkedAt(w.s.users, u, m, now);
    assert w'.h.book.sets == w.h.book.sets;
  }

  lemma HandoverTakes(env: Env, w: World, w': World, u: UserId, m: Message, now: Timestamp)
    requires env.strategy.PerFragment? && HandoverOk(env, w, u, m, now) && HandoverDelta(env, w, w', u, m, now)
    ensures m.id !in TakenIds(w.h) && TakenIds(w'.h) == TakenIds(w.h) + {m.id}
  {
    hide Completes, TotalDelay, EventQueue.Insert, RouteOk, MarkedAt;
    assert forall id :: id != m.id ==> HandedOver(w'.h, id) == HandedOver(w.h, id);
  }

  lemma HandoverCounts(env: Env, w: World, w': World, u: UserId, m: Message, now: Timestamp)
    requires env.strategy.PerFragment? && HandoverOk(env, w, u, m, now) && HandoverDelta(env, w, w', u, m, now)
    requires m.fragmentIndex < m.fragmentSize
    ensures HeldFrags(w'.s.users, w'.h.book.sets)
         == HeldFrags(w.s.users, w.h.book.sets) + {(m.fragmentSet, m.fragmentIndex)}
    ensures m.id !in TakenIds(w.h) && TakenIds(w'.h) == TakenIds(w.h) + {m.id}
  {
    hide HeldFrags, TakenIds, HandoverOk, HandoverDelta;
    HandoverTakes(env, w, w', u, m, now);
    forall f: (nat, nat) {
      HandoverHolds(env, w, w', u, m, now, f);
    }
  }

  lemma HandoverRepeats(env: Env, w: World, w': World, u: UserId, m: Message, now: Timestamp)
    requires env.strategy.PerFragment? && HandoverOk(env, w, u, m, now) && HandoverDelta(env, w, w', u, m, now)
    requires m.fragmentIndex < m.fragmentSize && RecordsHeld(w.s.users, w.h.book) && FewRepeats(w.s.users, w.h)
    ensures FewRepeats(w'.s.users, w'.h)
  {
    hide HeldFrags, TakenIds, Members, RecordsHeld;
    HandoverCounts(env, w, w', u, m, now);
    NewMember(w.h.book.records, m.fragmentSet);
    if m.fragmentSet in w.h.book.records { RecordedIsHeld(w, m); }
  }

  lemma NewMember(xs: seq<nat>, x: nat)
    ensures |Members(xs + [x])| == |Members(xs)| + One(x !in xs)
  {
    var ys := xs + [x];
    assert forall y :: y in ys <==> y in xs || y == x;
    if x in xs {
      assert Members(ys) == Members(xs);
    } else {
      assert Members(ys) == Members(xs) + {x};
    }
  }

  lemma RecordedIsHeld(w: World, m: Message)
    requires RecordsHeld(w.s.users, w.h.book) && m.fragmentSet in w.h.book.records
    requires m.fragmentSet < |w.h.book.sets| && m.fragmentIndex < m.fragmentSize == w.h.book.sets[m.fragmentSet].size
    ensures (m.fragmentSet, m.fragmentIndex) in HeldFrags(w.s.users, w.h.book.sets)
  {
    hide RecordHeld;
    RecordHolds(w.s.users, w.h.book, m.fragmentSet, m.fragmentIndex);
  }

  lemma StepRepeats(env: Env, w: World, who: Who)
    requires Inv(env, w) && CanStep(env, w, who) && env.strategy.PerFragment?
    requires RecordsHeld(w.s.users, w.h.book) && FewRepeats(w.s.users, w.h)
    ensures FewRepeats(After(env, w, who).s.users, After(env, w, who).h)
  {
    hide Inv, Fire, After, RecordsHeld, HeldFrags, TakenIds, Prefix, SameFragments, StaysTaken;
    var w' := After(env, w, who);
    if who.AtUser? && Event(w.s, who.user).Handover? {
      var u, m := who.user, Event(w.s, who.user).message;
      HandoverReady(env, w, u);
      HandoverFires(env, w, u);
      HasFragments(env, w, m);
      HandoverRepeats(env, w, w', u, m, UserTime(w.s, u));
    } else {
      StepFragments(env, w, who);
      SameRecords(env, w, who);
      StepPrefix(env, w, who);
      SameHeldFrags(env, w, w');
      StepTaken(env, w, who);
      MoreTaken(w.h, w'.h);
    }
  }

  lemma MoreTaken(h: History, h': History)
    requires StaysTaken(h, h')
    ensures |TakenIds(h)| <= |TakenIds(h')|
  {
    LatencyDelivery.SubsetCard(TakenIds(h), TakenIds(h'));
  }

  lemma {:induction false} RunRepeats(env: Env, w: World, schedule: seq<Who>, w': World)
    requires Inv(env, w) && Leads(env, w, schedule, w') && env.strategy.PerFragment?
    requires RecordsHeld(w.s.users, w.h.book) && FewRepeats(w.s.users, w.h)
    ensures FewRepeats(w'.s.users, w'.h)
    decreases |schedule|
  {
    hide Inv, RecordsHeld, FewRepeats, IsNext, Fire, After;
    if schedule == [] {
      LeadsNowhere(env, w, w');
    } else {
      LeadsOn(env, w, schedule, w');
      StepKeeps(env, w, schedule[0]);
      StepHeld(env, w, schedule[0]);
      StepRepeats(env, w, schedule[0]);
      RunRepeats(env, After(env, w, schedule[0]), schedule[1..], w');
    }
  }

  lemma FragmentRecords(env: Env, w0: World, schedule: seq<Who>, w: World)
    requires Start(w0) && Leads(env, w0, schedule, w) && env.strategy.PerFragment?
    ensures |w.h.book.records| <= |Members(w.h.book.records)| + Timeouts(env, w0, schedule)
  {
    hide Inv, Start, Leads, Timeouts, Members, HeldFrags, TakenIds, Frags;
    StartKeeps(env, w0);
    RunKeeps(env, w0, schedule, w);
    StartsEmpty(w0);
    RunRepeats(env, w0, schedule, w);
    RunCounts(env, w0, schedule, w);
    MissingAreToCome(env, w);
  }

  lemma StartsEmpty(w: World)
    requires Start(w)
    ensures w.h.book.ids == [] && Frags(w.h.book.sets) == {}
    ensures RecordsHeld(w.s.users, w.h.book) && FewRepeats(w.s.users, w.h) && RecordsFull(w.h.book)
  {
    assert Frags(w.h.book.sets) == {} && HeldFrags(w.s.users, w.h.book.sets) == {};
  }

  lemma MembersAreRoots(env: Env, w: World)
    requires Inv(env, w) && env.strategy.PerFragment? && RecordsFull(w.h.book)
    ensures |Members(w.h.book.records)| <= |MessageRoots(w.h.book.sets)|
  {
    hide Queues, Live, Tally, StagesOk, MemoriesOk, TimersOk;
    var records, roots := w.h.book.records, MessageRoots(w.h.book.sets);
    forall k | k in Members(records)
      ensures k in roots
    {
      assert k in records;
      assert SetOk(env, w.s.users.Keys, w.s.timestamp, w.h.book, k);
    }
    LatencyDelivery.SubsetCard(Members(records), roots);
  }

  /** In every run, under both strategies, deliveries are recorded at most once for each message with fragments
      and once more for each timer that fires. */
  lemma RepeatsAreBounded(env: Env, w0: World, schedule: seq<Who>, w: World)
    requires Start(w0) && Leads(env, w0, schedule, w)
    ensures |w.s.deliveryTimes| == |w.s.firstToLast| <= MessagesToSend(w0.s.users) + Timeouts(env, w0, schedule)
  {
    hide Inv, Start, Leads, Timeouts, Members, MessageRoots, RecordsFull;
    StartKeeps(env, w0);
    RunKeeps(env, w0, schedule, w);
    StartsEmpty(w0);
    RunFull(env, w0, schedule, w);
    TakenOn(env, w0, schedule, w);
    RecordsTally(env, w);
    match env.strategy {
      case PerFragment =>
        FragmentRecords(env, w0, schedule, w);
        MembersAreRoots(env, w);
      case WholeMessage =>
        NothingRebuilt(w0);
        RunRebuilt(env, w0, schedule, w);
        WholeRecords(env, w);
    }
  }

  lemma NothingRebuilt(w: World)
    requires Start(w)
    ensures Rebuilt(w.h.book.sets) == {}
  {
  }
}
