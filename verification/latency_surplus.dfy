/** Exactly when a message is recorded more than once, under either strategy. */
module LatencySurplus {
  import opened EventQueue
  import opened LatencySim
  import opened LatencyHistory
  import opened LatencyInvariant
  import opened LatencyUserSteps
  import opened LatencySendSteps
  import opened LatencyRebuildSteps
  import opened LatencyRuns
  import opened LatencyTiming
  import opened LatencyTransit
  import opened LatencyTotals
  import opened LatencyRecords
  import opened LatencyTermination
  import opened LatencyOnce
  import opened LatencyRepeats
  import opened LatencyFired
  import opened LatencyWholeTimers
  import LatencyDelivery

  // ---------- Recordings ----------

  /** Is this a step at which a set is recorded whose root meets `p`? */
  ghost predicate RecordsFor(env: Env, w: World, who: Who, p: nat -> bool) {
    && who.AtUser? && BusyUser(w.s, who.user) && Event(w.s, who.user).Handover?
    && var m := Event(w.s, who.user).message;
       && Records(env, w, who.user, m)
       && m.fragmentSet < |w.h.book.sets| && p(w.h.book.sets[m.fragmentSet].root)
  }

  ghost function Recordings(env: Env, p: nat -> bool): (World, Who) -> bool {
    (w, who) => RecordsFor(env, w, who, p)
  }

  /** Some timer of set `k` is due after time `t`. */
  ghost predicate DueAfter(users: Users, k: nat, t: Timestamp) {
    exists v, due :: v in users && (due, AckTimeout(k)) in users[v].events && t < due
  }

  /** User `u` takes message `m`, and its set is recorded without need. PerFragment: all its fragments had come
      before. WholeMessage: its acknowledgement does not stop the timer of the set, for there is none any more or
      it is due too early; so the message is sent again. */
  ghost predicate Needless(env: Env, w: World, u: UserId, m: Message)
    requires BusyUser(w.s, u)
  {
    match env.strategy
    case PerFragment => HoldsExactly(w.s.users[u], m.fragmentSet, m.fragmentSize)
    case WholeMessage => !DueAfter(w.s.users, m.fragmentSet, UserTime(w.s, u) + TotalDelay(m.ack))
  }

  ghost predicate RecordsNeedlessly(env: Env, w: World, who: Who, p: nat -> bool) {
    RecordsFor(env, w, who, p) && Needless(env, w, who.user, Event(w.s, who.user).message)
  }

  ghost function Surplus(env: Env, p: nat -> bool): (World, Who) -> bool {
    (w, who) => RecordsNeedlessly(env, w, who, p)
  }

  // ---------- Sets by their roots ----------

  /** The recorded sets whose root meets `p`. */
  ghost function RecordedFor(book: Book, p: nat -> bool): set<nat> {
    set k: nat | k in Members(book.records) && k < |book.sets| && p(book.sets[k].root)
  }

  ghost function Messages(sets: seq<SetInfo>, p: nat -> bool): set<nat> {
    set k: nat | k < |sets| && IsMessage(sets, k) && p(k)
  }

  /** All sets built for messages that meet `p`. */
  ghost function Builds(sets: seq<SetInfo>, p: nat -> bool): set<nat> {
    set k: nat | k < |sets| && 0 < sets[k].size && p(sets[k].root)
  }

  ghost function Among(sets: seq<SetInfo>, ks: set<nat>, p: nat -> bool): set<nat> {
    set k | k in ks && k < |sets| && p(sets[k].root)
  }

  // ---------- WholeMessage: one more set for every timer that has fired ----------

  /** The sets built for messages meeting `p` are these messages and one set for each of their timers. */
  ghost predicate BuildsCount(sets: seq<SetInfo>, fired: set<nat>, p: nat -> bool) {
    |Builds(sets, p)| == |Messages(sets, p)| + |Among(sets, fired, p)|
  }

  lemma BuildsAppend(sets: seq<SetInfo>, info: SetInfo, p: nat -> bool)
    ensures |Builds(sets + [info], p)| == |Builds(sets, p)| + One(0 < info.size && p(info.root))
  {
    var added := if 0 < info.size && p(info.root) then {|sets|} else {};
    assert Builds(sets + [info], p) == Builds(sets, p) + added;
  }

  lemma MessagesAppend(sets: seq<SetInfo>, info: SetInfo, p: nat -> bool)
    ensures |Messages(sets + [info], p)|
         == |Messages(sets, p)| + One(info.root == |sets| && 0 < info.size && p(|sets|))
  {
    var more := sets + [info];
    var added := if info.root == |sets| && 0 < info.size && p(|sets|) then {|sets|} else {};
    assert forall k: nat :: k < |sets| ==> IsMessage(more, k) == IsMessage(sets, k);
    assert Messages(more, p) == Messages(sets, p) + added;
  }

  lemma AmongAppend(sets: seq<SetInfo>, info: SetInfo, ks: set<nat>, p: nat -> bool)
    requires forall k :: k in ks ==> k < |sets|
    ensures Among(sets + [info], ks, p) == Among(sets, ks, p)
  {
  }

  lemma AmongMore(sets: seq<SetInfo>, ks: set<nat>, k: nat, p: nat -> bool)
    requires k !in ks && k < |sets|
    ensures |Among(sets, ks + {k}, p)| == |Among(sets, ks, p)| + One(p(sets[k].root))
  {
    var added := if p(sets[k].root) then {k} else {};
    assert Among(sets, ks + {k}, p) == Among(sets, ks, p) + added;
  }

  lemma SendCounts(sets: seq<SetInfo>, info: SetInfo, fired: set<nat>, p: nat -> bool)
    requires BuildsCount(sets, fired, p) && info.root == |sets| && forall k :: k in fired ==> k < |sets|
    ensures BuildsCount(sets + [info], fired, p)
  {
    BuildsAppend(sets, info, p);
    MessagesAppend(sets, info, p);
    AmongAppend(sets, info, fired, p);
  }

  lemma RebuildCounts(sets: seq<SetInfo>, info: SetInfo, fired: set<nat>, k: nat, p: nat -> bool)
    requires BuildsCount(sets, fired, p) && k < |sets| && k !in fired && info.root == sets[k].root < |sets|
    requires 0 < info.size && forall j :: j in fired ==> j < |sets|
    ensures BuildsCount(sets + [info], fired + {k}, p)
  {
    BuildsAppend(sets, info, p);
    MessagesAppend(sets, info, p);
    AmongMore(sets, fired, k, p);
    AmongAppend(sets, info, fired + {k}, p);
  }

  lemma StepBuilds(env: Env, w: World, who: Who, fired: set<nat>, p: nat -> bool)
    requires Inv(env, w) && CanStep(env, w, who) && env.strategy.WholeMessage?
    requires FiredInv(w, fired) && BuildsCount(w.h.book.sets, fired, p)
    ensures BuildsCount(After(env, w, who).h.book.sets, fired + FiredAt(w, who), p)
  {
    hide Inv, Fire, After, BuildsCount, FiredSets, OriginalsLive;
    FiredAreSpent(w.h, fired);
    assert fired + {} == fired;
    if Fires(w, who) {
      var u, id := who.user, Event(w.s, who.user).id;
      RebuildTurn(env, w, u);
      TimeoutFired(env, w, u, fired);
      RebuildCounts(w.h.book.sets, RebuildInfo(w.h, id, w.s.users[u].originals[id]), fired, id, p);
    } else if who.AtUser? && Event(w.s, who.user).SendMessage? {
      var u, n := who.user, Event(w.s, who.user).numFrags;
      SendFires(env, w, u);
      SendCounts(w.h.book.sets, SendInfo(w.h, u, n, UserTime(w.s, u)), fired, p);
    } else {
      NothingBuilt(env, w, who);
    }
  }

  lemma {:induction false} RunBuilds(env: Env, w: World, schedule: seq<Who>, w': World, fired: set<nat>, p: nat -> bool)
    requires Inv(env, w) && Leads(env, w, schedule, w') && env.strategy.WholeMessage?
    requires FiredInv(w, fired) && BuildsCount(w.h.book.sets, fired, p)
    ensures BuildsCount(w'.h.book.sets, fired + FiredIn(env, w, schedule), p)
    decreases |schedule|
  {
    hide Inv, FiredInv, BuildsCount, FiredAt, IsNext, Fire, After;
    if schedule == [] {
      LeadsNowhere(env, w, w');
      assert fired + {} == fired;
    } else {
      LeadsOn(env, w, schedule, w');
      var who := schedule[0];
      var fired1, w1 := fired + FiredAt(w, who), After(env, w, who);
      StepKeeps(env, w, who);
      StepFired(env, w, who, fired);
      StepBuilds(env, w, who, fired, p);
      RunBuilds(env, w1, schedule[1..], w', fired1, p);
      assert fired1 + FiredIn(env, w1, schedule[1..]) == fired + FiredIn(env, w, schedule);
    }
  }

  // ---------- What is recorded ----------

  ghost predicate IsRecording(env: Env, w: World, who: Who) {
    && who.AtUser? && BusyUser(w.s, who.user) && Event(w.s, who.user).Handover?
    && Records(env, w, who.user, Event(w.s, who.user).message)
  }

  lemma RecordingBook(env: Env, w: World, u: UserId, m: Message)
    requires Inv(env, w) && Records(env, w, u, m)
    ensures var book, book' := w.h.book, After(env, w, AtUser(u)).h.book;
            && m.fragmentSet < |book.sets| && book'.sets == book.sets && book'.records == book.records + [m.fragmentSet]
  {
    hide Inv, Fire;
    HandoverReady(env, w, u);
    HandoverFires(env, w, u);
  }

  lemma OtherBook(env: Env, w: World, who: Who)
    requires Inv(env, w) && CanStep(env, w, who) && !IsRecording(env, w, who)
    ensures After(env, w, who).h.book.records == w.h.book.records
  {
    hide Inv, Fire;
    if who.AtUser? && Event(w.s, who.user).Handover? {
      HandoverReady(env, w, who.user);
      HandoverFires(env, w, who.user);
    } else {
      SameRecords(env, w, who);
    }
  }

  lemma RecordedAppend(book: Book, book': Book, k: nat, p: nat -> bool)
    requires book'.sets == book.sets && book'.records == book.records + [k] && k < |book.sets|
    ensures RecordedFor(book', p) == RecordedFor(book, p) + if p(book.sets[k].root) then {k} else {}
  {
    assert forall x :: x in book'.records <==> x in book.records || x == k;
  }

  lemma RecordedSame(book: Book, book': Book, p: nat -> bool)
    requires book.sets <= book'.sets && book'.records == book.records
    requires forall k :: k in book.records ==> k < |book.sets|
    ensures RecordedFor(book', p) == RecordedFor(book, p)
  {
  }

  lemma RecordsKnown(env: Env, w: World)
    requires Inv(env, w)
    ensures forall k :: k in w.h.book.records ==> k < |w.h.book.sets|
  {
    hide Queues, Live;
  }

  /** What a step adds to the sets recorded for messages meeting `p`. */
  ghost function Added(env: Env, w: World, who: Who, p: nat -> bool): set<nat> {
    if RecordsFor(env, w, who, p) then {Event(w.s, who.user).message.fragmentSet} else {}
  }

  lemma StepRecorded(env: Env, w: World, who: Who, p: nat -> bool)
    requires Inv(env, w) && CanStep(env, w, who)
    ensures RecordedFor(After(env, w, who).h.book, p) == RecordedFor(w.h.book, p) + Added(env, w, who, p)
  {
    hide Inv, Fire, After, RecordedFor, Records;
    var book, book' := w.h.book, After(env, w, who).h.book;
    if IsRecording(env, w, who) {
      RecordingBook(env, w, who.user, Event(w.s, who.user).message);
      RecordedAppend(book, book', Event(w.s, who.user).message.fragmentSet, p);
    } else {
      OtherBook(env, w, who);
      StepPrefix(env, w, who);
      RecordsKnown(env, w);
      RecordedSame(book, book', p);
      assert RecordedFor(book, p) + {} == RecordedFor(book, p);
    }
  }

  lemma AddedIsNew(env: Env, w: World, who: Who, p: nat -> bool)
    requires Inv(env, w) && CanStep(env, w, who) && env.strategy.WholeMessage?
    ensures Added(env, w, who, p) !! RecordedFor(w.h.book, p)
  {
    hide Inv, Fire, After, Records;
    if RecordsFor(env, w, who, p) { RecordIsNew(env, w, who.user, Event(w.s, who.user).message); }
  }

  /** PerFragment: a recording is needless if and only if the set has been recorded before. */
  lemma AddedIsOld(env: Env, w: World, who: Who, p: nat -> bool)
    requires Inv(env, w) && CanStep(env, w, who) && env.strategy.PerFragment? && RecordsHeld(w.s.users, w.h.book)
    ensures One(RecordsNeedlessly(env, w, who, p)) + |RecordedFor(w.h.book, p) + Added(env, w, who, p)|
         == |RecordedFor(w.h.book, p)| + One(RecordsFor(env, w, who, p))
  {
    hide Inv, Fire, After, Records, HoldsExactly;
    if RecordsFor(env, w, who, p) {
      var u, m := who.user, Event(w.s, who.user).message;
      HandoverReady(env, w, u);
      if HoldsExactly(w.s.users[u], m.fragmentSet, m.fragmentSize) {
        HeldIsRecorded(env, w, u, m.fragmentSet);
        assert RecordedFor(w.h.book, p) + {m.fragmentSet} == RecordedFor(w.h.book, p);
      } else {
        assert m.fragmentSet in w.h.book.records ==> RecordHeld(w.s.users, w.h.book, m.fragmentSet);
        assert m.fragmentSet !in RecordedFor(w.h.book, p);
      }
    } else {
      assert RecordedFor(w.h.book, p) + {} == RecordedFor(w.h.book, p);
    }
  }

  /** WholeMessage: every recording is that of another set. */
  lemma {:induction false} RunRecordedWhole(env: Env, w: World, schedule: seq<Who>, w': World, p: nat -> bool)
    requires Inv(env, w) && Leads(env, w, schedule, w') && env.strategy.WholeMessage?
    ensures |RecordedFor(w'.h.book, p)| == |RecordedFor(w.h.book, p)| + Steps(env, w, schedule, Recordings(env, p))
    decreases |schedule|
  {
    hide Inv, RecordedFor, RecordsFor, IsNext, Fire, After;
    if schedule == [] {
      LeadsNowhere(env, w, w');
    } else {
      LeadsOn(env, w, schedule, w');
      StepKeeps(env, w, schedule[0]);
      StepRecorded(env, w, schedule[0], p);
      AddedIsNew(env, w, schedule[0], p);
      RunRecordedWhole(env, After(env, w, schedule[0]), schedule[1..], w', p);
    }
  }

  /** PerFragment: every recording is that of another set, or needless. */
  lemma {:induction false} RunRecordedFragments(env: Env, w: World, schedule: seq<Who>, w': World, p: nat -> bool)
    requires Inv(env, w) && Leads(env, w, schedule, w') && env.strategy.PerFragment? && RecordsHeld(w.s.users, w.h.book)
    ensures |RecordedFor(w'.h.book, p)| + Steps(env, w, schedule, Surplus(env, p))
         == |RecordedFor(w.h.book, p)| + Steps(env, w, schedule, Recordings(env, p))
    decreases |schedule|
  {
    hide Inv, RecordsHeld, RecordedFor, RecordsFor, RecordsNeedlessly, Added, IsNext, Fire, After;
    if schedule == [] {
      LeadsNowhere(env, w, w');
    } else {
      LeadsOn(env, w, schedule, w');
      StepKeeps(env, w, schedule[0]);
      StepHeld(env, w, schedule[0]);
      StepRecorded(env, w, schedule[0], p);
      AddedIsOld(env, w, schedule[0], p);
      RunRecordedFragments(env, After(env, w, schedule[0]), schedule[1..], w', p);
    }
  }

  // ---------- WholeMessage: needless recordings are those of sets whose timers fire ----------

  /** A set is recorded with its timer armed, unless that has fired. */
  lemma UnspentIsTimed(env: Env, w: World, u: UserId, m: Message, fired: set<nat>)
    requires Inv(env, w) && env.strategy.WholeMessage? && Records(env, w, u, m) && FiredInv(w, fired)
    requires m.fragmentSet !in fired
    ensures m.fragmentSet in w.h.timers
  {
    hide Inv, Fire, After, Queues, Spent, OriginalsLive;
    var k := m.fragmentSet;
    RecordIsNew(env, w, u, m);
    RecordingTurn(env, w, u, m);
    HasFragments(env, w, m);
    assert OnItsWay(w.h, k);
    if k !in w.h.timers {
      var id: nat :| QueuedIn(w.h, id, k);
      RecordedLeavesNone(env, w, u, m, id);
    }
  }

  lemma RecordingTurn(env: Env, w: World, u: UserId, m: Message)
    requires Inv(env, w) && Records(env, w, u, m)
    ensures HandoverOk(env, w, u, m, UserTime(w.s, u))
    ensures HandoverDelta(env, w, After(env, w, AtUser(u)), u, m, UserTime(w.s, u))
  {
    hide Inv, Fire;
    HandoverReady(env, w, u);
    HandoverFires(env, w, u);
  }

  lemma RecordedLeavesNone(env: Env, w: World, u: UserId, m: Message, id: nat)
    requires Inv(env, w) && env.strategy.WholeMessage? && Records(env, w, u, m)
    ensures !QueuedIn(w.h, id, m.fragmentSet)
  {
    hide Inv, Fire, After;
    var w1 := After(env, w, AtUser(u));
    RecordIsListed(env, w, u, m);
    RecordingTurn(env, w, u, m);
    RecordingStepKeeps(env, w, u, m);
    if QueuedIn(w.h, id, m.fragmentSet) {
      assert QueuedIn(w1.h, id, m.fragmentSet);
      NoneOfRecorded(env, w1, m.fragmentSet, id);
      assert false;
    }
  }

  lemma RecordingStepKeeps(env: Env, w: World, u: UserId, m: Message)
    requires Inv(env, w) && Records(env, w, u, m)
    ensures Inv(env, After(env, w, AtUser(u)))
  {
    hide Inv, Fire, IsNext;
    StepKeeps(env, w, AtUser(u));
  }

  lemma NoneOfRecorded(env: Env, w: World, k: nat, id: nat)
    requires Inv(env, w) && env.strategy.WholeMessage? && k in w.h.book.records
    ensures !QueuedIn(w.h, id, k)
  {
    hide Queues, Tally, MemoriesOk, TimersOk, OnceEach, RootsLive;
    if QueuedIn(w.h, id, k) {
      assert IdOk(env, w.h.book, id);
      RecordedIsFinished(w.s.users, w.h, k, w.h.book.ids[id].index);
      assert false;
    }
  }

  /** The timer of a set, and what becomes of it in a halting run after the set is recorded. */
  lemma TimerAfterRecord(env: Env, w: World, u: UserId, m: Message, schedule: seq<Who>, w': World, v: UserId,
                         due: Timestamp)
    requires Inv(env, w) && env.strategy.WholeMessage? && Records(env, w, u, m)
    requires Leads(env, After(env, w, AtUser(u)), schedule, w') && NoMoreEvents(w'.s)
    requires v in w.s.users && (due, AckTimeout(m.fragmentSet)) in w.s.users[v].events
    ensures Steps(env, After(env, w, AtUser(u)), schedule, FiringOf(m.fragmentSet))
         == One(due <= UserTime(w.s, u) + TotalDelay(m.ack))
  {
    hide Inv, NoMoreEvents, Fire, After, Steps, NoNewTimer, DueAt, BackAt, Acked, FiresTimer;
    var k, arrival, w1 := m.fragmentSet, UserTime(w.s, u) + TotalDelay(m.ack), After(env, w, AtUser(u));
    RecordingStepKeeps(env, w, u, m);
    OneTimer(env, w, k, v, due);
    RecordedIsAcked(env, w, u, m);
    SameDue(w.s.users, w1.s.users, k, due);
    RunTracked(env, w1, schedule, w', k, arrival, due);
    RunKeeps(env, w1, schedule, w');
    if k in w'.h.timers { LatencyDelivery.NothingWaits(env, w', k); }
  }

  lemma OnlyDue(env: Env, w: World, k: nat, v: UserId, due: Timestamp, t: Timestamp)
    requires Inv(env, w) && v in w.s.users && (due, AckTimeout(k)) in w.s.users[v].events
    ensures DueAfter(w.s.users, k, t) <==> t < due
  {
    hide Inv;
    OneTimer(env, w, k, v, due);
  }

  /** A recording is needless exactly if the timer of its set fires, be it before or after. */
  lemma NeedlessFires(env: Env, w: World, u: UserId, m: Message, schedule: seq<Who>, w': World, fired: set<nat>)
    requires Inv(env, w) && env.strategy.WholeMessage? && Records(env, w, u, m) && FiredInv(w, fired)
    requires Leads(env, After(env, w, AtUser(u)), schedule, w') && NoMoreEvents(w'.s)
    ensures Needless(env, w, u, m) <==> m.fragmentSet in fired + FiredIn(env, After(env, w, AtUser(u)), schedule)
  {
    hide Inv, NoMoreEvents, Fire, After, Steps, FiringOf, FiredInv, DueAfter;
    var k, w1 := m.fragmentSet, After(env, w, AtUser(u));
    RecordingStepKeeps(env, w, u, m);
    RecordingFired(env, w, u, m, fired);
    RunFiresOnce(env, w1, schedule, w', fired, k);
    if v, due :| v in w.s.users && (due, AckTimeout(k)) in w.s.users[v].events {
      TimerAfterRecord(env, w, u, m, schedule, w', v, due);
      OnlyDue(env, w, k, v, due, UserTime(w.s, u) + TotalDelay(m.ack));
      OneTimer(env, w, k, v, due);
      ArmedIsUnspent(w, fired, k);
    } else {
      NoTimers(env, w, k);
      if k !in fired { UnspentIsTimed(env, w, u, m, fired); }
      NoneDue(w.s.users, k, UserTime(w.s, u) + TotalDelay(m.ack));
    }
  }

  lemma NoneDue(users: Users, k: nat, t: Timestamp)
    requires forall v, due :: v in users ==> (due, AckTimeout(k)) !in users[v].events
    ensures !DueAfter(users, k, t)
  {
  }

  lemma ArmedIsUnspent(w: World, fired: set<nat>, k: nat)
    requires FiredInv(w, fired) && k in w.h.timers
    ensures k !in fired
  {
    hide FiredSets;
    FiredAreSpent(w.h, fired);
  }

  lemma RecordingFired(env: Env, w: World, u: UserId, m: Message, fired: set<nat>)
    requires Inv(env, w) && env.strategy.WholeMessage? && Records(env, w, u, m) && FiredInv(w, fired)
    ensures FiredAt(w, AtUser(u)) == {} && FiredInv(After(env, w, AtUser(u)), fired)
  {
    hide Inv, Fire, FiredInv;
    StepFired(env, w, AtUser(u), fired);
    assert fired + {} == fired;
  }

  lemma NeedlessIsFired(env: Env, w: World, who: Who, schedule: seq<Who>, w': World, fired: set<nat>, p: nat -> bool)
    requires Inv(env, w) && CanStep(env, w, who) && env.strategy.WholeMessage? && FiredInv(w, fired)
    requires Leads(env, After(env, w, who), schedule, w') && NoMoreEvents(w'.s)
    ensures var total := fired + FiredAt(w, who) + FiredIn(env, After(env, w, who), schedule);
            |Added(env, w, who, p) * total| == One(RecordsNeedlessly(env, w, who, p))
  {
    hide Inv, NoMoreEvents, Fire, After, FiredInv, Needless, FiredAt;
    var total := fired + FiredAt(w, who) + FiredIn(env, After(env, w, who), schedule);
    if RecordsFor(env, w, who, p) {
      var u, m := who.user, Event(w.s, who.user).message;
      RecordingFired(env, w, u, m, fired);
      NeedlessFires(env, w, u, m, schedule, w', fired);
      assert Added(env, w, who, p) * total == if m.fragmentSet in total then {m.fragmentSet} else {};
    } else {
      assert Added(env, w, who, p) * total == {};
    }
  }

  lemma AddedCard(before: set<nat>, added: set<nat>, after: set<nat>, total: set<nat>)
    requires added !! before && before + added <= after
    ensures |(after - before) * total| == |(after - (before + added)) * total| + |added * total|
  {
    assert (after - before) * total == (after - (before + added)) * total + added * total;
  }

  /** In a halting run the needless recordings are those of the sets whose timers fire. */
  lemma {:induction false} RunNeedless(env: Env, w: World, schedule: seq<Who>, w': World, fired: set<nat>,
                                       p: nat -> bool)
    requires Inv(env, w) && Leads(env, w, schedule, w') && NoMoreEvents(w'.s) && env.strategy.WholeMessage?
    requires FiredInv(w, fired)
    ensures RecordedFor(w.h.book, p) <= RecordedFor(w'.h.book, p)
    ensures Steps(env, w, schedule, Surplus(env, p))
         == |(RecordedFor(w'.h.book, p) - RecordedFor(w.h.book, p)) * (fired + FiredIn(env, w, schedule))|
    decreases |schedule|
  {
    hide Inv, NoMoreEvents, RecordedFor, RecordsNeedlessly, Added, FiredInv, FiredAt, IsNext, Fire, After;
    if schedule == [] {
      LeadsNowhere(env, w, w');
      assert (RecordedFor(w'.h.book, p) - RecordedFor(w.h.book, p)) * (fired + FiredIn(env, w, schedule)) == {};
    } else {
      LeadsOn(env, w, schedule, w');
      var who := schedule[0];
      var fired1, w1 := fired + FiredAt(w, who), After(env, w, who);
      var total := fired1 + FiredIn(env, w1, schedule[1..]);
      StepKeeps(env, w, who);
      StepFired(env, w, who, fired);
      StepRecorded(env, w, who, p);
      AddedIsNew(env, w, who, p);
      NeedlessIsFired(env, w, who, schedule[1..], w', fired, p);
      RunNeedless(env, w1, schedule[1..], w', fired1, p);
      AddedCard(RecordedFor(w.h.book, p), Added(env, w, who, p), RecordedFor(w'.h.book, p), total);
      assert total == fired + FiredIn(env, w, schedule);
    }
  }

  // ---------- Halted runs ----------

  /** When a run halts, every set that was built has been recorded, or its timer has fired. */
  lemma HaltedSets(env: Env, w: World, fired: set<nat>, p: nat -> bool)
    requires Inv(env, w) && NoMoreEvents(w.s) && FiredInv(w, fired) && RecordsFull(w.h.book)
    ensures Builds(w.h.book.sets, p) == RecordedFor(w.h.book, p) + Among(w.h.book.sets, fired, p)
  {
    hide Inv, NoMoreEvents, OriginalsLive;
    var sets := w.h.book.sets;
    forall k: nat
      ensures k in Builds(sets, p) <==> k in RecordedFor(w.h.book, p) || k in Among(sets, fired, p)
    {
      if k in fired { assert Spent(w.h, k); }
      if k < |sets| && 0 < sets[k].size && k !in fired && k !in w.h.book.records {
        assert OnItsWay(w.h, k);
        NotPending(env, w, k);
        assert false;
      }
    }
  }

  lemma NotPending(env: Env, w: World, k: nat)
    requires Inv(env, w) && NoMoreEvents(w.s)
    ensures !SetPending(w.h, k)
  {
    hide Inv, NoMoreEvents;
    if SetPending(w.h, k) {
      LatencyDelivery.NothingWaits(env, w, k);
      var id: nat :| QueuedIn(w.h, id, k);
      LatencyDelivery.NothingWaits(env, w, id);
    }
  }

  lemma UnionCard(a: set<nat>, b: set<nat>)
    ensures |a + b| + |a * b| == |a| + |b|
  {
    assert a == (a - b) + (a * b) && b == (b - a) + (a * b);
    assert a + b == (a - b) + (b - a) + (a * b);
  }

  lemma WholeFired(env: Env, w0: World, schedule: seq<Who>, w: World)
    requires Start(w0) && Leads(env, w0, schedule, w) && env.strategy.WholeMessage?
    ensures Inv(env, w) && FiredInv(w, FiredIn(env, w0, schedule)) && RecordsFull(w.h.book)
  {
    hide Inv, Start, Leads, FiredInv, RecordsFull;
    StartKeeps(env, w0);
    StartFired(w0);
    StartsEmpty(w0);
    RunKeeps(env, w0, schedule, w);
    RunFull(env, w0, schedule, w);
    RunFired(env, w0, schedule, w, {});
    assert {} + FiredIn(env, w0, schedule) == FiredIn(env, w0, schedule);
  }

  lemma WholeBuilds(env: Env, w0: World, schedule: seq<Who>, w: World, p: nat -> bool)
    requires Start(w0) && Leads(env, w0, schedule, w) && env.strategy.WholeMessage?
    ensures BuildsCount(w.h.book.sets, FiredIn(env, w0, schedule), p)
  {
    hide Inv, Start, Leads, FiredInv, BuildsCount;
    StartKeeps(env, w0);
    StartFired(w0);
    NothingYet(w0, p);
    RunBuilds(env, w0, schedule, w, {}, p);
    assert {} + FiredIn(env, w0, schedule) == FiredIn(env, w0, schedule);
  }

  lemma WholeNeedless(env: Env, w0: World, schedule: seq<Who>, w: World, p: nat -> bool)
    requires Start(w0) && Leads(env, w0, schedule, w) && NoMoreEvents(w.s) && env.strategy.WholeMessage?
    ensures Steps(env, w0, schedule, Recordings(env, p)) == |RecordedFor(w.h.book, p)|
    ensures Steps(env, w0, schedule, Surplus(env, p)) == |RecordedFor(w.h.book, p) * FiredIn(env, w0, schedule)|
  {
    hide Inv, NoMoreEvents, Start, Leads, FiredInv, RecordedFor, Steps;
    StartKeeps(env, w0);
    StartFired(w0);
    NothingYet(w0, p);
    RunRecordedWhole(env, w0, schedule, w, p);
    RunNeedless(env, w0, schedule, w, {}, p);
    var recorded, fired := RecordedFor(w.h.book, p), FiredIn(env, w0, schedule);
    assert (recorded - {}) * ({} + fired) == recorded * fired;
  }

  lemma WholeRecordings(env: Env, w0: World, schedule: seq<Who>, w: World, p: nat -> bool)
    requires Start(w0) && Leads(env, w0, schedule, w) && NoMoreEvents(w.s) && env.strategy.WholeMessage?
    ensures Steps(env, w0, schedule, Recordings(env, p))
         == |Messages(w.h.book.sets, p)| + Steps(env, w0, schedule, Surplus(env, p))
  {
    hide Inv, NoMoreEvents, Start, Leads, FiredInv, RecordsFull, RecordedFor, Steps, Builds, Messages, Among, FiredIn;
    var fired := FiredIn(env, w0, schedule);
    WholeFired(env, w0, schedule, w);
    WholeBuilds(env, w0, schedule, w, p);
    WholeNeedless(env, w0, schedule, w, p);
    HaltedSets(env, w, fired, p);
    UnionCard(RecordedFor(w.h.book, p), Among(w.h.book.sets, fired, p));
    FiredAmong(w.h.book, fired, p);
  }

  lemma FiredAmong(book: Book, fired: set<nat>, p: nat -> bool)
    ensures RecordedFor(book, p) * Among(book.sets, fired, p) == RecordedFor(book, p) * fired
  {
  }

  lemma NothingYet(w: World, p: nat -> bool)
    requires Start(w)
    ensures RecordedFor(w.h.book, p) == {} && BuildsCount(w.h.book.sets, {}, p)
  {
    var sets := w.h.book.sets;
    assert Builds(sets, p) == {} && Messages(sets, p) == {} && Among(sets, {}, p) == {};
  }

  lemma FragmentRecordings(env: Env, w0: World, schedule: seq<Who>, w: World, p: nat -> bool)
    requires Start(w0) && Leads(env, w0, schedule, w) && env.strategy.PerFragment?
    ensures Steps(env, w0, schedule, Recordings(env, p))
         == |RecordedFor(w.h.book, p)| + Steps(env, w0, schedule, Surplus(env, p))
  {
    hide Inv, Start, Leads, RecordsHeld, RecordedFor, Steps;
    StartKeeps(env, w0);
    StartsEmpty(w0);
    NothingYet(w0, p);
    RunRecordedFragments(env, w0, schedule, w, p);
  }

  /** PerFragment: when a run halts, the recorded sets are the messages. */
  lemma HaltedMessages(env: Env, w: World, p: nat -> bool)
    requires Inv(env, w) && NoMoreEvents(w.s) && env.strategy.PerFragment? && RecordsFull(w.h.book)
    ensures RecordedFor(w.h.book, p) == Messages(w.h.book.sets, p)
  {
    hide Queues, Live, Tally, StagesOk, MemoriesOk, TimersOk, NoMoreEvents;
    var sets := w.h.book.sets;
    forall k: nat
      ensures k in RecordedFor(w.h.book, p) <==> k in Messages(sets, p)
    {
      if k < |sets| { assert SetOk(env, w.s.users.Keys, w.s.timestamp, w.h.book, k); }
      if IsMessage(sets, k) { LatencyDelivery.HaltedFragments(env, w, k); }
    }
  }

  function AnyRoot(): nat -> bool { _ => true }

  function Only(r: nat): nat -> bool { k => k == r }

  /** Exactly how often messages are recorded. When a run halts, under either strategy, the messages that meet
      `p` have been recorded once each, and once more for every needless recording. */
  lemma RecordingsExactly(env: Env, w0: World, schedule: seq<Who>, w: World, p: nat -> bool)
    requires Start(w0) && Leads(env, w0, schedule, w) && NoMoreEvents(w.s)
    ensures Steps(env, w0, schedule, Recordings(env, p))
         == |Messages(w.h.book.sets, p)| + Steps(env, w0, schedule, Surplus(env, p))
  {
    hide Inv, NoMoreEvents, Start, Leads, RecordsFull, RecordedFor, Messages, Steps;
    match env.strategy {
      case WholeMessage => WholeRecordings(env, w0, schedule, w, p);
      case PerFragment =>
        StartKeeps(env, w0);
        StartsEmpty(w0);
        RunKeeps(env, w0, schedule, w);
        RunFull(env, w0, schedule, w);
        FragmentRecordings(env, w0, schedule, w, p);
        HaltedMessages(env, w, p);
    }
  }

  lemma StepLengths(env: Env, w: World, who: Who)
    requires Inv(env, w) && CanStep(env, w, who)
    ensures |After(env, w, who).h.book.records| == |w.h.book.records| + One(RecordsFor(env, w, who, AnyRoot()))
  {
    hide Inv, Fire, After, Records;
    if IsRecording(env, w, who) {
      RecordingBook(env, w, who.user, Event(w.s, who.user).message);
    } else {
      OtherBook(env, w, who);
    }
  }

  /** The delivery times are the recordings of the run. */
  lemma {:induction false} RunLengths(env: Env, w: World, schedule: seq<Who>, w': World)
    requires Inv(env, w) && Leads(env, w, schedule, w')
    ensures |w'.h.book.records| == |w.h.book.records| + Steps(env, w, schedule, Recordings(env, AnyRoot()))
    decreases |schedule|
  {
    hide Inv, RecordsFor, IsNext, Fire, After;
    if schedule == [] {
      LeadsNowhere(env, w, w');
    } else {
      LeadsOn(env, w, schedule, w');
      StepKeeps(env, w, schedule[0]);
      StepLengths(env, w, schedule[0]);
      RunLengths(env, After(env, w, schedule[0]), schedule[1..], w');
    }
  }

  lemma AllMessages(sets: seq<SetInfo>)
    ensures Messages(sets, AnyRoot()) == MessageRoots(sets)
  {
  }

  /** So there are as many delivery times as messages with fragments to send and needless recordings. */
  lemma DeliveriesExactly(env: Env, w0: World, schedule: seq<Who>, w: World)
    requires Start(w0) && Leads(env, w0, schedule, w) && NoMoreEvents(w.s)
    ensures |w.s.deliveryTimes| == |w.s.firstToLast|
         == MessagesToSend(w0.s.users) + Steps(env, w0, schedule, Surplus(env, AnyRoot()))
  {
    hide Inv, NoMoreEvents, Leads, Messages, Steps;
    StartKeeps(env, w0);
    RunKeeps(env, w0, schedule, w);
    RecordingsExactly(env, w0, schedule, w, AnyRoot());
    RunLengths(env, w0, schedule, w);
    AllMessages(w.h.book.sets);
    AllTakenOn(env, w0, schedule, w);
    RecordsTally(env, w);
  }

  /** The sets that are recorded and whose timers fire. */
  ghost function RecordedAndFired(env: Env, w0: World, schedule: seq<Who>, w: World): set<nat> {
    set k | k in Members(w.h.book.records) && 0 < Steps(env, w0, schedule, FiringOf(k))
  }

  /** WholeMessage: these needless recordings are those of the sets whose timers fire. */
  lemma WholeDeliveriesExactly(env: Env, w0: World, schedule: seq<Who>, w: World)
    requires Start(w0) && Leads(env, w0, schedule, w) && NoMoreEvents(w.s) && env.strategy.WholeMessage?
    ensures |w.s.deliveryTimes| == MessagesToSend(w0.s.users) + |RecordedAndFired(env, w0, schedule, w)|
  {
    hide Inv, NoMoreEvents, Start, Leads, FiredInv, Steps;
    DeliveriesExactly(env, w0, schedule, w);
    WholeNeedless(env, w0, schedule, w, AnyRoot());
    StartKeeps(env, w0);
    StartFired(w0);
    RunKeeps(env, w0, schedule, w);
    RecordsKnown(env, w);
    var recorded, fired := RecordedFor(w.h.book, AnyRoot()), FiredIn(env, w0, schedule);
    forall k: nat
      ensures k in recorded * fired <==> k in RecordedAndFired(env, w0, schedule, w)
    {
      RunFiresOnce(env, w0, schedule, w, {}, k);
    }
    assert recorded * fired == RecordedAndFired(env, w0, schedule, w);
  }

  /** PerFragment, in every run: the delivery times are the sets that have been recorded, and the fragments that
      came when the recipient already held exactly all fragments of their set. */
  lemma FragmentDeliveriesExactly(env: Env, w0: World, schedule: seq<Who>, w: World)
    requires Start(w0) && Leads(env, w0, schedule, w) && env.strategy.PerFragment?
    ensures |w.s.deliveryTimes|
         == |Members(w.h.book.records)| + Steps(env, w0, schedule, Surplus(env, AnyRoot()))
  {
    hide Inv, Leads, Steps;
    StartKeeps(env, w0);
    RunKeeps(env, w0, schedule, w);
    FragmentRecordings(env, w0, schedule, w, AnyRoot());
    RunLengths(env, w0, schedule, w);
    RecordsKnown(env, w);
    assert RecordedFor(w.h.book, AnyRoot()) == Members(w.h.book.records);
    RecordsTally(env, w);
  }

  // ---------- Exactly once ----------

  /** Every set with fragments was built for a message with fragments. */
  ghost predicate RootsFull(sets: seq<SetInfo>) {
    forall k :: 0 <= k < |sets| && 0 < sets[k].size ==> IsMessage(sets, sets[k].root)
  }

  lemma RootsFullAppend(sets: seq<SetInfo>, info: SetInfo)
    requires RootsFull(sets) && (info.root == |sets| || (0 < info.size ==> IsMessage(sets, info.root)))
    ensures RootsFull(sets + [info])
  {
    var more := sets + [info];
    forall k | 0 <= k < |more| && 0 < more[k].size
      ensures IsMessage(more, more[k].root)
    {
      if k < |sets| { assert IsMessage(sets, sets[k].root); }
    }
  }

  lemma StepRoots(env: Env, w: World, who: Who)
    requires Inv(env, w) && CanStep(env, w, who) && env.strategy.WholeMessage? && RootsFull(w.h.book.sets)
    ensures RootsFull(After(env, w, who).h.book.sets)
  {
    hide Inv, Fire, After, RootsFull;
    if Fires(w, who) {
      var u, id := who.user, Event(w.s, who.user).id;
      RebuildTurn(env, w, u);
      RootOf(w.h.book.sets, id);
      RootsFullAppend(w.h.book.sets, RebuildInfo(w.h, id, w.s.users[u].originals[id]));
    } else if who.AtUser? && Event(w.s, who.user).SendMessage? {
      var u, n := who.user, Event(w.s, who.user).numFrags;
      SendFires(env, w, u);
      RootsFullAppend(w.h.book.sets, SendInfo(w.h, u, n, UserTime(w.s, u)));
    } else {
      NothingBuilt(env, w, who);
    }
  }

  lemma RootOf(sets: seq<SetInfo>, k: nat)
    requires RootsFull(sets) && k < |sets|
    ensures 0 < sets[k].size ==> IsMessage(sets, sets[k].root)
  {
  }

  lemma {:induction false} RunRoots(env: Env, w: World, schedule: seq<Who>, w': World)
    requires Inv(env, w) && Leads(env, w, schedule, w') && env.strategy.WholeMessage? && RootsFull(w.h.book.sets)
    ensures RootsFull(w'.h.book.sets)
    decreases |schedule|
  {
    hide Inv, RootsFull, IsNext, Fire, After;
    if schedule == [] {
      LeadsNowhere(env, w, w');
    } else {
      LeadsOn(env, w, schedule, w');
      StepKeeps(env, w, schedule[0]);
      StepRoots(env, w, schedule[0]);
      RunRoots(env, After(env, w, schedule[0]), schedule[1..], w');
    }
  }

  lemma FinalRoots(env: Env, w0: World, schedule: seq<Who>, w: World)
    requires Start(w0) && Leads(env, w0, schedule, w)
    ensures RootsFull(w.h.book.sets)
  {
    hide Queues, Live, Tally, StagesOk, MemoriesOk, TimersOk, Leads;
    StartKeeps(env, w0);
    RunKeeps(env, w0, schedule, w);
    match env.strategy {
      case WholeMessage => RunRoots(env, w0, schedule, w);
      case PerFragment =>
        forall k | 0 <= k < |w.h.book.sets| && 0 < w.h.book.sets[k].size
          ensures IsMessage(w.h.book.sets, w.h.book.sets[k].root)
        {
          assert SetOk(env, w.s.users.Keys, w.s.timestamp, w.h.book, k);
        }
    }
  }

  /** A recording is that of some message. */
  lemma RecordsSome(env: Env, w: World, who: Who) returns (r: nat)
    requires Inv(env, w) && CanStep(env, w, who) && RecordsNeedlessly(env, w, who, AnyRoot())
    ensures RecordsNeedlessly(env, w, who, Only(r))
    ensures exists k: nat :: k < |w.h.book.sets| && 0 < w.h.book.sets[k].size && w.h.book.sets[k].root == r
  {
    hide Inv, Fire, Needless;
    var u, m := who.user, Event(w.s, who.user).message;
    RecordingTurn(env, w, u, m);
    HasFragments(env, w, m);
    r := w.h.book.sets[m.fragmentSet].root;
  }

  lemma {:induction false} SomeSurplus(env: Env, w: World, schedule: seq<Who>, w': World) returns (r: nat)
    requires Inv(env, w) && Leads(env, w, schedule, w') && RootsFull(w'.h.book.sets)
    requires 0 < Steps(env, w, schedule, Surplus(env, AnyRoot()))
    ensures IsMessage(w'.h.book.sets, r) && 0 < Steps(env, w, schedule, Surplus(env, Only(r)))
    decreases |schedule|
  {
    hide Inv, RecordsNeedlessly, IsNext, Fire, After;
    LeadsOn(env, w, schedule, w');
    StepKeeps(env, w, schedule[0]);
    if RecordsNeedlessly(env, w, schedule[0], AnyRoot()) {
      r := RecordsSome(env, w, schedule[0]);
      RunPrefix(env, w, schedule, w');
    } else {
      r := SomeSurplus(env, After(env, w, schedule[0]), schedule[1..], w');
    }
  }

  lemma OneMessage(sets: seq<SetInfo>, r: nat)
    ensures |Messages(sets, Only(r))| == One(IsMessage(sets, r))
  {
    assert Messages(sets, Only(r)) == if IsMessage(sets, r) then {r} else {};
  }

  /** Exactly-once recording, under either strategy: when a run halts, every message with fragments has been
      recorded exactly once if and only if no recording of the run was needless. */
  lemma RecordedOnceExactly(env: Env, w0: World, schedule: seq<Who>, w: World)
    requires Start(w0) && Leads(env, w0, schedule, w) && NoMoreEvents(w.s)
    ensures (forall r: nat :: IsMessage(w.h.book.sets, r) ==>
               Steps(env, w0, schedule, Recordings(env, Only(r))) == 1)
       <==> Steps(env, w0, schedule, Surplus(env, AnyRoot())) == 0
  {
    hide Inv, NoMoreEvents, Leads, Start, IsMessage, RootsFull, RecordsNeedlessly, Steps;
    var sets := w.h.book.sets;
    StartKeeps(env, w0);
    FinalRoots(env, w0, schedule, w);
    forall r: nat | IsMessage(sets, r)
      ensures Steps(env, w0, schedule, Recordings(env, Only(r)))
           == 1 + Steps(env, w0, schedule, Surplus(env, Only(r)))
    {
      RecordingsExactly(env, w0, schedule, w, Only(r));
      OneMessage(sets, r);
    }
    if Steps(env, w0, schedule, Surplus(env, AnyRoot())) == 0 {
      forall r: nat | IsMessage(sets, r)
        ensures Steps(env, w0, schedule, Surplus(env, Only(r))) == 0
      {
        FewerSurplus(env, w0, schedule, r);
      }
    } else {
      var r := SomeSurplus(env, w0, schedule, w);
    }
  }

  lemma FewerSurplus(env: Env, w: World, schedule: seq<Who>, r: nat)
    ensures Steps(env, w, schedule, Surplus(env, Only(r))) <= Steps(env, w, schedule, Surplus(env, AnyRoot()))
  {
    hide Needless, Records;
    StepsMonotone(env, w, schedule, Surplus(env, Only(r)), Surplus(env, AnyRoot()));
  }
}
