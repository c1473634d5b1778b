/** What the figures are: when a delivery is recorded, and what is pushed, read off the steps of the run. */
module LatencyFigures {
  import opened Wrappers
  import opened EventQueue
  import opened LatencySim
  import opened LatencyHistory
  import opened LatencyInvariant
  import opened LatencyNodeSteps
  import opened LatencyUserSteps
  import opened LatencySendSteps
  import opened LatencyResendSteps
  import opened LatencyRebuildSteps
  import opened LatencyRuns
  import opened LatencyTiming
  import opened LatencyTransit
  import opened LatencyRecords
  import opened LatencyTermination
  import opened LatencyOnce
  import opened LatencyRepeats

  // ---------- The first fragment ----------

  /** Is this a step at which user `u` takes a fragment of set `k`? */
  ghost predicate Brings(w: World, who: Who, u: UserId, k: nat) {
    who == AtUser(u) && BusyUser(w.s, u) && Event(w.s, u).Handover? && Event(w.s, u).message.fragmentSet == k
  }

  /** When user `u` takes the first fragment of set `k` in a run. */
  ghost function FirstBrought(env: Env, w: World, schedule: seq<Who>, u: UserId, k: nat): Option<Timestamp>
    decreases |schedule|
  {
    if schedule == [] || !CanStep(env, w, schedule[0]) then None
    else if Brings(w, schedule[0], u, k) then Some(UserTime(w.s, u))
    else FirstBrought(env, After(env, w, schedule[0]), schedule[1..], u, k)
  }

  ghost predicate SameFirsts(users: Users, users': Users) {
    users'.Keys == users.Keys && forall u :: u in users ==> users'[u].tFirst == users[u].tFirst
  }

  ghost predicate KeepsFirsts(s: State, o: Outcome) {
    o.Stepped? ==> SameFirsts(s.users, o.state.users)
  }

  lemma NodeFirsts(env: Env, s: State, n: NodeId)
    requires BusyNode(s, n)
    ensures KeepsFirsts(s, FireNode(env, s, n))
  {
  }

  lemma EgressFirsts(env: Env, s: State, u: UserId, p: Packet)
    requires u in s.users
    ensures KeepsFirsts(s, OnEgress(env, s, u, p))
  {
  }

  lemma SendFirsts(env: Env, s: State, u: UserId, n: nat)
    requires u in s.users
    ensures KeepsFirsts(s, OnSendMessage(env, s, u, n))
  {
  }

  lemma TimeoutFirsts(env: Env, s: State, u: UserId, id: nat)
    requires u in s.users
    ensures KeepsFirsts(s, OnAckTimeout(env, s, u, id))
  {
    hide EventQueue.Insert, InsertEgresses, Fragments, RenewedPacket, Redated;
    if id in s.users[u].originals {
      var m := s.users[u].originals[id];
      var users1 := Forgotten(s.users, u, id);
      match env.strategy {
        case PerFragment =>
        case WholeMessage =>
          if m.recipient in users1 { RebuildFirsts(env, s.(users := Cleared(users1, m.recipient, m.fragmentSet)), u,
                                                   m); }
      }
    }
  }

  lemma RebuildFirsts(env: Env, s: State, u: UserId, m: Message)
    requires u in s.users
    ensures KeepsFirsts(s, Rebuild(env, s, u, m))
  {
    hide InsertEgresses, Fragments, Redated;
  }

  lemma OtherFirsts(env: Env, w: World, who: Who)
    requires CanStep(env, w, who) && (who.AtUser? ==> !Event(w.s, who.user).Handover?)
    ensures SameFirsts(w.s.users, After(env, w, who).s.users)
  {
    hide OnHandover, OnEgress, OnSendMessage, OnAckTimeout, FireNode;
    match who {
      case AtNode(n) => NodeFirsts(env, w.s, n);
      case AtUser(u) =>
        var s1 := Popped(w.s, u);
        match Event(w.s, u) {
          case Egress(p) => EgressFirsts(env, s1, u, p);
          case SendMessage(n) => SendFirsts(env, s1, u, n);
          case AckTimeout(id) => TimeoutFirsts(env, s1, u, id);
        }
    }
  }

  /** What user `u` remembers of the first fragment of set `k`. */
  ghost function Remembered(users: Users, u: UserId, k: nat): Option<Timestamp> {
    if u in users && k in users[u].tFirst then Some(users[u].tFirst[k]) else None
  }

  lemma HandoverFirsts(env: Env, w: World, w': World, v: UserId, m: Message, now: Timestamp, u: UserId, k: nat)
    requires HandoverOk(env, w, v, m, now) && HandoverDelta(env, w, w', v, m, now)
    ensures Remembered(w'.s.users, u, k)
         == if Remembered(w.s.users, u, k).None? && u == v && k == m.fragmentSet then Some(now)
            else Remembered(w.s.users, u, k)
  {
    hide Completes, MessageOk;
  }

  lemma StepFirsts(env: Env, w: World, who: Who, u: UserId, k: nat)
    requires Inv(env, w) && CanStep(env, w, who)
    ensures Remembered(After(env, w, who).s.users, u, k)
         == if Remembered(w.s.users, u, k).None? && Brings(w, who, u, k) then Some(UserTime(w.s, u))
            else Remembered(w.s.users, u, k)
  {
    hide Inv, Fire, After;
    if who.AtUser? && Event(w.s, who.user).Handover? {
      HandoverReady(env, w, who.user);
      HandoverFires(env, w, who.user);
      HandoverFirsts(env, w, After(env, w, who), who.user, Event(w.s, who.user).message, UserTime(w.s, who.user), u, k);
    } else {
      OtherFirsts(env, w, who);
    }
  }

  /** A user remembers when the first fragment of a set came, and never anything else. */
  lemma {:induction false} RunFirsts(env: Env, w: World, schedule: seq<Who>, w': World, u: UserId, k: nat)
    requires Inv(env, w) && Leads(env, w, schedule, w')
    ensures Remembered(w'.s.users, u, k)
         == if Remembered(w.s.users, u, k).None? then FirstBrought(env, w, schedule, u, k)
            else Remembered(w.s.users, u, k)
    decreases |schedule|
  {
    hide Inv, Remembered, Brings, IsNext, Fire, After;
    if schedule == [] {
      LeadsNowhere(env, w, w');
    } else {
      LeadsOn(env, w, schedule, w');
      StepKeeps(env, w, schedule[0]);
      StepFirsts(env, w, schedule[0], u, k);
      RunFirsts(env, After(env, w, schedule[0]), schedule[1..], w', u, k);
    }
  }

  // ---------- The fragments held ----------

  /** Is this a step at which user `u` takes fragment `i` of set `k`? */
  ghost predicate BringsFragment(w: World, who: Who, u: UserId, k: nat, i: nat) {
    Brings(w, who, u, k) && Event(w.s, u).message.fragmentIndex == i
  }

  /** WholeMessage: is this a step at which the timer of set `k` fires? */
  ghost predicate Clears(env: Env, w: World, who: Who, k: nat) {
    env.strategy.WholeMessage? && FiresTimer(w, who, k)
  }

  /** Has user `u` taken fragment `i` of set `k` in a run, since the timer of `k` last fired? `before` says
      whether it had at the start of the run. */
  ghost function HeldAfter(env: Env, w: World, schedule: seq<Who>, u: UserId, k: nat, i: nat, before: bool): bool
    decreases |schedule|
  {
    if schedule == [] || !CanStep(env, w, schedule[0]) then before
    else
      var now := BringsFragment(w, schedule[0], u, k, i) || (before && !Clears(env, w, schedule[0], k));
      HeldAfter(env, After(env, w, schedule[0]), schedule[1..], u, k, i, now)
  }

  lemma HandoverHeldNow(env: Env, w: World, w': World, v: UserId, m: Message, now: Timestamp, u: UserId, k: nat, i: nat)
    requires HandoverOk(env, w, v, m, now) && HandoverDelta(env, w, w', v, m, now)
    ensures Holds(w'.s.users, u, k, i)
       <==> Holds(w.s.users, u, k, i) || (u == v && k == m.fragmentSet && i == m.fragmentIndex)
  {
    hide Completes, MessageOk;
  }

  lemma QuietFragments(env: Env, w: World, who: Who)
    requires CanStep(env, w, who) && (who.AtUser? ==> !Event(w.s, who.user).Handover?)
    requires env.strategy.WholeMessage? ==> !Fires(w, who)
    ensures SameFragments(w.s.users, After(env, w, who).s.users)
  {
    hide OnHandover, OnEgress, OnSendMessage, OnAckTimeout, FireNode;
    match who {
      case AtNode(n) => NodeFragments(env, w.s, n);
      case AtUser(u) =>
        var s1 := Popped(w.s, u);
        match Event(w.s, u) {
          case Egress(p) => EgressFragments(env, s1, u, p);
          case SendMessage(n) => SendFragments(env, s1, u, n);
          case AckTimeout(id) => ResendFragments(env, s1, u, id);
        }
    }
  }

  lemma ClearedHeld(users: Users, v: UserId, id: nat, m: Message, now: Timestamp, packets: seq<Packet>, u: UserId,
                    k: nat, i: nat)
    requires v in users && users[v].events != [] && m.recipient in users
    ensures Holds(PushEgresses(ClearedUsers(users, v, id, m), v, now, packets), u, k, i)
       <==> Holds(users, u, k, i) && !(u == m.recipient && k == m.fragmentSet)
  {
    hide InsertEgresses;
  }

  /** Only its recipient holds anything of a set. */
  lemma HoldsOwn(env: Env, w: World, u: UserId, k: nat, i: nat)
    requires Inv(env, w) && Holds(w.s.users, u, k, i)
    ensures k < |w.h.book.sets| && w.h.book.sets[k].recipient == u
  {
    hide Queues, Live, Tally, BookOk, StagesOk, TimersOk;
    assert MemoryOk(env, w.s.nodes.Keys, w.s.timestamp, w.h.book, u, w.s.users[u]);
    assert FragmentsOk(w.h.book, u, w.s.users[u], k);
  }

  lemma TimeoutHeld(env: Env, w: World, v: UserId, u: UserId, k: nat, i: nat)
    requires Turn(env, w, AtUser(v)) && env.strategy.WholeMessage? && Event(w.s, v).AckTimeout?
    ensures CanStep(env, w, AtUser(v))
    ensures Holds(After(env, w, AtUser(v)).s.users, u, k, i)
       <==> Holds(w.s.users, u, k, i) && Event(w.s, v).id != k
  {
    hide Inv, Fire, PushEgresses, ClearedUsers, Holds;
    RebuildTurn(env, w, v);
    var id, now := Event(w.s, v).id, UserTime(w.s, v);
    var m := w.s.users[v].originals[id];
    ClearedHeld(w.s.users, v, id, m, now, RebuiltPackets(env, ClearedState(w.s, v, id, m), m), u, k, i);
    if Holds(w.s.users, u, k, i) { HoldsOwn(env, w, u, k, i); }
  }

  lemma StepHolds(env: Env, w: World, who: Who, u: UserId, k: nat, i: nat)
    requires Inv(env, w) && CanStep(env, w, who)
    ensures Holds(After(env, w, who).s.users, u, k, i)
       <==> BringsFragment(w, who, u, k, i) || (Holds(w.s.users, u, k, i) && !Clears(env, w, who, k))
  {
    hide Inv, Fire, After;
    if who.AtUser? && Event(w.s, who.user).Handover? {
      HandoverReady(env, w, who.user);
      HandoverFires(env, w, who.user);
      HandoverHeldNow(env, w, After(env, w, who), who.user, Event(w.s, who.user).message, UserTime(w.s, who.user),
                      u, k, i);
    } else if env.strategy.WholeMessage? && Fires(w, who) {
      TimeoutHeld(env, w, who.user, u, k, i);
    } else {
      QuietFragments(env, w, who);
    }
  }

  /** A user holds exactly the fragments that have come since the set was last cleared. */
  lemma {:induction false} RunHolds(env: Env, w: World, schedule: seq<Who>, w': World, u: UserId, k: nat, i: nat)
    requires Inv(env, w) && Leads(env, w, schedule, w')
    ensures Holds(w'.s.users, u, k, i) == HeldAfter(env, w, schedule, u, k, i, Holds(w.s.users, u, k, i))
    decreases |schedule|
  {
    hide Inv, Holds, BringsFragment, Clears, IsNext, Fire, After;
    if schedule == [] {
      LeadsNowhere(env, w, w');
    } else {
      LeadsOn(env, w, schedule, w');
      StepKeeps(env, w, schedule[0]);
      StepHolds(env, w, schedule[0], u, k, i);
      RunHolds(env, After(env, w, schedule[0]), schedule[1..], w', u, k, i);
    }
  }

  // ---------- When a message was sent ----------

  /** Does this step build a fragment set? */
  ghost predicate BuildsSet(env: Env, w: World, who: Who) {
    && who.AtUser? && BusyUser(w.s, who.user)
    && (Event(w.s, who.user).SendMessage? || (env.strategy.WholeMessage? && Event(w.s, who.user).AckTimeout?))
  }

  /** The step that builds set `k` in a run: its user, its time and its event. */
  ghost function Builder(env: Env, w: World, schedule: seq<Who>, k: nat): Option<(UserId, Timestamp, UserEvent)>
    decreases |schedule|
  {
    if schedule == [] || !CanStep(env, w, schedule[0]) then None
    else if BuildsSet(env, w, schedule[0]) && w.s.nextFragmentSet == k then
      var u := schedule[0].user;
      Some((u, UserTime(w.s, u), Event(w.s, u)))
    else Builder(env, After(env, w, schedule[0]), schedule[1..], k)
  }

  /** The step at which the message of set `k` was taken on: for a rebuilt set, that of the set before. */
  ghost function Origin(env: Env, w: World, schedule: seq<Who>, k: nat): Option<(UserId, Timestamp, nat)> {
    match Builder(env, w, schedule, k)
    case None => None
    case Some((u, now, event)) =>
      match event
      case SendMessage(n) => Some((u, now, n))
      case AckTimeout(j) => if j < k then Origin(env, w, schedule, j) else None
      case _ => None
  }

  /** What a set is, as its builder says. */
  ghost predicate BuiltBy(sets: seq<SetInfo>, k: nat, made: (UserId, Timestamp, UserEvent)) {
    && k < |sets|
    && match made.2
       case SendMessage(n) =>
         && sets[k].sender == made.0 && sets[k].recipient == 1 && sets[k].size == n && sets[k].sendingTime == made.1
       case AckTimeout(j) =>
         && j < k && sets[k].sender == sets[j].sender && sets[k].recipient == sets[j].recipient
         && sets[k].size == sets[j].size && sets[k].sendingTime == sets[j].sendingTime
       case _ => false
  }

  lemma StepBuilds(env: Env, w: World, who: Who)
    requires Inv(env, w) && CanStep(env, w, who)
    ensures w.s.nextFragmentSet == |w.h.book.sets| && Prefix(w.h.book, After(env, w, who).h.book)
    ensures if BuildsSet(env, w, who)
            then |After(env, w, who).h.book.sets| == |w.h.book.sets| + 1
                 && BuiltBy(After(env, w, who).h.book.sets, |w.h.book.sets|,
                            (who.user, UserTime(w.s, who.user), Event(w.s, who.user)))
            else After(env, w, who).h.book.sets == w.h.book.sets
  {
    hide Inv, Fire, After, BuiltBy, Prefix;
    StepPrefix(env, w, who);
    SetsCount(env, w);
    if BuildsSet(env, w, who) {
      var u := who.user;
      match Event(w.s, u) {
        case SendMessage(n) =>
          SendFires(env, w, u);
          SentBuilt(w.h.book.sets, SendInfo(w.h, u, n, UserTime(w.s, u)), u, n);
        case AckTimeout(id) =>
          RebuildTurn(env, w, u);
          RebuiltBuilt(env, w, u, id, w.s.users[u].originals[id], UserTime(w.s, u));
      }
    } else if Fires(w, who) {
      ResendFires(env, w, who.user);
    } else {
      NothingBuilt(env, w, who);
    }
  }

  lemma SentBuilt(sets: seq<SetInfo>, info: SetInfo, u: UserId, n: nat)
    requires info.sender == u && info.recipient == 1 && info.size == n
    ensures BuiltBy(sets + [info], |sets|, (u, info.sendingTime, SendMessage(n)))
  {
  }

  lemma RebuiltBuilt(env: Env, w: World, u: UserId, id: nat, m: Message, now: Timestamp)
    requires RebuildOk(env, w, u, id, m, now)
    ensures BuiltBy(w.h.book.sets + [RebuildInfo(w.h, id, m)], |w.h.book.sets|, (u, now, AckTimeout(id)))
  {
  }

  lemma SetsCount(env: Env, w: World)
    requires Inv(env, w)
    ensures w.s.nextFragmentSet == |w.h.book.sets|
  {
  }

  lemma BuiltByMore(sets: seq<SetInfo>, sets': seq<SetInfo>, k: nat, made: (UserId, Timestamp, UserEvent))
    requires BuiltBy(sets, k, made) && sets <= sets'
    ensures BuiltBy(sets', k, made)
  {
  }

  lemma {:induction false} RunBuilders(env: Env, w: World, schedule: seq<Who>, w': World, k: nat)
    requires Inv(env, w) && Leads(env, w, schedule, w') && |w.h.book.sets| <= k
    ensures if k < |w'.h.book.sets|
            then Builder(env, w, schedule, k).Some?
                 && BuiltBy(w'.h.book.sets, k, Builder(env, w, schedule, k).value)
            else Builder(env, w, schedule, k).None?
    decreases |schedule|
  {
    hide Inv, BuiltBy, IsNext, Fire, After;
    if schedule == [] {
      LeadsNowhere(env, w, w');
    } else {
      LeadsOn(env, w, schedule, w');
      var w1 := After(env, w, schedule[0]);
      StepKeeps(env, w, schedule[0]);
      StepBuilds(env, w, schedule[0]);
      RunPrefix(env, w1, schedule[1..], w');
      if BuildsSet(env, w, schedule[0]) && |w.h.book.sets| == k {
        var u := schedule[0].user;
        BuiltByMore(w1.h.book.sets, w'.h.book.sets, k, (u, UserTime(w.s, u), Event(w.s, u)));
      } else {
        RunBuilders(env, w1, schedule[1..], w', k);
      }
    }
  }

  /** Every set is for the message that its origin says. */
  lemma {:induction false} OriginRight(env: Env, w0: World, schedule: seq<Who>, w: World, k: nat)
    requires Start(w0) && Leads(env, w0, schedule, w) && k < |w.h.book.sets|
    ensures var origin := Origin(env, w0, schedule, k);
            && origin.Some?
            && w.h.book.sets[k].sender == origin.value.0 && w.h.book.sets[k].recipient == 1
            && w.h.book.sets[k].sendingTime == origin.value.1 && w.h.book.sets[k].size == origin.value.2
  {
    hide Inv, Leads, Builder;
    StartKeeps(env, w0);
    RunBuilders(env, w0, schedule, w, k);
    var made := Builder(env, w0, schedule, k).value;
    if made.2.AckTimeout? {
      OriginRight(env, w0, schedule, w, made.2.id);
    }
  }

  // ---------- The figures ----------

  lemma StartHoldsNothing(w: World, u: UserId, k: nat)
    requires Start(w)
    ensures Remembered(w.s.users, u, k) == None && forall i: nat :: !Holds(w.s.users, u, k, i)
  {
  }

  /** The parts of a handover that the figures depend on. */
  lemma HandoverMessage(env: Env, w: World, u: UserId, m: Message)
    requires Inv(env, w) && IsNext(w.s, AtUser(u)) && Event(w.s, u) == Handover(m)
    ensures CanStep(env, w, AtUser(u)) && Inv(env, After(env, w, AtUser(u)))
    ensures RecordedRight(w.s, After(env, w, AtUser(u)).s, u, m)
    ensures After(env, w, AtUser(u)).s.timestamp == UserTime(w.s, u)
    ensures m.fragmentSet < |w.h.book.sets| && After(env, w, AtUser(u)).h.book.sets == w.h.book.sets
    ensures m.sendingTime == w.h.book.sets[m.fragmentSet].sendingTime
    ensures m.fragmentSize == w.h.book.sets[m.fragmentSet].size && m.fragmentIndex < m.fragmentSize
  {
    hide Inv, Fire, HoldsExactly;
    HandoverReady(env, w, u);
    HandoverFires(env, w, u);
    StepKeeps(env, w, AtUser(u));
    HasFragments(env, w, m);
    FiguresOf(env, w, After(env, w, AtUser(u)), u, m, UserTime(w.s, u));
  }

  lemma FiguresOf(env: Env, w: World, w': World, u: UserId, m: Message, now: Timestamp)
    requires Inv(env, w') && HandoverOk(env, w, u, m, now) && HandoverDelta(env, w, w', u, m, now)
    ensures RecordedRight(w.s, w'.s, u, m)
  {
    hide Books, Live, Queues, HandoverOk, HandoverDelta, RecordedRight;
    RecordedFigures(env, w, w', u, m, now);
  }

  /** In the run `schedule`, user `u` has taken exactly the fragments 0 to `n` - 1 of set `k`, not counting
      what came before the timer of `k` last fired. */
  ghost predicate AllTaken(env: Env, w0: World, schedule: seq<Who>, u: UserId, k: nat, n: nat) {
    forall i: nat :: HeldAfter(env, w0, schedule, u, k, i, false) <==> i < n
  }

  lemma HeldExactly(env: Env, w0: World, schedule: seq<Who>, w: World, u: UserId, k: nat, n: nat)
    requires Start(w0) && Leads(env, w0, schedule, w) && u in w.s.users && 0 < n
    ensures HoldsExactly(w.s.users[u], k, n) <==> AllTaken(env, w0, schedule, u, k, n)
  {
    hide Inv, Start, Leads;
    StartKeeps(env, w0);
    StartHoldsNothing(w0, u, k);
    forall i: nat
      ensures Holds(w.s.users, u, k, i) == HeldAfter(env, w0, schedule, u, k, i, false)
    {
      RunHolds(env, w0, schedule, w, u, k, i);
    }
    if AllTaken(env, w0, schedule, u, k, n) {
      assert HeldAfter(env, w0, schedule, u, k, 0, false) && Holds(w.s.users, u, k, 0);
      forall i: nat
        ensures i in w.s.users[u].fragments[k] <==> i < n
      {
        assert Holds(w.s.users, u, k, i) <==> i in w.s.users[u].fragments[k];
      }
    }
    if HoldsExactly(w.s.users[u], k, n) {
      forall i: nat
        ensures HeldAfter(env, w0, schedule, u, k, i, false) <==> i < n
      {
        assert Holds(w.s.users, u, k, i) <==> i in w.s.users[u].fragments[k];
      }
    }
  }

  lemma RememberedBefore(env: Env, w: World, u: UserId, k: nat)
    requires Inv(env, w) && Remembered(w.s.users, u, k).Some?
    ensures Remembered(w.s.users, u, k).value <= w.s.timestamp
  {
    hide Queues, Live, Tally, BookOk, StagesOk, TimersOk;
    assert MemoryOk(env, w.s.nodes.Keys, w.s.timestamp, w.h.book, u, w.s.users[u]);
    assert FirstOk(w.s.timestamp, w.h.book, k, w.s.users[u].tFirst[k]);
  }

  lemma SentBefore(env: Env, w: World, k: nat)
    requires Inv(env, w) && k < |w.h.book.sets|
    ensures w.h.book.sets[k].sendingTime <= w.s.timestamp
  {
    hide Queues, Live, Tally, MemoriesOk, StagesOk, TimersOk;
    assert SetOk(env, w.s.users.Keys, w.s.timestamp, w.h.book, k);
  }

  /** The figures that are pushed when user `u` takes a fragment of set `k` now: the time since the message was
      taken on, and the time since its recipient took the first fragment. */
  ghost predicate Pushes(s: State, s': State, now: Timestamp, sent: Timestamp, first: Timestamp, complete: bool)
    requires sent <= now && first <= now
  {
    && s'.deliveryTimes == s.deliveryTimes + (if complete then [now - sent] else [])
    && s'.firstToLast == s.firstToLast + (if complete then [now - first] else [])
  }

  lemma PushesRight(s: State, s': State, u: UserId, m: Message, first: Timestamp)
    requires RecordedRight(s, s', u, m) && m.sendingTime <= s'.timestamp && first <= s'.timestamp
    requires Remembered(s'.users, u, m.fragmentSet) == Some(first)
    ensures Pushes(s, s', s'.timestamp, m.sendingTime, first,
                   HoldsExactly(s'.users[u], m.fragmentSet, m.fragmentSize))
  {
    hide HoldsExactly;
    assert s.deliveryTimes + [] == s.deliveryTimes && s.firstToLast + [] == s.firstToLast;
  }

  /** Exactly when a delivery is recorded, and exactly which figures are pushed, all in terms of the steps of the
      run so far. Nothing is pushed unless the recipient has taken all fragments of the set, as many as its origin
      says. */
  lemma FiguresExactly(env: Env, w0: World, schedule: seq<Who>, w: World, u: UserId, m: Message)
    requires Start(w0) && Leads(env, w0, schedule, w) && IsNext(w.s, AtUser(u)) && Event(w.s, u) == Handover(m)
    ensures CanStep(env, w, AtUser(u))
    ensures var run, now, k := schedule + [AtUser(u)], UserTime(w.s, u), m.fragmentSet;
            var origin, first := Origin(env, w0, run, k), FirstBrought(env, w0, run, u, k);
            && origin.Some? && origin.value.1 <= now && first.Some? && first.value <= now
            && Pushes(w.s, After(env, w, AtUser(u)).s, now, origin.value.1, first.value,
                      AllTaken(env, w0, run, u, k, origin.value.2))
  {
    hide Inv, Start, Leads, Fire, After, Origin, FirstBrought, AllTaken, HoldsExactly, RecordedRight, Pushes;
    StartKeeps(env, w0);
    RunKeeps(env, w0, schedule, w);
    HandoverMessage(env, w, u, m);
    var run, w', k := schedule + [AtUser(u)], After(env, w, AtUser(u)), m.fragmentSet;
    LeadsFurther(env, w0, schedule, w, AtUser(u));
    StartHoldsNothing(w0, u, k);
    StepFirsts(env, w, AtUser(u), u, k);
    RunFirsts(env, w0, run, w', u, k);
    OriginRight(env, w0, run, w', k);
    HeldExactly(env, w0, run, w', u, k, m.fragmentSize);
    RememberedBefore(env, w', u, k);
    SentBefore(env, w', k);
    PushesRight(w.s, w'.s, u, m, FirstBrought(env, w0, run, u, k).value);
  }
}
