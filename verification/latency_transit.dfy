/** Every packet that is not dropped arrives, once and at the right time; and exactly when its timer fires. */
module LatencyTransit {
  import opened EventQueue
  import opened LatencySim
  import opened LatencyHistory
  import opened LatencyInvariant
  import opened LatencyNodeSteps
  import opened LatencyUserSteps
  import opened LatencyEgressSteps
  import opened LatencyResendSteps
  import opened LatencyRuns
  import opened LatencyTiming
  import LatencyDelivery

  // ---------- Arrival ----------

  /** Message `id` is on its way to its recipient. */
  predicate InTransit(h: History, id: nat) {
    id < |h.stage| && (h.stage[id].Relayed? || h.stage[id].Arrived?)
  }

  /** Is this the step at which a user takes message `id`? */
  ghost predicate HandsOver(w: World, who: Who, id: nat) {
    && who.AtUser? && BusyUser(w.s, who.user)
    && Event(w.s, who.user).Handover? && Event(w.s, who.user).message.id == id
  }

  ghost function HandoverOf(id: nat): (World, Who) -> bool {
    (w, who) => HandsOver(w, who, id)
  }

  /** Moreover the user is `u` and the time is `t`. */
  ghost function HandoverTo(id: nat, u: UserId, t: Timestamp): (World, Who) -> bool {
    (w, who) => HandsOver(w, who, id) && who.user == u && UserTime(w.s, who.user) == t
  }

  /** The recipient of message `id`, according to the books. */
  predicate Addressed(book: Book, id: nat, u: UserId) {
    && id < |book.ids| && book.ids[id].fragmentSet < |book.sets|
    && book.sets[book.ids[id].fragmentSet].recipient == u
  }

  lemma NodeTransit(env: Env, h: History, content: Content, id: nat, t: Trip)
    requires Flying(h, id, t) && Moving(env, h, content)
    ensures InTransit(AdvanceNode(env, h, content), id) == InTransit(h, id)
  {
  }

  lemma HandoverTransit(env: Env, s: State, h: History, u: UserId, m: Message, id: nat)
    requires u in s.users && At(h, m.id, Arrived(u))
    ensures One(InTransit(AfterHandover(env, s, h, u, m), id)) + One(m.id == id) == One(InTransit(h, id))
  {
  }

  lemma EgressTransit(env: Env, s: State, h: History, u: UserId, p: Packet, id: nat, t: Trip)
    requires u in s.users && Core(p).OfMessage? && At(h, MessageOf(p).id, Queued(u)) && Flying(h, id, t)
    ensures InTransit(AfterEgress(env, s, h, u, p), id) == InTransit(h, id)
  {
  }

  lemma BuildTransit(h: History, u: UserId, info: SetInfo, packets: seq<Packet>, id: nat, t: Trip)
    requires Flying(h, id, t) && forall p :: p in packets ==> Core(p).OfMessage?
    ensures InTransit(AfterBuild(h, u, info, packets), id) == InTransit(h, id)
  {
  }

  lemma TimeoutTransit(env: Env, s: State, h: History, u: UserId, k: nat, id: nat, t: Trip)
    requires u in s.users && Flying(h, id, t)
    ensures k in s.users[u].originals ==> InTransit(AfterTimeout(env, s, h, u, k), id) == InTransit(h, id)
  {
  }

  /** A message leaves transit by being handed over, and in no other way. */
  lemma StepTransit(env: Env, w: World, who: Who, id: nat, t: Trip)
    requires Inv(env, w) && CanStep(env, w, who) && Flying(w.h, id, t)
    ensures One(InTransit(After(env, w, who).h, id)) + One(HandsOver(w, who, id)) == One(InTransit(w.h, id))
  {
    hide Inv;
    match who {
      case AtNode(n) =>
        HeadMoves(env, w, n);
        NodeTransit(env, w.h, Head(w.s, n).content, id, t);
      case AtUser(u) =>
        var s1 := Popped(w.s, u);
        match Event(w.s, u) {
          case Handover(m) =>
            HandoverReady(env, w, u);
            HandoverTransit(env, s1, w.h, u, m, id);
          case Egress(p) =>
            EgressReady(env, w, u);
            EgressTransit(env, s1, w.h, u, p, id, t);
          case SendMessage(n) =>
            var info := SetInfo(|w.h.book.sets|, u, 1, n, s1.timestamp, |w.h.book.ids|);
            BuildTransit(w.h, u, info, Packets(env, s1, u, 1, n), id, t);
          case AckTimeout(k) => TimeoutTransit(env, s1, w.h, u, k, id, t);
        }
    }
  }

  /** It is handed over to its recipient, at its handover time. */
  lemma HandedOverRight(env: Env, w: World, who: Who, id: nat, t: Trip, u: UserId)
    requires Inv(env, w) && CanStep(env, w, who) && Flying(w.h, id, t) && Addressed(w.h.book, id, u)
    ensures HandoverOf(id)(w, who) <==> HandoverTo(id, u, HandoverTime(t.flight))(w, who)
  {
    hide Inv;
    if HandsOver(w, who, id) {
      HandoverReady(env, w, who.user);
    }
  }

  lemma {:induction false} RunTransit(env: Env, w: World, schedule: seq<Who>, w': World, id: nat, t: Trip, u: UserId)
    requires Inv(env, w) && Leads(env, w, schedule, w') && Flying(w.h, id, t) && Addressed(w.h.book, id, u)
    ensures Steps(env, w, schedule, HandoverOf(id)) + One(InTransit(w'.h, id)) == One(InTransit(w.h, id))
    ensures Steps(env, w, schedule, HandoverTo(id, u, HandoverTime(t.flight)))
            == Steps(env, w, schedule, HandoverOf(id))
    decreases |schedule|
  {
    hide Inv, Flying, InTransit, IsNext, Fire, After;
    if schedule == [] {
      LeadsNowhere(env, w, w');
    } else {
      LeadsOn(env, w, schedule, w');
      var who := schedule[0];
      StepKeeps(env, w, who);
      StepFlying(env, w, who, id, t);
      StepTransit(env, w, who, id, t);
      HandedOverRight(env, w, who, id, t, u);
      StepPrefix(env, w, who);
      RunTransit(env, After(env, w, who), schedule[1..], w', id, t, u);
    }
  }

  /** What is in transit is waiting somewhere, and is not late. */
  lemma TransitIsDue(env: Env, w: World, id: nat, t: Trip)
    requires Inv(env, w) && Flying(w.h, id, t) && InTransit(w.h, id)
    ensures !NoMoreEvents(w.s) && w.s.timestamp <= HandoverTime(t.flight)
  {
    hide NodesConserved, UsersConserved, NodeItems, UserItems, MemoriesOk, Tally, Live;
    assert StageOk(env, w.s.nodes.Keys, w.h, id);
    assert SetOk(env, w.s.users.Keys, w.s.timestamp, w.h.book, w.h.book.ids[id].fragmentSet);
    match w.h.stage[id] {
      case Relayed(n) =>
        RelayedIsQueued(env, w, n, id);
        assert w.s.nodes[n].ingress[0] in w.s.nodes[n].ingress;
      case Arrived(v) =>
        ArrivedIsQueued(env, w, v, id);
        assert w.s.users[v].events[0] in w.s.users[v].events;
    }
  }

  /** A packet that leaves at time T and is not dropped is handed over at most once, to the recipient of its
      message and at exactly T plus its total delay, whatever else happens in between; and it has been handed
      over once the run has halted or the clock is past that time. */
  lemma ExactTransit(env: Env, w: World, v: UserId, p: Packet, schedule: seq<Who>, w': World)
    requires Reachable(env, w) && Sends(env, w, v, p) && Leads(env, After(env, w, AtUser(v)), schedule, w')
    ensures var m, w1, arrival := MessageOf(p), After(env, w, AtUser(v)), UserTime(w.s, v) + TotalDelay(p);
            var handovers := Steps(env, w1, schedule, HandoverOf(m.id));
            && handovers <= 1 && Steps(env, w1, schedule, HandoverTo(m.id, m.recipient, arrival)) == handovers
            && (NoMoreEvents(w'.s) || arrival < w'.s.timestamp ==> handovers == 1)
  {
    hide Inv, NoMoreEvents, CanStep, After, Steps;
    ReachableInv(env, w);
    SentFlies(env, w, v, p);
    var m, w1, t := MessageOf(p), After(env, w, AtUser(v)), TripOf(env, w, v, p);
    SentIsInTransit(env, w, v, p);
    RunTransit(env, w1, schedule, w', m.id, t, m.recipient);
    RunFlying(env, w1, schedule, w', m.id, t);
    if InTransit(w'.h, m.id) {
      TransitIsDue(env, w', m.id, t);
    }
  }

  lemma SentIsInTransit(env: Env, w: World, v: UserId, p: Packet)
    requires Inv(env, w) && Sends(env, w, v, p)
    ensures var w1 := After(env, w, AtUser(v));
            InTransit(w1.h, MessageOf(p).id) && Addressed(w1.h.book, MessageOf(p).id, MessageOf(p).recipient)
  {
    hide Inv;
    EgressReady(env, w, v);
    EgressFires(env, w, v);
  }

  // ---------- Timers ----------

  /** Is this the step at which timer `id` fires? */
  ghost predicate FiresTimer(w: World, who: Who, id: nat) {
    who.AtUser? && BusyUser(w.s, who.user) && Event(w.s, who.user) == AckTimeout(id)
  }

  ghost function FiringOf(id: nat): (World, Who) -> bool {
    (w, who) => FiresTimer(w, who, id)
  }

  /** Moreover the time is `t`. */
  ghost function FiringAt(id: nat, t: Timestamp): (World, Who) -> bool {
    (w, who) => FiresTimer(w, who, id) && UserTime(w.s, who.user) == t
  }

  function Due(f: Flight): Timestamp { f.at + f.timeout }

  /** The acknowledgement of a trip cannot come before its timer. */
  predicate Overdue(t: Trip) {
    t.dropped || t.flight.timeout <= t.flight.delay + t.ackDelay
  }

  /** A timer that is armed is waiting with its user, and is not late. */
  lemma ArmedIsQueued(env: Env, w: World, id: nat)
    requires Inv(env, w) && env.strategy.PerFragment? && id in w.h.timers
    ensures var u := w.h.timers[id];
            && BusyUser(w.s, u) && id in w.h.book.flights
            && w.s.timestamp <= UserTime(w.s, u) <= Due(w.h.book.flights[id])
  {
    hide NodesConserved, NodeItems, MemoriesOk, Tally, Live;
    var u := w.h.timers[id];
    assert UserBag(w.s.users, u)[TimerKey(id)] == One(TimerAt(w.h, id, u));
    var q := w.s.users[u].events;
    var i := BagMember(q, EventKey, TimerKey(id));
    assert q[i] in q && q[0] in q;
    assert UserItemOk(env, w.s.nodes.Keys, w.s.timestamp, w.h.book, u, q[i]);
    FirstIsEarliest(q, i);
  }

  /** When the acknowledgement of an overdue trip comes back, its timer has fired: a tie goes to the user. */
  lemma AckComesLate(env: Env, w: World, n: NodeId, id: nat, t: Trip)
    requires Turn(env, w, AtNode(n)) && env.strategy.PerFragment? && Flying(w.h, id, t) && Overdue(t)
    requires Head(w.s, n).content.OfAck? && Head(w.s, n).content.ack.messageId == id
    ensures id !in w.h.timers
  {
    hide Inv;
    RelayAt(env, w, n);
    HeadOk(env, w, n);
    if id in w.h.timers {
      ArmedIsQueued(env, w, id);
    }
  }

  lemma EgressArmed(env: Env, s: State, h: History, u: UserId, p: Packet, id: nat, t: Trip)
    requires u in s.users && Core(p).OfMessage? && At(h, MessageOf(p).id, Queued(u)) && Flying(h, id, t)
    requires env.strategy.PerFragment?
    ensures id in AfterEgress(env, s, h, u, p).timers <==> id in h.timers
  {
  }

  lemma NodeArmed(env: Env, h: History, content: Content, id: nat)
    requires content.OfAck? && content.ack.messageId == id ==> id !in h.timers
    ensures id in AdvanceNode(env, h, content).timers <==> id in h.timers
  {
  }

  lemma TimeoutArmed(env: Env, s: State, h: History, u: UserId, k: nat)
    requires u in s.users && k in s.users[u].originals
    ensures AfterTimeout(env, s, h, u, k).timers == h.timers - {k}
  {
  }

  /** An overdue timer is disarmed by firing, and in no other way. */
  lemma StepArmed(env: Env, w: World, who: Who, id: nat, t: Trip)
    requires Inv(env, w) && CanStep(env, w, who) && env.strategy.PerFragment? && Flying(w.h, id, t) && Overdue(t)
    ensures One(id in After(env, w, who).h.timers) + One(FiresTimer(w, who, id)) == One(id in w.h.timers)
  {
    hide Inv, Flying, Overdue, Fire, AfterTimeout, AfterEgress, AdvanceNode, Marked, Complete, NodeRange;
    match who {
      case AtNode(n) =>
        var content := Head(w.s, n).content;
        if content.OfAck? && content.ack.messageId == id { AckComesLate(env, w, n, id, t); }
        NodeArmed(env, w.h, content, id);
      case AtUser(u) =>
        match Event(w.s, u) {
          case Egress(p) =>
            EgressReady(env, w, u);
            EgressArmed(env, Popped(w.s, u), w.h, u, p, id, t);
          case AckTimeout(k) =>
            TimeoutReady(env, w, u);
            TimeoutArmed(env, Popped(w.s, u), w.h, u, k);
          case _ =>
        }
    }
  }

  lemma FiredRight(env: Env, w: World, who: Who, id: nat, t: Trip)
    requires Inv(env, w) && CanStep(env, w, who) && env.strategy.PerFragment? && Flying(w.h, id, t)
    ensures FiringOf(id)(w, who) <==> FiringAt(id, Due(t.flight))(w, who)
    ensures FiringOf(id)(w, who) ==> Overdue(t)
  {
    hide Inv;
    if FiresTimer(w, who, id) {
      EventOk(env, w, who.user);
      if !t.dropped { TimerIsLate(env, w, who.user, id, t); }
    }
  }

  lemma {:induction false} RunArmed(env: Env, w: World, schedule: seq<Who>, w': World, id: nat, t: Trip)
    requires Inv(env, w) && Leads(env, w, schedule, w') && env.strategy.PerFragment? && Flying(w.h, id, t)
    ensures !Overdue(t) ==> Steps(env, w, schedule, FiringOf(id)) == 0
    ensures Overdue(t) ==> Steps(env, w, schedule, FiringOf(id)) + One(id in w'.h.timers) == One(id in w.h.timers)
    ensures Steps(env, w, schedule, FiringAt(id, Due(t.flight))) == Steps(env, w, schedule, FiringOf(id))
    decreases |schedule|
  {
    hide Inv, Flying, Overdue, IsNext, Fire, After;
    if schedule == [] {
      LeadsNowhere(env, w, w');
    } else {
      LeadsOn(env, w, schedule, w');
      var who := schedule[0];
      StepKeeps(env, w, who);
      StepFlying(env, w, who, id, t);
      if Overdue(t) { StepArmed(env, w, who, id, t); }
      FiredRight(env, w, who, id, t);
      RunArmed(env, After(env, w, who), schedule[1..], w', id, t);
    }
  }

  lemma LeftIsArmed(env: Env, w: World, v: UserId, p: Packet)
    requires Inv(env, w) && Leaves(env, w, v, p) && env.strategy.PerFragment?
    ensures MessageOf(p).id in After(env, w, AtUser(v)).h.timers
  {
    hide Inv;
    EgressReady(env, w, v);
    EgressFires(env, w, v);
  }

  /** PerFragment: exactly when a packet is sent again. The timer of a packet that leaves at time T fires if the
      packet is dropped, or if its delay and that of its acknowledgement add up to at least the timeout; then it
      fires once, at T plus the timeout, in every run that goes on past that time or halts. Otherwise it never
      fires. */
  lemma TimerFiresExactly(env: Env, w: World, v: UserId, p: Packet, schedule: seq<Who>, w': World)
    requires Reachable(env, w) && env.strategy.PerFragment?
    requires Leaves(env, w, v, p) && Leads(env, After(env, w, AtUser(v)), schedule, w')
    ensures var m, w1, timeout := MessageOf(p), After(env, w, AtUser(v)), env.timeout(TotalDelay(p));
            var due, firings := UserTime(w.s, v) + timeout, Steps(env, w1, schedule, FiringOf(m.id));
            if Survives(env, w.s.cursor, w.s.users[v]) && TotalDelay(p) + TotalDelay(m.ack) < timeout then firings == 0
            else
              && firings <= 1 && Steps(env, w1, schedule, FiringAt(m.id, due)) == firings
              && (NoMoreEvents(w'.s) || due < w'.s.timestamp ==> firings == 1)
  {
    hide Inv, NoMoreEvents, IsNext, Fire, After, Steps;
    ReachableInv(env, w);
    SentFlies(env, w, v, p);
    LeftIsArmed(env, w, v, p);
    var id, w1, t := MessageOf(p).id, After(env, w, AtUser(v)), TripOf(env, w, v, p);
    RunArmed(env, w1, schedule, w', id, t);
    RunFlying(env, w1, schedule, w', id, t);
    if id in w'.h.timers {
      ArmedIsQueued(env, w', id);
      if NoMoreEvents(w'.s) { LatencyDelivery.NothingWaits(env, w', id); }
    }
  }
}
