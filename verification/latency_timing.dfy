/** When messages arrive, and when timers do not fire. */
module LatencyTiming {
  import opened EventQueue
  import opened LatencySim
  import opened LatencyHistory
  import opened LatencyInvariant
  import opened LatencyNodeSteps
  import opened LatencyUserSteps
  import opened LatencyEgressSteps
  import opened LatencyRuns

  /** What is known of a message once it has left its sender; its acknowledgement takes `ackDelay`. */
  datatype Trip = Trip(flight: Flight, ackDelay: nat, dropped: bool)

  predicate Flying(h: History, id: nat, t: Trip) {
    && id < |h.stage| && !h.stage[id].Queued? && h.stage[id].Dropped? == t.dropped
    && id in h.book.flights && h.book.flights[id] == t.flight
    && id < |h.book.ids| && h.book.ids[id].ackDelay == t.ackDelay
  }

  /** Only what is on its way is moved by a node. */
  predicate Moving(env: Env, h: History, c: Content) {
    match (if c.OfPacket? then Core(c.packet) else c)
    case OfMessage(m) => m.id < |h.stage| && h.stage[m.id].Relayed?
    case OfAck(a) => env.strategy.PerFragment? ==> a.messageId < |h.stage| && h.stage[a.messageId].Acking?
  }

  lemma NodeStepFlying(env: Env, h: History, content: Content, id: nat, t: Trip)
    requires Flying(h, id, t) && Moving(env, h, content)
    ensures Flying(AdvanceNode(env, h, content), id, t)
  {
  }

  lemma HeadMoves(env: Env, w: World, n: NodeId)
    requires Turn(env, w, AtNode(n))
    ensures Moving(env, w.h, Head(w.s, n).content)
  {
    hide Inv;
    RelayAt(env, w, n);
  }

  lemma BuildFlying(h: History, u: UserId, info: SetInfo, packets: seq<Packet>, id: nat, t: Trip)
    requires Flying(h, id, t) && forall p :: p in packets ==> Core(p).OfMessage?
    ensures Flying(AfterBuild(h, u, info, packets), id, t)
  {
  }

  /** What has been sent once stays sent. */
  lemma StepFlying(env: Env, w: World, who: Who, id: nat, t: Trip)
    requires Inv(env, w) && CanStep(env, w, who) && Flying(w.h, id, t)
    ensures Flying(After(env, w, who).h, id, t)
  {
    hide Inv;
    match who {
      case AtNode(n) =>
        HeadMoves(env, w, n);
        NodeStepFlying(env, w.h, Head(w.s, n).content, id, t);
      case AtUser(u) => UserStepFlying(env, w, u, id, t);
    }
  }

  lemma UserStepFlying(env: Env, w: World, u: UserId, id: nat, t: Trip)
    requires Turn(env, w, AtUser(u)) && CanStep(env, w, AtUser(u)) && Flying(w.h, id, t)
    ensures Flying(Advance(env, w.s, w.h, AtUser(u)), id, t)
  {
    hide Queues, Books, Live;
    var s1 := Popped(w.s, u);
    match Event(w.s, u) {
      case Handover(m) =>
        HandoverReady(env, w, u);
        HandoverFlying(env, s1, w.h, u, m, id, t);
      case Egress(p) =>
        EgressReady(env, w, u);
        EgressFlying(env, s1, w.h, u, p, id, t);
      case SendMessage(n) =>
        var info := SetInfo(|w.h.book.sets|, u, 1, n, s1.timestamp, |w.h.book.ids|);
        BuildFlying(w.h, u, info, Packets(env, s1, u, 1, n), id, t);
      case AckTimeout(k) => TimeoutFlying(env, s1, w.h, u, k, id, t);
    }
  }

  lemma HandoverFlying(env: Env, s: State, h: History, u: UserId, m: Message, id: nat, t: Trip)
    requires u in s.users && At(h, m.id, Arrived(u)) && Flying(h, id, t)
    ensures Flying(AfterHandover(env, s, h, u, m), id, t)
  {
  }

  lemma EgressFlying(env: Env, s: State, h: History, u: UserId, p: Packet, id: nat, t: Trip)
    requires u in s.users && Core(p).OfMessage? && At(h, MessageOf(p).id, Queued(u)) && Flying(h, id, t)
    ensures Flying(AfterEgress(env, s, h, u, p), id, t)
  {
  }

  lemma TimeoutFlying(env: Env, s: State, h: History, u: UserId, k: nat, id: nat, t: Trip)
    requires u in s.users && Flying(h, id, t)
    ensures k in s.users[u].originals ==> Flying(AfterTimeout(env, s, h, u, k), id, t)
  {
  }

  lemma {:induction false} RunFlying(env: Env, w: World, schedule: seq<Who>, w': World, id: nat, t: Trip)
    requires Inv(env, w) && Leads(env, w, schedule, w') && Flying(w.h, id, t)
    ensures Inv(env, w') && Flying(w'.h, id, t)
    decreases |schedule|
  {
    hide Inv, Flying;
    if schedule == [] {
      LeadsNowhere(env, w, w');
    } else {
      LeadsOn(env, w, schedule, w');
      StepKeeps(env, w, schedule[0]);
      StepFlying(env, w, schedule[0], id, t);
      RunFlying(env, After(env, w, schedule[0]), schedule[1..], w', id, t);
    }
  }

  /** The step at which packet `p` leaves user `v`. */
  ghost predicate Leaves(env: Env, w: World, v: UserId, p: Packet) {
    CanStep(env, w, AtUser(v)) && Event(w.s, v) == Egress(p) && Core(p).OfMessage?
  }

  /** It is not dropped. */
  ghost predicate Sends(env: Env, w: World, v: UserId, p: Packet) {
    Leaves(env, w, v, p) && Survives(env, w.s.cursor, w.s.users[v])
  }

  ghost function TripOf(env: Env, w: World, v: UserId, p: Packet): Trip
    requires Leaves(env, w, v, p)
  {
    Trip(FlightOf(env, UserTime(w.s, v), p), TotalDelay(MessageOf(p).ack), !Survives(env, w.s.cursor, w.s.users[v]))
  }

  lemma SentFlies(env: Env, w: World, v: UserId, p: Packet)
    requires Inv(env, w) && Leaves(env, w, v, p)
    ensures Inv(env, After(env, w, AtUser(v)))
    ensures Flying(After(env, w, AtUser(v)).h, MessageOf(p).id, TripOf(env, w, v, p))
  {
    hide Queues, Books, Live;
    StepKeeps(env, w, AtUser(v));
    EgressReady(env, w, v);
    EgressFires(env, w, v);
    EgressIds(env, w, v, p);
  }

  lemma EgressIds(env: Env, w: World, v: UserId, p: Packet)
    requires Inv(env, w) && BusyUser(w.s, v) && EgressOk(env, w, v, p, UserTime(w.s, v))
    ensures MessageOf(p).id < |w.h.book.ids| && w.h.book.ids[MessageOf(p).id].ackDelay == TotalDelay(MessageOf(p).ack)
  {
  }

  /** The sets, identifiers and records of a run stay as they are. */
  ghost predicate Prefix(book: Book, book': Book) {
    book.sets <= book'.sets && book.ids <= book'.ids && book.records <= book'.records
  }

  lemma StepPrefix(env: Env, w: World, who: Who)
    requires CanStep(env, w, who)
    ensures Prefix(w.h.book, After(env, w, who).h.book)
  {
    match who {
      case AtNode(n) => assert AdvanceNode(env, w.h, Head(w.s, n).content).book == w.h.book;
      case AtUser(u) => UserStepPrefix(env, w, u);
    }
  }

  lemma UserStepPrefix(env: Env, w: World, u: UserId)
    requires IsNext(w.s, AtUser(u))
    ensures Prefix(w.h.book, Advance(env, w.s, w.h, AtUser(u)).book)
  {
    hide AfterHandover, AfterEgress, AfterBuild, AfterTimeout;
    var s1 := Popped(w.s, u);
    match Event(w.s, u) {
      case Handover(m) => HandoverPrefix(env, s1, w.h, u, m);
      case Egress(p) => if Core(p).OfMessage? { EgressPrefix(env, s1, w.h, u, p); }
      case SendMessage(n) =>
        var info := SetInfo(|w.h.book.sets|, u, 1, n, s1.timestamp, |w.h.book.ids|);
        BuildPrefix(w.h, u, info, Packets(env, s1, u, 1, n));
      case AckTimeout(id) => if id in s1.users[u].originals { TimeoutPrefix(env, s1, w.h, u, id); }
    }
  }

  lemma HandoverPrefix(env: Env, s: State, h: History, u: UserId, m: Message)
    requires u in s.users
    ensures Prefix(h.book, AfterHandover(env, s, h, u, m).book)
  {
  }

  lemma EgressPrefix(env: Env, s: State, h: History, u: UserId, p: Packet)
    requires u in s.users && Core(p).OfMessage?
    ensures Prefix(h.book, AfterEgress(env, s, h, u, p).book)
  {
  }

  lemma BuildPrefix(h: History, u: UserId, info: SetInfo, packets: seq<Packet>)
    requires forall p :: p in packets ==> Core(p).OfMessage?
    ensures Prefix(h.book, AfterBuild(h, u, info, packets).book)
  {
  }

  lemma TimeoutPrefix(env: Env, s: State, h: History, u: UserId, id: nat)
    requires u in s.users && id in s.users[u].originals
    ensures Prefix(h.book, AfterTimeout(env, s, h, u, id).book)
  {
  }

  lemma {:induction false} RunPrefix(env: Env, w: World, schedule: seq<Who>, w': World)
    requires Leads(env, w, schedule, w')
    ensures Prefix(w.h.book, w'.h.book)
    decreases |schedule|
  {
    if schedule == [] {
      LeadsNowhere(env, w, w');
    } else {
      LeadsOn(env, w, schedule, w');
      StepPrefix(env, w, schedule[0]);
      RunPrefix(env, After(env, w, schedule[0]), schedule[1..], w');
    }
  }

  // ---------- No spurious retransmission ----------

  lemma {:induction false} FirstIsEarliest<T>(q: Queue<T>, i: nat)
    requires Sorted(q) && i < |q|
    ensures q[0].0 <= q[i].0
  {
  }

  /** A message on its way is in some node's queue, before its handover time. */
  lemma RelayedIsQueued(env: Env, w: World, n: NodeId, id: nat)
    requires Inv(env, w) && At(w.h, id, Relayed(n)) && n in w.s.nodes
    ensures BusyNode(w.s, n) && id in w.h.book.flights && NodeTime(w.s, n) <= HandoverTime(w.h.book.flights[id])
  {
    assert NodeBag(w.s.nodes, n)[MessageKey(id)] == One(At(w.h, id, Relayed(n)));
    var q := w.s.nodes[n].ingress;
    var i := BagMember(q, PacketKey, MessageKey(id));
    assert q[i] in q;
    assert NodeItemOk(env, w.s.nodes.Keys, w.s.users.Keys, w.h.book, q[i]);
    FirstIsEarliest(q, i);
  }

  lemma ArrivedIsQueued(env: Env, w: World, u: UserId, id: nat)
    requires Inv(env, w) && At(w.h, id, Arrived(u)) && u in w.s.users
    ensures BusyUser(w.s, u) && id in w.h.book.flights && UserTime(w.s, u) <= HandoverTime(w.h.book.flights[id])
  {
    assert UserBag(w.s.users, u)[HandoverKey(id)] == One(At(w.h, id, Arrived(u)));
    var q := w.s.users[u].events;
    var i := BagMember(q, EventKey, HandoverKey(id));
    assert q[i] in q;
    assert UserItemOk(env, w.s.nodes.Keys, w.s.timestamp, w.h.book, u, q[i]);
    FirstIsEarliest(q, i);
  }

  lemma AckingIsQueued(env: Env, w: World, n: NodeId, id: nat)
    requires Inv(env, w) && env.strategy.PerFragment? && At(w.h, id, Acking(n)) && n in w.s.nodes
    ensures BusyNode(w.s, n) && id in w.h.book.flights && id < |w.h.book.ids|
            && NodeTime(w.s, n) <= HandoverTime(w.h.book.flights[id]) + w.h.book.ids[id].ackDelay
  {
    assert NodeBag(w.s.nodes, n)[AckKey(id)] == One(At(w.h, id, Acking(n)));
    var q := w.s.nodes[n].ingress;
    var i := BagMember(q, PacketKey, AckKey(id));
    assert q[i] in q;
    assert NodeItemOk(env, w.s.nodes.Keys, w.s.users.Keys, w.h.book, q[i]);
    FirstIsEarliest(q, i);
  }

  /** The timer of a flying message is not due before its acknowledgement can be back. */
  lemma TimerIsLate(env: Env, w: World, u: UserId, id: nat, t: Trip)
    requires Inv(env, w) && env.strategy.PerFragment? && IsNext(w.s, AtUser(u)) && Event(w.s, u) == AckTimeout(id)
    requires Flying(w.h, id, t) && !t.dropped
    ensures t.flight.timeout <= t.flight.delay + t.ackDelay
  {
    hide Clock, NodesConserved, UsersConserved, NodeItems, UserItems, MemoriesOk, Tally;
    EventOk(env, w, u);
    assert StageOk(env, w.s.nodes.Keys, w.h, id);
    assert SetOk(env, w.s.users.Keys, w.s.timestamp, w.h.book, w.h.book.ids[id].fragmentSet);
    match w.h.stage[id] {
      case Relayed(n) => RelayedIsQueued(env, w, n, id);
      case Arrived(v) => ArrivedIsQueued(env, w, v, id);
      case Acking(n) => AckingIsQueued(env, w, n, id);
    }
  }

  /** PerFragment: if a packet is not dropped, and its own delay and that of its acknowledgement add up to
      less than the timeout set when it was sent, then its timer never fires. */
  lemma NoSpuriousRetransmission(env: Env, w: World, v: UserId, p: Packet, schedule: seq<Who>, w': World, u: UserId)
    requires Reachable(env, w) && env.strategy.PerFragment?
    requires Sends(env, w, v, p) && Leads(env, After(env, w, AtUser(v)), schedule, w')
    requires TotalDelay(p) + TotalDelay(MessageOf(p).ack) < env.timeout(TotalDelay(p))
    requires IsNext(w'.s, AtUser(u))
    ensures Event(w'.s, u) != AckTimeout(MessageOf(p).id)
  {
    ReachableInv(env, w);
    SentFlies(env, w, v, p);
    var id, t := MessageOf(p).id, TripOf(env, w, v, p);
    RunFlying(env, After(env, w, AtUser(v)), schedule, w', id, t);
    if Event(w'.s, u) == AckTimeout(id) {
      TimerIsLate(env, w', u, id, t);
    }
  }
}
