/** WholeMessage: exactly when the timer of a set that has been delivered still fires. */
module LatencyWholeTimers {
  import opened EventQueue
  import opened LatencySim
  import opened LatencyHistory
  import opened LatencyInvariant
  import opened LatencyQueues
  import opened LatencyNodeSteps
  import opened LatencyUserSteps
  import opened LatencyEgressSteps
  import opened LatencyBuilds
  import opened LatencySendSteps
  import opened LatencyResendSteps
  import opened LatencyRebuildSteps
  import opened LatencyRuns
  import opened LatencyTiming
  import opened LatencyTransit
  import opened LatencyRecords
  import opened LatencyFired
  import LatencyDelivery

  // ---------- No new timers ----------

  /** What timers with identifier `k` there are after a step were there before. */
  ghost predicate NoNewTimer(users: Users, users': Users, k: nat) {
    && users'.Keys == users.Keys
    && forall u, it :: u in users' && it in users'[u].events && it.1 == AckTimeout(k) ==> it in users[u].events
  }

  lemma PushNoTimer(users: Users, u: UserId, t: Timestamp, e: UserEvent, k: nat)
    requires u in users && e != AckTimeout(k)
    ensures NoNewTimer(users, PushEvent(users, u, t, e), k)
  {
    hide EventQueue.Insert;
    InsertMembers(users[u].events, t, e);
  }

  lemma {:induction false} EgressesMembers(q: Queue<UserEvent>, t: Timestamp, packets: seq<Packet>,
                                           it: (Timestamp, UserEvent))
    requires it in InsertEgresses(q, t, packets) && it.1.AckTimeout?
    ensures it in q
    decreases |packets|
  {
    hide EventQueue.Insert;
    if packets != [] {
      InsertMembers(q, t, Egress(packets[0]));
      EgressesMembers(Insert(q, t, Egress(packets[0])), t, packets[1..], it);
    }
  }

  lemma BatchNoTimer(users: Users, u: UserId, t: Timestamp, packets: seq<Packet>, k: nat)
    requires u in users
    ensures NoNewTimer(users, PushEgresses(users, u, t, packets), k)
  {
    var users' := PushEgresses(users, u, t, packets);
    forall v, it | v in users' && it in users'[v].events && it.1 == AckTimeout(k)
      ensures it in users[v].events
    {
      if v == u { EgressesMembers(users[u].events, t, packets, it); }
    }
  }

  lemma CancelNoTimer(users: Users, u: UserId, id: nat, k: nat)
    requires u in users
    ensures NoNewTimer(users, CancelAt(users, u, id), k)
  {
    CancelMembers(users[u].events, id);
  }

  lemma PoppedNoTimer(users: Users, u: UserId, k: nat)
    requires u in users && users[u].events != []
    ensures NoNewTimer(users, PopEvent(users, u), k)
  {
  }

  lemma NodeNoTimer(env: Env, s: State, n: NodeId, k: nat)
    requires BusyNode(s, n) && FireNode(env, s, n).Stepped?
    ensures NoNewTimer(s.users, FireNode(env, s, n).state.users, k)
  {
    hide PushEvent, CancelAt;
    match s.nodes[n].ingress[0].1.content {
      case OfMessage(m) => PushNoTimer(s.users, m.recipient, NodeTime(s, n), Handover(m), k);
      case OfAck(a) => CancelNoTimer(s.users, a.recipient, a.messageId, k);
      case OfPacket(_) =>
    }
  }

  lemma HandoverNoTimer(env: Env, s: State, u: UserId, m: Message, k: nat)
    requires u in s.users && OnHandover(env, s, u, m).Stepped?
    ensures NoNewTimer(s.users, OnHandover(env, s, u, m).state.users, k)
  {
  }

  lemma TimedNoTimer(env: Env, users: Users, u: UserId, now: Timestamp, p: Packet, k: nat)
    requires u in users && Core(p).OfMessage? && TimerId(env, MessageOf(p)) != k
    ensures NoNewTimer(users, Timed(env, users, u, now, p), k)
  {
    hide PushEvent;
    TimedShape(env, users, u, now, p);
    var m := MessageOf(p);
    var id := TimerId(env, m);
    PushNoTimer(Kept(users, u, id, m), u, now + env.timeout(TotalDelay(p)), AckTimeout(id), k);
  }

  lemma EgressNoTimer(env: Env, s: State, u: UserId, p: Packet, k: nat)
    requires u in s.users && Core(p).OfMessage? && TimerId(env, MessageOf(p)) != k && OnEgress(env, s, u, p).Stepped?
    ensures NoNewTimer(s.users, OnEgress(env, s, u, p).state.users, k)
  {
    hide Timed;
    TimedNoTimer(env, s.users, u, s.timestamp, p, k);
  }

  lemma SendNoTimer(env: Env, s: State, u: UserId, n: nat, k: nat)
    requires u in s.users
    ensures NoNewTimer(s.users, OnSendMessage(env, s, u, n).state.users, k)
  {
    hide PushEgresses;
    BatchNoTimer(s.users, u, s.timestamp, Fragments(env, s, BatchAt(s, u, 1, n)), k);
  }

  lemma RebuildNoTimer(env: Env, s: State, u: UserId, m: Message, k: nat)
    requires u in s.users
    ensures NoNewTimer(s.users, Rebuild(env, s, u, m).state.users, k)
  {
    hide PushEgresses;
    var b := BatchAt(s, m.sender, m.recipient, m.fragmentSize);
    FragmentsCarryMessages(env, b, 0, s.nextMessageId, s.cursor);
    BatchNoTimer(s.users, u, s.timestamp, Redated(Fragments(env, s, b), m.sendingTime), k);
  }

  lemma TimeoutNoTimer(env: Env, s: State, u: UserId, id: nat, k: nat)
    requires u in s.users && env.strategy.WholeMessage? && OnAckTimeout(env, s, u, id).Stepped?
    ensures NoNewTimer(s.users, OnAckTimeout(env, s, u, id).state.users, k)
  {
    hide Rebuild;
    var m := s.users[u].originals[id];
    var users1 := Cleared(Forgotten(s.users, u, id), m.recipient, m.fragmentSet);
    assert NoNewTimer(s.users, users1, k);
    RebuildNoTimer(env, s.(users := users1), u, m, k);
  }

  lemma RecordedIsFinished(users: Users, h: History, k: nat, i: nat)
    requires OnceEach(users, h) && k in h.book.records && k < |h.book.sets| && i < h.book.sets[k].size
    ensures At(h, h.book.sets[k].base + i, Finished)
  {
    assert SlotFinished(h, k, i);
  }

  /** Once a set is recorded, none of its fragments waits to be sent. */
  lemma NothingQueued(env: Env, w: World, p: Packet, u: UserId, now: Timestamp)
    requires Inv(env, w) && env.strategy.WholeMessage? && EgressOk(env, w, u, p, now)
    ensures MessageOf(p).fragmentSet !in w.h.book.records
  {
    hide Queues, Tally, MemoriesOk, TimersOk, OnceEach, RootsLive;
    var m := MessageOf(p);
    assert StageOk(env, w.s.nodes.Keys, w.h, m.id);
    if m.fragmentSet in w.h.book.records {
      RecordedIsFinished(w.s.users, w.h, m.fragmentSet, m.fragmentIndex);
      assert false;
    }
  }

  lemma StepNoTimer(env: Env, w: World, who: Who, k: nat)
    requires Inv(env, w) && CanStep(env, w, who) && env.strategy.WholeMessage? && k in w.h.book.records
    ensures NoNewTimer(w.s.users, After(env, w, who).s.users, k)
  {
    hide Inv, OnHandover, OnEgress, OnSendMessage, OnAckTimeout, FireNode;
    match who {
      case AtNode(n) => NodeNoTimer(env, w.s, n, k);
      case AtUser(u) =>
        var s1 := Popped(w.s, u);
        assert NoNewTimer(w.s.users, s1.users, k);
        match Event(w.s, u) {
          case Handover(m) => HandoverNoTimer(env, s1, u, m, k);
          case Egress(p) =>
            EgressReady(env, w, u);
            NothingQueued(env, w, p, u, UserTime(w.s, u));
            EgressNoTimer(env, s1, u, p, k);
          case SendMessage(n) => SendNoTimer(env, s1, u, n, k);
          case AckTimeout(id) => TimeoutNoTimer(env, s1, u, id, k);
        }
    }
  }

  // ---------- The acknowledgement ----------

  /** Entry `it` of node `n` is an acknowledgement of set `k`. */
  ghost predicate AckAt(nodes: Nodes, k: nat, n: NodeId, it: (Timestamp, Packet)) {
    n in nodes && it in nodes[n].ingress && Core(it.1).OfAck? && Core(it.1).ack.messageId == k
  }

  ghost predicate SameAcks(nodes: Nodes, nodes': Nodes, k: nat) {
    forall n, it: (Timestamp, Packet) :: AckAt(nodes', k, n, it) <==> AckAt(nodes, k, n, it)
  }

  lemma PushSameAcks(nodes: Nodes, n: NodeId, t: Timestamp, p: Packet, k: nat)
    requires n in nodes && (Core(p).OfAck? ==> Core(p).ack.messageId != k)
    ensures SameAcks(nodes, PushIngress(nodes, n, t, p), k)
  {
    hide EventQueue.Insert;
    InsertMembers(nodes[n].ingress, t, p);
  }

  lemma PopSameAcks(nodes: Nodes, n: NodeId, k: nat)
    requires n in nodes && nodes[n].ingress != [] && !AckAt(nodes, k, n, nodes[n].ingress[0])
    ensures SameAcks(nodes, PopIngress(nodes, n), k)
  {
    var q := nodes[n].ingress;
    forall it
      ensures it in q <==> it == q[0] || it in q[1..]
    {
      assert q == [q[0]] + q[1..];
    }
  }

  /** Every acknowledgement of set `k` will be back at `arrival`. */
  ghost predicate BackAt(nodes: Nodes, k: nat, arrival: Timestamp) {
    forall n, it: (Timestamp, Packet) :: AckAt(nodes, k, n, it) ==> it.0 + Rest(it.1) == arrival
  }

  ghost predicate Acked(nodes: Nodes, k: nat) {
    exists n, it: (Timestamp, Packet) :: AckAt(nodes, k, n, it)
  }

  /** Every timer of set `k` is due at `due`. */
  ghost predicate DueAt(users: Users, k: nat, due: Timestamp) {
    forall u, it :: u in users && it in users[u].events && it.1 == AckTimeout(k) ==> it.0 == due
  }

  /** The timer of set `k` is armed, and due at `due`. */
  ghost predicate Pending(w: World, k: nat, due: Timestamp) {
    k in w.h.timers && DueAt(w.s.users, k, due)
  }

  /** Set `k` has been recorded; its acknowledgement will be back at `arrival`, and its timer, if there
      still is one, is due at `due`. */
  ghost predicate Tracked(w: World, k: nat, arrival: Timestamp, due: Timestamp) {
    && k in w.h.book.records && BackAt(w.s.nodes, k, arrival) && DueAt(w.s.users, k, due)
    && (k in w.h.timers ==> Acked(w.s.nodes, k))
  }

  lemma RelayBack(nodes: Nodes, n: NodeId, k: nat, arrival: Timestamp)
    requires n in nodes && nodes[n].ingress != [] && AckAt(nodes, k, n, nodes[n].ingress[0])
    requires BackAt(nodes, k, arrival)
    requires nodes[n].ingress[0].1.content.OfPacket? && nodes[n].ingress[0].1.content.packet.destination in nodes
    ensures var (now, p) := nodes[n].ingress[0];
            var q := p.content.packet;
            var nodes' := PushIngress(PopIngress(nodes, n), q.destination, now + q.delay, q);
            BackAt(nodes', k, arrival) && Acked(nodes', k)
  {
    hide EventQueue.Insert;
    var (now, p) := nodes[n].ingress[0];
    var q := p.content.packet;
    var nodes1 := PopIngress(nodes, n);
    var nodes' := PushIngress(nodes1, q.destination, now + q.delay, q);
    InsertMembers(nodes1[q.destination].ingress, now + q.delay, q);
    assert AckAt(nodes', k, q.destination, (now + q.delay, q));
    forall m, it: (Timestamp, Packet) | AckAt(nodes', k, m, it)
      ensures it.0 + Rest(it.1) == arrival
    {
      if it != (now + q.delay, q) { assert AckAt(nodes, k, m, it); }
    }
  }

  lemma ArriveBack(nodes: Nodes, n: NodeId, k: nat, arrival: Timestamp)
    requires n in nodes && nodes[n].ingress != [] && BackAt(nodes, k, arrival)
    ensures BackAt(PopIngress(nodes, n), k, arrival)
  {
    forall m, it: (Timestamp, Packet) | AckAt(PopIngress(nodes, n), k, m, it)
      ensures it.0 + Rest(it.1) == arrival
    {
      assert AckAt(nodes, k, m, it);
    }
  }

  lemma SameBack(nodes: Nodes, nodes': Nodes, k: nat, arrival: Timestamp)
    requires SameAcks(nodes, nodes', k) && BackAt(nodes, k, arrival)
    ensures BackAt(nodes', k, arrival) && (Acked(nodes, k) ==> Acked(nodes', k))
  {
    if Acked(nodes, k) {
      var n, it: (Timestamp, Packet) :| AckAt(nodes, k, n, it);
      assert AckAt(nodes', k, n, it);
    }
  }

  /** What a node does to the acknowledgements of set `k`. */
  lemma NodeBack(env: Env, s: State, n: NodeId, k: nat, arrival: Timestamp)
    requires BusyNode(s, n) && FireNode(env, s, n).Stepped? && BackAt(s.nodes, k, arrival)
    ensures BackAt(FireNode(env, s, n).state.nodes, k, arrival)
    ensures Acked(s.nodes, k) && !(Head(s, n).content.OfAck? && Head(s, n).content.ack.messageId == k) ==>
              Acked(FireNode(env, s, n).state.nodes, k)
  {
    hide PushIngress, PopIngress, BackAt, Acked, SameAcks;
    var it := s.nodes[n].ingress[0];
    var nodes1 := PopIngress(s.nodes, n);
    assert nodes1.Keys == s.nodes.Keys by { NodesStay(s.nodes, n); }
    if AckAt(s.nodes, k, n, it) {
      if it.1.content.OfPacket? {
        RelayBack(s.nodes, n, k, arrival);
      } else {
        ArriveBack(s.nodes, n, k, arrival);
      }
    } else {
      PopSameAcks(s.nodes, n, k);
      SameBack(s.nodes, nodes1, k, arrival);
      if it.1.content.OfPacket? {
        var q := it.1.content.packet;
        PushSameAcks(nodes1, q.destination, it.0 + q.delay, q, k);
        SameBack(nodes1, PushIngress(nodes1, q.destination, it.0 + q.delay, q), k, arrival);
      }
    }
  }

  lemma NodesStay(nodes: Nodes, n: NodeId)
    requires n in nodes && nodes[n].ingress != []
    ensures PopIngress(nodes, n).Keys == nodes.Keys
  {
  }

  /** A user adds no acknowledgement of a set that has been recorded. */
  lemma UserSameAcks(env: Env, w: World, u: UserId, k: nat)
    requires Inv(env, w) && CanStep(env, w, AtUser(u)) && env.strategy.WholeMessage? && k in w.h.book.records
    ensures SameAcks(w.s.nodes, After(env, w, AtUser(u)).s.nodes, k)
  {
    hide Inv, Fire, SameAcks, PushIngress;
    var w' := After(env, w, AtUser(u));
    NoChange(w.s.nodes, k);
    match Event(w.s, u) {
      case Handover(m) => HandoverSameAcks(env, w, u, m, k);
      case Egress(p) =>
        EgressReady(env, w, u);
        EgressFires(env, w, u);
        var t := UserTime(w.s, u) + p.delay;
        PushSameAcks(w.s.nodes, p.destination, t, p, k);
      case SendMessage(_) => SendFires(env, w, u);
      case AckTimeout(_) => RebuildTurn(env, w, u);
    }
  }

  lemma NoChange(nodes: Nodes, k: nat)
    ensures SameAcks(nodes, nodes, k)
  {
  }

  lemma HandoverSameAcks(env: Env, w: World, u: UserId, m: Message, k: nat)
    requires Inv(env, w) && CanStep(env, w, AtUser(u)) && env.strategy.WholeMessage? && k in w.h.book.records
    requires Event(w.s, u) == Handover(m)
    ensures SameAcks(w.s.nodes, After(env, w, AtUser(u)).s.nodes, k)
  {
    hide Inv, Fire, SameAcks, PushIngress;
    NoChange(w.s.nodes, k);
    HandoverReady(env, w, u);
    HandoverFires(env, w, u);
    if Completes(w.s.users, u, m, UserTime(w.s, u)) {
      assert Records(env, w, u, m);
      RecordIsNew(env, w, u, m);
      PushSameAcks(w.s.nodes, m.ack.destination, UserTime(w.s, u) + m.ack.delay, m.ack, k);
    }
  }

  lemma SameDue(users: Users, users': Users, k: nat, due: Timestamp)
    requires NoNewTimer(users, users', k) && DueAt(users, k, due)
    ensures DueAt(users', k, due)
  {
  }

  /** A step of a node takes no timer off the books, unless it is acknowledged. */
  lemma NodeTimers(env: Env, h: History, content: Content, k: nat)
    ensures k in AdvanceNode(env, h, content).timers
       <==> k in h.timers && !(content.OfAck? && content.ack.messageId == k)
  {
  }

  lemma EgressTimers(env: Env, w: World, u: UserId, p: Packet, k: nat)
    requires Turn(env, w, AtUser(u)) && CanStep(env, w, AtUser(u)) && env.strategy.WholeMessage?
    requires k in w.h.book.records && Event(w.s, u) == Egress(p)
    ensures k in After(env, w, AtUser(u)).h.timers <==> k in w.h.timers
  {
    hide Inv;
    EgressReady(env, w, u);
    EgressFires(env, w, u);
    NothingQueued(env, w, p, u, UserTime(w.s, u));
  }

  /** The timer of a recorded set is disarmed by firing, or by its acknowledgement. */
  lemma StepTimer(env: Env, w: World, who: Who, k: nat)
    requires Inv(env, w) && CanStep(env, w, who) && env.strategy.WholeMessage? && k in w.h.book.records
    ensures k in After(env, w, who).h.timers
       <==> && k in w.h.timers && !FiresTimer(w, who, k)
            && !(who.AtNode? && Head(w.s, who.node).content.OfAck? && Head(w.s, who.node).content.ack.messageId == k)
  {
    hide Inv, Fire, AdvanceNode, AfterEgress, AfterTimeout;
    match who {
      case AtNode(n) => NodeTimers(env, w.h, Head(w.s, n).content, k);
      case AtUser(u) =>
        match Event(w.s, u) {
          case Egress(p) => EgressTimers(env, w, u, p, k);
          case AckTimeout(id) =>
            TimeoutReady(env, w, u);
            TimeoutArmed(env, Popped(w.s, u), w.h, u, id);
          case _ =>
        }
    }
  }

  lemma StepTracked(env: Env, w: World, who: Who, k: nat, arrival: Timestamp, due: Timestamp)
    requires Inv(env, w) && CanStep(env, w, who) && env.strategy.WholeMessage? && Tracked(w, k, arrival, due)
    ensures Tracked(After(env, w, who), k, arrival, due)
  {
    hide Inv, FireNode, FireUser, BackAt, Acked, DueAt, NoNewTimer, SameAcks, Advance, FiresTimer;
    var w' := After(env, w, who);
    StepPrefix(env, w, who);
    StepNoTimer(env, w, who, k);
    SameDue(w.s.users, w'.s.users, k, due);
    StepTimer(env, w, who, k);
    match who {
      case AtNode(n) => NodeBack(env, w.s, n, k, arrival);
      case AtUser(u) =>
        UserSameAcks(env, w, u, k);
        SameBack(w.s.nodes, w'.s.nodes, k, arrival);
    }
  }

  /** The acknowledgement comes at its time, and before the timer if at all. */
  lemma AckComesFirst(env: Env, w: World, n: NodeId, k: nat, arrival: Timestamp, due: Timestamp)
    requires Turn(env, w, AtNode(n)) && env.strategy.WholeMessage? && Tracked(w, k, arrival, due) && k in w.h.timers
    requires Head(w.s, n).content.OfAck? && Head(w.s, n).content.ack.messageId == k
    ensures arrival < due
  {
    hide Queues, Books, Live;
    TimerWaits(env, w, k, due);
    assert AckAt(w.s.nodes, k, n, w.s.nodes[n].ingress[0]);
  }

  lemma TimerWaits(env: Env, w: World, k: nat, due: Timestamp)
    requires Inv(env, w) && Pending(w, k, due)
    ensures BusyUser(w.s, w.h.timers[k]) && w.s.timestamp <= UserTime(w.s, w.h.timers[k]) <= due
  {
    hide NodesConserved, NodeItems, UserItems, BookOk, StagesOk, MemoriesOk, Tally, Live;
    var u := w.h.timers[k];
    assert UserBag(w.s.users, u)[TimerKey(k)] == One(TimerAt(w.h, k, u));
    var q := w.s.users[u].events;
    var i := BagMember(q, EventKey, TimerKey(k));
    assert q[i] in q && q[0] in q;
    FirstIsEarliest(q, i);
  }

  /** The timer fires at its time, and before the acknowledgement if at all; a tie goes to the timer. */
  lemma TimerFiresFirst(env: Env, w: World, u: UserId, k: nat, arrival: Timestamp, due: Timestamp)
    requires Turn(env, w, AtUser(u)) && Tracked(w, k, arrival, due) && Event(w.s, u) == AckTimeout(k)
    ensures UserTime(w.s, u) == due && due <= arrival
  {
    hide Queues, Books, Live, BackAt, Acked;
    EventOk(env, w, u);
    assert w.s.users[u].events[0] in w.s.users[u].events;
    AckWaits(env, w, u, k, arrival);
  }

  lemma AckWaits(env: Env, w: World, u: UserId, k: nat, arrival: Timestamp)
    requires Turn(env, w, AtUser(u)) && BackAt(w.s.nodes, k, arrival) && Acked(w.s.nodes, k)
    ensures UserTime(w.s, u) <= arrival
  {
    hide NodesConserved, UsersConserved, NodeItems, UserItems, Books, Live;
    var n, it: (Timestamp, Packet) :| AckAt(w.s.nodes, k, n, it);
    var q := w.s.nodes[n].ingress;
    var i :| 0 <= i < |q| && q[i] == it;
    FirstIsEarliest(q, i);
    assert BusyNode(w.s, n);
  }

  lemma StepFires(env: Env, w: World, who: Who, k: nat, arrival: Timestamp, due: Timestamp)
    requires Inv(env, w) && CanStep(env, w, who) && env.strategy.WholeMessage? && Tracked(w, k, arrival, due)
    ensures FiringOf(k)(w, who) <==> FiringAt(k, due)(w, who)
    ensures FiringOf(k)(w, who) ==> due <= arrival && k in w.h.timers
    ensures due <= arrival ==>
              One(k in After(env, w, who).h.timers) + One(FiresTimer(w, who, k)) == One(k in w.h.timers)
  {
    hide Inv, Fire, After, Tracked;
    StepTimerOf(env, w, who, k, arrival, due);
    if FiresTimer(w, who, k) {
      TimerFiresFirst(env, w, who.user, k, arrival, due);
      EventOk(env, w, who.user);
    } else if who.AtNode? && Head(w.s, who.node).content.OfAck? && Head(w.s, who.node).content.ack.messageId == k {
      if k in w.h.timers { AckComesFirst(env, w, who.node, k, arrival, due); }
    }
  }

  lemma StepTimerOf(env: Env, w: World, who: Who, k: nat, arrival: Timestamp, due: Timestamp)
    requires Inv(env, w) && CanStep(env, w, who) && env.strategy.WholeMessage? && Tracked(w, k, arrival, due)
    ensures k in After(env, w, who).h.timers
       <==> && k in w.h.timers && !FiresTimer(w, who, k)
            && !(who.AtNode? && Head(w.s, who.node).content.OfAck? && Head(w.s, who.node).content.ack.messageId == k)
  {
    hide Inv, Fire, After;
    StepTimer(env, w, who, k);
  }

  lemma {:induction false} RunTracked(env: Env, w: World, schedule: seq<Who>, w': World,
                                      k: nat, arrival: Timestamp, due: Timestamp)
    requires Inv(env, w) && Leads(env, w, schedule, w') && env.strategy.WholeMessage? && Tracked(w, k, arrival, due)
    ensures Tracked(w', k, arrival, due)
    ensures Steps(env, w, schedule, FiringAt(k, due)) == Steps(env, w, schedule, FiringOf(k))
    ensures arrival < due || k !in w.h.timers ==> Steps(env, w, schedule, FiringOf(k)) == 0
    ensures due <= arrival ==> Steps(env, w, schedule, FiringOf(k)) + One(k in w'.h.timers) == One(k in w.h.timers)
    decreases |schedule|
  {
    hide Inv, Tracked, IsNext, Fire, After;
    if schedule == [] {
      LeadsNowhere(env, w, w');
    } else {
      LeadsOn(env, w, schedule, w');
      var who := schedule[0];
      StepKeeps(env, w, who);
      StepTracked(env, w, who, k, arrival, due);
      StepFires(env, w, who, k, arrival, due);
      StepTimerOf(env, w, who, k, arrival, due);
      RunTracked(env, After(env, w, who), schedule[1..], w', k, arrival, due);
    }
  }

  // ---------- The step that records a set ----------

  lemma NotAckedYet(env: Env, w: World, k: nat)
    requires Inv(env, w) && env.strategy.WholeMessage? && k !in w.h.book.records
    ensures forall n, it: (Timestamp, Packet) :: !AckAt(w.s.nodes, k, n, it)
  {
    hide Clock, NodesConserved, UsersConserved, UserItems, Books, Live;
    forall n, it: (Timestamp, Packet)
      ensures !AckAt(w.s.nodes, k, n, it)
    {
      if AckAt(w.s.nodes, k, n, it) { AckIsRecorded(env, w, n, it); }
    }
  }

  lemma AckIsRecorded(env: Env, w: World, n: NodeId, it: (Timestamp, Packet))
    requires Inv(env, w) && env.strategy.WholeMessage? && n in w.s.nodes && it in w.s.nodes[n].ingress
    requires Core(it.1).OfAck?
    ensures Core(it.1).ack.messageId in w.h.book.records
  {
    hide Clock, NodesConserved, UsersConserved, UserItems, Books, Live;
    assert NodeItemOk(env, w.s.nodes.Keys, w.s.users.Keys, w.h.book, it);
  }

  lemma FirstAck(nodes: Nodes, t: Timestamp, p: Packet, k: nat)
    requires (forall n, it: (Timestamp, Packet) :: !AckAt(nodes, k, n, it)) && p.destination in nodes
    requires Core(p).OfAck? && Core(p).ack.messageId == k
    ensures var nodes' := PushIngress(nodes, p.destination, t + p.delay, p);
            BackAt(nodes', k, t + TotalDelay(p)) && Acked(nodes', k)
  {
    hide EventQueue.Insert;
    var nodes' := PushIngress(nodes, p.destination, t + p.delay, p);
    InsertMembers(nodes[p.destination].ingress, t + p.delay, p);
    assert AckAt(nodes', k, p.destination, (t + p.delay, p));
    forall n, it: (Timestamp, Packet) | AckAt(nodes', k, n, it)
      ensures it == (t + p.delay, p)
    {
      assert !AckAt(nodes, k, n, it);
    }
  }

  lemma RecordedIsAcked(env: Env, w: World, u: UserId, m: Message)
    requires Inv(env, w) && env.strategy.WholeMessage? && Records(env, w, u, m)
    ensures var w1 := After(env, w, AtUser(u));
            && m.fragmentSet in w1.h.book.records && Acked(w1.s.nodes, m.fragmentSet)
            && BackAt(w1.s.nodes, m.fragmentSet, UserTime(w.s, u) + TotalDelay(m.ack))
    ensures w.h.timers == After(env, w, AtUser(u)).h.timers
    ensures forall k :: NoNewTimer(w.s.users, After(env, w, AtUser(u)).s.users, k)
  {
    hide Inv, Fire, PushIngress, Acked, BackAt, NoNewTimer, AckAt;
    RecordIsNew(env, w, u, m);
    RecordIsListed(env, w, u, m);
    NotAckedYet(env, w, m.fragmentSet);
    HandoverReady(env, w, u);
    HandoverFires(env, w, u);
    FirstAck(w.s.nodes, UserTime(w.s, u), m.ack, m.fragmentSet);
    forall k
      ensures NoNewTimer(w.s.users, After(env, w, AtUser(u)).s.users, k)
    {
      MarkedNoTimer(w.s.users, u, m, UserTime(w.s, u), k);
    }
  }

  lemma MarkedNoTimer(users: Users, u: UserId, m: Message, now: Timestamp, k: nat)
    requires u in users && users[u].events != []
    ensures NoNewTimer(users, MarkedAt(users, u, m, now), k)
  {
  }

  /** There is at most one timer for a set. */
  lemma OneTimer(env: Env, w: World, k: nat, v: UserId, due: Timestamp)
    requires Inv(env, w) && v in w.s.users && (due, AckTimeout(k)) in w.s.users[v].events
    ensures DueAt(w.s.users, k, due) && k in w.h.timers
  {
    hide Clock, NodesConserved, NodeItems, UserItems, Books, Live;
    var users := w.s.users;
    QueuedTimer(users, w.h, v, (due, AckTimeout(k)));
    var i :| 0 <= i < |users[v].events| && users[v].events[i] == (due, AckTimeout(k));
    forall u, it | u in users && it in users[u].events && it.1 == AckTimeout(k)
      ensures it.0 == due
    {
      QueuedTimer(users, w.h, u, it);
      var j :| 0 <= j < |users[u].events| && users[u].events[j] == it;
      if i != j { TimerUnique(users, w.h, v, i, j); }
    }
  }

  lemma IsTimer(e: UserEvent, k: nat)
    requires EventKey(e) == TimerKey(k)
    ensures e == AckTimeout(k)
  {
  }

  lemma InQueue(q: Queue<UserEvent>, i: nat, e: UserEvent)
    requires i < |q| && q[i].1 == e
    ensures (q[i].0, e) in q
  {
    assert q[i] == (q[i].0, e);
  }

  lemma NoTimers(env: Env, w: World, k: nat)
    requires Inv(env, w) && forall v, t :: v in w.s.users ==> (t, AckTimeout(k)) !in w.s.users[v].events
    ensures k !in w.h.timers
  {
    hide Clock, NodesConserved, NodeItems, UserItems, BookOk, StagesOk, MemoriesOk, Tally, Live;
    if k in w.h.timers {
      var u := w.h.timers[k];
      assert UserBag(w.s.users, u)[TimerKey(k)] == One(TimerAt(w.h, k, u));
      var q := w.s.users[u].events;
      var i := BagMember(q, EventKey, TimerKey(k));
      IsTimer(q[i].1, k);
      InQueue(q, i, AckTimeout(k));
    }
  }

  /** WholeMessage: exactly when a message that has been delivered is retransmitted. Set `k` is recorded by a
      fragment that comes at time T, while the timer of the set is due at `due`. The timer still fires if it is
      due no later than T plus the delay of the acknowledgement of that fragment; then it fires once, at `due`, in
      every run that goes on past that time or halts. Otherwise it never fires. */
  lemma WholeTimerFiresExactly(env: Env, w: World, u: UserId, m: Message, w1: World, schedule: seq<Who>, w': World,
                               v: UserId, due: Timestamp)
    requires Reachable(env, w) && env.strategy.WholeMessage?
    requires RecordingStep(env, w, u, m, w1) && Leads(env, w1, schedule, w')
    requires v in w.s.users && (due, AckTimeout(m.fragmentSet)) in w.s.users[v].events
    ensures var firings := Steps(env, w1, schedule, FiringOf(m.fragmentSet));
            if UserTime(w.s, u) + TotalDelay(m.ack) < due then firings == 0
            else
              && firings <= 1 && Steps(env, w1, schedule, FiringAt(m.fragmentSet, due)) == firings
              && (NoMoreEvents(w'.s) || due < w'.s.timestamp ==> firings == 1)
  {
    hide Inv, NoMoreEvents, IsNext, Fire, After, Steps, NoNewTimer, DueAt, BackAt, Acked;
    var k, arrival := m.fragmentSet, UserTime(w.s, u) + TotalDelay(m.ack);
    RecordingStepRecords(env, w, u, m, w1);
    ReachableInv(env, w);
    StepKeeps(env, w, AtUser(u));
    OneTimer(env, w, k, v, due);
    RecordedIsAcked(env, w, u, m);
    SameDue(w.s.users, w1.s.users, k, due);
    RunTracked(env, w1, schedule, w', k, arrival, due);
    RunKeeps(env, w1, schedule, w');
    if k in w'.h.timers {
      TimerWaits(env, w', k, due);
      if NoMoreEvents(w'.s) { LatencyDelivery.NothingWaits(env, w', k); }
    }
  }

  lemma {:induction false} RunNoTimer(env: Env, w: World, schedule: seq<Who>, w': World, k: nat)
    requires Inv(env, w) && Leads(env, w, schedule, w') && env.strategy.WholeMessage? && k in w.h.book.records
    ensures NoNewTimer(w.s.users, w'.s.users, k)
    decreases |schedule|
  {
    hide Inv, NoNewTimer, IsNext, Fire, After;
    if schedule == [] {
      LeadsNowhere(env, w, w');
      SameTimers(w.s.users, k);
    } else {
      LeadsOn(env, w, schedule, w');
      var w1 := After(env, w, schedule[0]);
      StepKeeps(env, w, schedule[0]);
      StepPrefix(env, w, schedule[0]);
      StepNoTimer(env, w, schedule[0], k);
      RunNoTimer(env, w1, schedule[1..], w', k);
      NoTimerTwice(w.s.users, w1.s.users, w'.s.users, k);
    }
  }

  lemma SameTimers(users: Users, k: nat)
    ensures NoNewTimer(users, users, k)
  {
  }

  /** WholeMessage: once a set is recorded no new timer is set for it in any run, so if its timer is no longer
      there, none fires. */
  lemma NoTimerAgain(env: Env, w: World, u: UserId, m: Message, w1: World, schedule: seq<Who>, w': World)
    requires Reachable(env, w) && env.strategy.WholeMessage?
    requires RecordingStep(env, w, u, m, w1) && Leads(env, w1, schedule, w')
    ensures NoNewTimer(w.s.users, w'.s.users, m.fragmentSet)
    ensures (forall v, t :: v in w.s.users ==> (t, AckTimeout(m.fragmentSet)) !in w.s.users[v].events) ==>
              Steps(env, w1, schedule, FiringOf(m.fragmentSet)) == 0
  {
    hide Inv, IsNext, Fire, After, Steps, NoNewTimer, BackAt, Acked;
    var k, arrival := m.fragmentSet, UserTime(w.s, u) + TotalDelay(m.ack);
    RecordingStepRecords(env, w, u, m, w1);
    ReachableInv(env, w);
    StepKeeps(env, w, AtUser(u));
    RecordedIsAcked(env, w, u, m);
    RunNoTimer(env, w1, schedule, w', k);
    NoTimerTwice(w.s.users, w1.s.users, w'.s.users, k);
    if forall v, t :: v in w.s.users ==> (t, AckTimeout(k)) !in w.s.users[v].events {
      NoTimers(env, w, k);
      assert DueAt(w.s.users, k, 0);
      SameDue(w.s.users, w1.s.users, k, 0);
      RunTracked(env, w1, schedule, w', k, arrival, 0);
    }
  }

  // ---------- Sets that are not recorded ----------

  lemma PendingEgress(env: Env, w: World, u: UserId, p: Packet, k: nat)
    requires Turn(env, w, AtUser(u)) && CanStep(env, w, AtUser(u)) && Event(w.s, u) == Egress(p)
    requires env.strategy.WholeMessage? && k in w.h.timers
    ensures k in After(env, w, AtUser(u)).h.timers
    ensures NoNewTimer(w.s.users, After(env, w, AtUser(u)).s.users, k)
  {
    hide Inv, Fire, PushEvent, PushIngress;
    EgressReady(env, w, u);
    EgressFires(env, w, u);
    var users1, now, m := PopEvent(w.s.users, u), UserTime(w.s, u), MessageOf(p);
    assert NoNewTimer(w.s.users, users1, k);
    if m.fragmentSet != k {
      TimedNoTimer(env, users1, u, now, p, k);
    }
  }

  lemma PendingUser(env: Env, w: World, u: UserId, k: nat)
    requires Inv(env, w) && CanStep(env, w, AtUser(u)) && env.strategy.WholeMessage? && k in w.h.timers
    requires Event(w.s, u) != AckTimeout(k)
    ensures k in After(env, w, AtUser(u)).h.timers
    ensures NoNewTimer(w.s.users, After(env, w, AtUser(u)).s.users, k)
  {
    hide Inv, OnHandover, OnEgress, OnSendMessage, OnAckTimeout, AfterEgress, AfterTimeout, NoNewTimer, Marked;
    var s1 := Popped(w.s, u);
    PoppedNoTimer(w.s.users, u, k);
    match Event(w.s, u) {
      case Handover(m) => HandoverNoTimer(env, s1, u, m, k);
      case Egress(p) => PendingEgress(env, w, u, p, k);
      case SendMessage(n) => SendNoTimer(env, s1, u, n, k);
      case AckTimeout(id) =>
        TimeoutReady(env, w, u);
        TimeoutArmed(env, s1, w.h, u, id);
        TimeoutNoTimer(env, s1, u, id, k);
    }
    NoTimerTwice(w.s.users, s1.users, After(env, w, AtUser(u)).s.users, k);
  }

  lemma NoTimerTwice(users: Users, users1: Users, users2: Users, k: nat)
    requires NoNewTimer(users, users1, k)
    ensures NoNewTimer(users1, users2, k) ==> NoNewTimer(users, users2, k)
  {
  }

  lemma StepPending(env: Env, w: World, who: Who, k: nat, due: Timestamp)
    requires Inv(env, w) && CanStep(env, w, who) && env.strategy.WholeMessage? && Pending(w, k, due)
    requires k !in w.h.book.records
    ensures FiringAt(k, due)(w, who) || Pending(After(env, w, who), k, due)
  {
    hide Inv, FireNode, FireUser, NoNewTimer, AdvanceNode;
    match who {
      case AtNode(n) =>
        NodeNoTimer(env, w.s, n, k);
        NodeTimers(env, w.h, Head(w.s, n).content, k);
        if Head(w.s, n).content.OfAck? { HeadOk(env, w, n); }
        SameDue(w.s.users, After(env, w, who).s.users, k, due);
      case AtUser(u) =>
        if Event(w.s, u) == AckTimeout(k) {
          assert w.s.users[u].events[0] in w.s.users[u].events;
        } else {
          PendingUser(env, w, u, k);
          SameDue(w.s.users, After(env, w, who).s.users, k, due);
        }
    }
  }

  lemma {:induction false} RunPending(env: Env, w: World, schedule: seq<Who>, w': World, k: nat, due: Timestamp)
    requires Inv(env, w) && Leads(env, w, schedule, w') && env.strategy.WholeMessage? && Pending(w, k, due)
    requires k !in w'.h.book.records
    ensures 0 < Steps(env, w, schedule, FiringAt(k, due)) || Pending(w', k, due)
    decreases |schedule|
  {
    hide Inv, Pending, IsNext, Fire, After;
    if schedule == [] {
      LeadsNowhere(env, w, w');
    } else {
      LeadsOn(env, w, schedule, w');
      RunPrefix(env, w, schedule, w');
      StepKeeps(env, w, schedule[0]);
      StepPending(env, w, schedule[0], k, due);
      if Pending(After(env, w, schedule[0]), k, due) {
        RunPending(env, After(env, w, schedule[0]), schedule[1..], w', k, due);
      }
    }
  }

  /** WholeMessage: the timer of a set that is not recorded fires once, and when it is due, in every run that
      halts or goes on past that time. */
  lemma UnrecordedTimerFires(env: Env, w: World, k: nat, v: UserId, due: Timestamp, schedule: seq<Who>, w': World)
    requires Reachable(env, w) && env.strategy.WholeMessage? && Leads(env, w, schedule, w')
    requires v in w.s.users && (due, AckTimeout(k)) in w.s.users[v].events && k !in w'.h.book.records
    requires NoMoreEvents(w'.s) || due < w'.s.timestamp
    ensures Steps(env, w, schedule, FiringAt(k, due)) == Steps(env, w, schedule, FiringOf(k)) == 1
  {
    hide Inv, Steps, DueAt, FiresTimer;
    ReachableInv(env, w);
    OneTimer(env, w, k, v, due);
    RunKeeps(env, w, schedule, w');
    RunPending(env, w, schedule, w', k, due);
    if Pending(w', k, due) { TimerWaits(env, w', k, due); }
    StepsMonotone(env, w, schedule, FiringAt(k, due), FiringOf(k));
    TimersFireOnce(env, w, schedule, w', k);
  }
}
