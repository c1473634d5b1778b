/** A run in which finitely many timers fire halts: every other step lowers a weight. */
module LatencyTermination {
  import opened EventQueue
  import opened LatencySim
  import opened LatencyHistory
  import opened LatencyInvariant
  import opened LatencyPackets
  import opened LatencyQueues
  import opened LatencyNodeSteps
  import opened LatencyUserSteps
  import opened LatencyEgressSteps
  import opened LatencySendSteps
  import opened LatencyResendSteps
  import opened LatencyRebuildSteps
  import opened LatencyRuns
  import opened LatencyDelivery

  // ---------- Weights ----------

  /** How many steps a packet can still cause, with those of the acknowledgement it carries. */
  function PacketWeight(p: Packet): nat {
    1 + ContentWeight(p.content)
  }

  function ContentWeight(c: Content): nat {
    match c
    case OfAck(_) => 0
    case OfMessage(m) => 1 + PacketWeight(m.ack)
    case OfPacket(q) => PacketWeight(q)
  }

  /** The weight of one fragment waiting for its egress. */
  function FragmentWeight(env: Env): nat { 2 * env.numHops + 2 }

  /** The weight of a message of `n` fragments that waits to be sent. */
  function BatchWeight(env: Env, n: nat): nat {
    if n == 0 then 0 else FragmentWeight(env) + BatchWeight(env, n - 1)
  }

  function EventWeight(env: Env, e: UserEvent): nat {
    match e
    case Handover(m) => 1 + PacketWeight(m.ack)
    case Egress(p) => 1 + PacketWeight(p)
    case AckTimeout(_) => 0
    case SendMessage(n) => 1 + BatchWeight(env, n)
  }

  function Weigher(env: Env): UserEvent -> nat {
    e => EventWeight(env, e)
  }

  ghost function NodeWeights(nodes: Nodes): map<nat, nat> {
    map n | n in nodes :: Total(nodes[n].ingress, PacketWeight)
  }

  ghost function UserWeights(env: Env, users: Users): map<nat, nat> {
    map u | u in users :: Total(users[u].events, Weigher(env))
  }

  ghost function Sum(m: map<nat, nat>, k: nat): nat {
    if k == 0 then 0 else Sum(m, k - 1) + if k - 1 in m then m[k - 1] else 0
  }

  lemma {:induction false} SumUpdate(m: map<nat, nat>, j: nat, v: nat, k: nat)
    requires j in m
    ensures j < k ==> Sum(m[j := v], k) + m[j] == Sum(m, k) + v
    ensures k <= j ==> Sum(m[j := v], k) == Sum(m, k)
  {
    if k > 0 {
      SumUpdate(m, j, v, k - 1);
    }
  }

  ghost function NodesWeight(nodes: Nodes): nat { Sum(NodeWeights(nodes), |nodes.Keys|) }

  ghost function UsersWeight(env: Env, users: Users): nat { Sum(UserWeights(env, users), |users.Keys|) }

  ghost function Weight(env: Env, s: State): nat {
    NodesWeight(s.nodes) + UsersWeight(env, s.users)
  }

  /** Nodes and users are numbered from 0 on. */
  ghost predicate Numbered(s: State) {
    Contiguous(s.nodes.Keys) && Contiguous(s.users.Keys)
  }

  // ---------- What the queue operations do to the weight ----------

  lemma NodeChange(nodes: Nodes, n: NodeId, node: NodeState)
    requires n in nodes && Contiguous(nodes.Keys)
    ensures nodes[n := node].Keys == nodes.Keys
    ensures Sum(NodeWeights(nodes[n := node]), |nodes.Keys|) + Total(nodes[n].ingress, PacketWeight)
         == Sum(NodeWeights(nodes), |nodes.Keys|) + Total(node.ingress, PacketWeight)
  {
    SumUpdate(NodeWeights(nodes), n, Total(node.ingress, PacketWeight), |nodes.Keys|);
    assert NodeWeights(nodes[n := node]) == NodeWeights(nodes)[n := Total(node.ingress, PacketWeight)];
  }

  lemma UserChange(env: Env, users: Users, u: UserId, user: UserState)
    requires u in users && Contiguous(users.Keys)
    ensures users[u := user].Keys == users.Keys
    ensures Sum(UserWeights(env, users[u := user]), |users.Keys|) + Total(users[u].events, Weigher(env))
         == Sum(UserWeights(env, users), |users.Keys|) + Total(user.events, Weigher(env))
  {
    SumUpdate(UserWeights(env, users), u, Total(user.events, Weigher(env)), |users.Keys|);
    assert UserWeights(env, users[u := user]) == UserWeights(env, users)[u := Total(user.events, Weigher(env))];
  }

  lemma PushNodeWeight(nodes: Nodes, n: NodeId, t: Timestamp, p: Packet)
    requires n in nodes && Contiguous(nodes.Keys)
    ensures NodesWeight(PushIngress(nodes, n, t, p)) == NodesWeight(nodes) + PacketWeight(p)
    ensures PushIngress(nodes, n, t, p).Keys == nodes.Keys
  {
    TotalInsert(nodes[n].ingress, t, p, PacketWeight);
    NodeChange(nodes, n, NodeState(Insert(nodes[n].ingress, t, p)));
  }

  lemma PopNodeWeight(nodes: Nodes, n: NodeId)
    requires n in nodes && Contiguous(nodes.Keys) && nodes[n].ingress != []
    ensures NodesWeight(nodes) == NodesWeight(PopIngress(nodes, n)) + PacketWeight(nodes[n].ingress[0].1)
    ensures PopIngress(nodes, n).Keys == nodes.Keys
  {
    NodeChange(nodes, n, NodeState(nodes[n].ingress[1..]));
  }

  lemma PushUserWeight(env: Env, users: Users, u: UserId, t: Timestamp, e: UserEvent)
    requires u in users && Contiguous(users.Keys)
    ensures UsersWeight(env, PushEvent(users, u, t, e)) == UsersWeight(env, users) + EventWeight(env, e)
    ensures PushEvent(users, u, t, e).Keys == users.Keys
  {
    TotalInsert(users[u].events, t, e, Weigher(env));
    UserChange(env, users, u, users[u].(events := Insert(users[u].events, t, e)));
  }

  lemma PopUserWeight(env: Env, users: Users, u: UserId)
    requires u in users && Contiguous(users.Keys) && users[u].events != []
    ensures UsersWeight(env, users) == UsersWeight(env, PopEvent(users, u)) + EventWeight(env, users[u].events[0].1)
    ensures PopEvent(users, u).Keys == users.Keys
  {
    UserChange(env, users, u, users[u].(events := users[u].events[1..]));
  }

  lemma SameEventsWeight(env: Env, users: Users, users': Users)
    requires SameEvents(users, users')
    ensures UsersWeight(env, users') == UsersWeight(env, users)
  {
    assert UserWeights(env, users') == UserWeights(env, users);
  }

  lemma {:induction false} CancelTotal(env: Env, q: Queue<UserEvent>, id: nat)
    ensures Total(CancelTimers(q, id), Weigher(env)) == Total(q, Weigher(env))
  {
    if q != [] {
      CancelTotal(env, q[1..], id);
      if q[0].1 != AckTimeout(id) {
        assert CancelTimers(q, id)[1..] == CancelTimers(q[1..], id);
      }
    }
  }

  lemma CancelWeight(env: Env, users: Users, u: UserId, id: nat)
    requires u in users && Contiguous(users.Keys)
    ensures UsersWeight(env, CancelAt(users, u, id)) == UsersWeight(env, users)
    ensures CancelAt(users, u, id).Keys == users.Keys
  {
    CancelTotal(env, users[u].events, id);
    UserChange(env, users, u, users[u].(events := CancelTimers(users[u].events, id)));
  }

  lemma {:induction false} EgressesTotal(env: Env, q: Queue<UserEvent>, t: Timestamp, packets: seq<Packet>)
    requires forall p :: p in packets ==> 1 + PacketWeight(p) == FragmentWeight(env)
    ensures Total(InsertEgresses(q, t, packets), Weigher(env)) == Total(q, Weigher(env)) + BatchWeight(env, |packets|)
    decreases |packets|
  {
    if packets == [] {
    } else {
      var q1 := Insert(q, t, Egress(packets[0]));
      TotalInsert(q, t, Egress(packets[0]), Weigher(env));
      EgressesTotal(env, q1, t, packets[1..]);
    }
  }

  lemma EgressesWeight(env: Env, users: Users, u: UserId, t: Timestamp, packets: seq<Packet>)
    requires u in users && Contiguous(users.Keys)
    requires forall p :: p in packets ==> 1 + PacketWeight(p) == FragmentWeight(env)
    ensures UsersWeight(env, PushEgresses(users, u, t, packets))
            == UsersWeight(env, users) + BatchWeight(env, |packets|)
  {
    EgressesTotal(env, users[u].events, t, packets);
    UserChange(env, users, u, users[u].(events := InsertEgresses(users[u].events, t, packets)));
  }

  // ---------- The weight of built packets ----------

  lemma {:induction false} BuildWeight(env: Env, range: Pos, cursor: nat, hops: Pos, content: Content,
                                       delays: seq<Timestamp>)
    requires hops <= |delays|
    ensures PacketWeight(BuildPacketWithDelays(env, range, cursor, hops, content, delays))
            == hops + ContentWeight(content)
    decreases hops
  {
    if hops > 1 {
      var inner := OfPacket(Packet(env.tape(cursor) % range, delays[|delays| - 1], content));
      BuildWeight(env, range, cursor + 1, hops - 1, inner, delays[..|delays| - 1]);
    }
  }

  lemma BuiltWeight(env: Env, range: Pos, cursor: nat, content: Content)
    ensures PacketWeight(BuildPacket(env, range, cursor, content)) == env.numHops + ContentWeight(content)
  {
    hide BuildPacketWithDelays, DrawDelays, PacketWeight;
    BuildWeight(env, range, cursor + env.numHops, env.numHops, content, DrawDelays(env, cursor, env.numHops));
  }

  lemma FragmentsWeigh(env: Env, b: Batch, id: nat, cursor: nat)
    ensures forall p :: p in BuildFragments(env, b, 0, id, cursor) ==> 1 + PacketWeight(p) == FragmentWeight(env)
  {
    hide BuildPacket, PacketWeight;
    var ps := BuildFragments(env, b, 0, id, cursor);
    forall p | p in ps
      ensures 1 + PacketWeight(p) == FragmentWeight(env)
    {
      var i :| 0 <= i < |ps| && ps[i] == p;
      var c := FragmentAt(env, b, 0, id, cursor, i);
      var key := if env.strategy.PerFragment? then id + i else b.fragmentSet;
      BuiltWeight(env, b.range, c, OfAck(Ack(key, b.sender)));
      BuiltWeight(env, b.range, c + 2 * env.numHops, OfMessage(FragmentMessage(env, b, i, id + i, c)));
    }
  }

  lemma {:induction false} RedatedWeight(p: Packet, t: Timestamp)
    requires Core(p).OfMessage?
    ensures PacketWeight(WithSendingTime(p, t)) == PacketWeight(p)
  {
    if p.content.OfPacket? {
      RedatedWeight(p.content.packet, t);
    }
  }

  // ---------- Steps ----------

  lemma NodeStepWeight(env: Env, s: State, n: NodeId)
    requires Numbered(s) && BusyNode(s, n) && FireNode(env, s, n).Stepped?
    ensures Weight(env, FireNode(env, s, n).state) < Weight(env, s)
  {
    hide NodesWeight, UsersWeight;
    var now, nodes1 := NodeTime(s, n), PopIngress(s.nodes, n);
    PopNodeWeight(s.nodes, n);
    match s.nodes[n].ingress[0].1.content {
      case OfMessage(m) => PushUserWeight(env, s.users, m.recipient, now, Handover(m));
      case OfAck(a) => CancelWeight(env, s.users, a.recipient, a.messageId);
      case OfPacket(q) => PushNodeWeight(nodes1, q.destination, now + q.delay, q);
    }
  }

  lemma SendAckWeight(env: Env, s: State, m: Message)
    requires Numbered(s) && SendAck(s, m).Stepped?
    ensures Weight(env, SendAck(s, m).state) == Weight(env, s) + PacketWeight(m.ack)
  {
    hide NodesWeight, UsersWeight;
    PushNodeWeight(s.nodes, m.ack.destination, s.timestamp + m.ack.delay, m.ack);
  }

  lemma HandoverWeight(env: Env, s: State, u: UserId, m: Message)
    requires Numbered(s) && u in s.users && OnHandover(env, s, u, m).Stepped?
    ensures Weight(env, OnHandover(env, s, u, m).state) <= Weight(env, s) + PacketWeight(m.ack)
  {
    hide NodesWeight, UsersWeight, Contiguous;
    var users' := s.users[u := Marked(s.users[u], m, s.timestamp)];
    assert users'.Keys == s.users.Keys;
    SameEventsWeight(env, s.users, users');
    if env.strategy.PerFragment? {
      SendAckWeight(env, s, m);
    } else if Complete(users'[u], m) {
      MarkedWeight(env, s.(users := users'), users'[u], m);
    }
  }

  lemma MarkedWeight(env: Env, s: State, user: UserState, m: Message)
    requires Numbered(s) && env.strategy.WholeMessage? && m.fragmentSet in user.tFirst
    requires Record(env, s, user, m).Stepped?
    ensures Weight(env, Record(env, s, user, m).state) == Weight(env, s) + PacketWeight(m.ack)
  {
    hide NodesWeight, UsersWeight, EventQueue.Insert;
    var first := user.tFirst[m.fragmentSet];
    var s1 := s.(deliveryTimes := s.deliveryTimes + [s.timestamp - m.sendingTime],
                 firstToLast := s.firstToLast + [s.timestamp - first]);
    SendAckWeight(env, s1, m);
  }

  lemma TimedWeight(env: Env, users: Users, u: UserId, now: Timestamp, p: Packet)
    requires u in users && Contiguous(users.Keys) && Core(p).OfMessage?
    ensures UsersWeight(env, Timed(env, users, u, now, p)) == UsersWeight(env, users)
    ensures Timed(env, users, u, now, p).Keys == users.Keys
  {
    hide NodesWeight, UsersWeight, Contiguous;
    TimedShape(env, users, u, now, p);
    var m := MessageOf(p);
    if SetsTimer(env, users[u], m) {
      var id := TimerId(env, m);
      var kept := Kept(users, u, id, m);
      assert kept.Keys == users.Keys;
      SameEventsWeight(env, users, kept);
      PushUserWeight(env, kept, u, now + env.timeout(TotalDelay(p)), AckTimeout(id));
    }
  }

  lemma EgressWeight(env: Env, s: State, u: UserId, p: Packet)
    requires Numbered(s) && u in s.users && OnEgress(env, s, u, p).Stepped?
    ensures Weight(env, OnEgress(env, s, u, p).state) <= Weight(env, s) + PacketWeight(p)
  {
    hide NodesWeight, UsersWeight, Core;
    TimedWeight(env, s.users, u, s.timestamp, p);
    PushNodeWeight(s.nodes, p.destination, s.timestamp + p.delay, p);
  }

  lemma SendMessageWeight(env: Env, s: State, u: UserId, n: nat)
    requires Numbered(s) && u in s.users
    ensures Weight(env, OnSendMessage(env, s, u, n).state) == Weight(env, s) + BatchWeight(env, n)
  {
    hide NodesWeight, UsersWeight;
    var b := BatchAt(s, u, 1, n);
    FragmentsWeigh(env, b, s.nextMessageId, s.cursor);
    EgressesWeight(env, s.users, u, s.timestamp, Fragments(env, s, b));
    assert PushEgresses(s.users, u, s.timestamp, Fragments(env, s, b)).Keys == s.users.Keys;
  }

  lemma UserStepWeight(env: Env, s: State, u: UserId)
    requires Numbered(s) && BusyUser(s, u) && FireUser(env, s, u).Stepped? && !Event(s, u).AckTimeout?
    ensures Weight(env, FireUser(env, s, u).state) < Weight(env, s)
  {
    hide NodesWeight, UsersWeight;
    var s1 := Popped(s, u);
    PopUserWeight(env, s.users, u);
    assert Weight(env, s) == Weight(env, s1) + EventWeight(env, Event(s, u));
    match Event(s, u) {
      case Handover(m) => HandoverWeight(env, s1, u, m);
      case Egress(p) => EgressWeight(env, s1, u, p);
      case SendMessage(n) => SendMessageWeight(env, s1, u, n);
    }
  }

  ghost predicate Fires(w: World, who: Who) {
    who.AtUser? && BusyUser(w.s, who.user) && Event(w.s, who.user).AckTimeout?
  }

  /** Every step that fires no timer lowers the weight, in whatever state. */
  lemma StepLowersWeight(env: Env, w: World, who: Who)
    requires Numbered(w.s) && CanStep(env, w, who) && !Fires(w, who)
    ensures Weight(env, After(env, w, who).s) < Weight(env, w.s)
  {
    match who {
      case AtNode(n) => NodeStepWeight(env, w.s, n);
      case AtUser(u) => UserStepWeight(env, w.s, u);
    }
  }

  // ---------- Firing timers ----------

  /** No message, sent or still to be sent, has more than `limit` fragments. */
  ghost predicate Bounded(w: World, limit: nat) {
    && SetsBounded(w.h.book, limit)
    && (forall u, n {:trigger Sends(w.s.users, u, n)} :: u in w.s.users && limit < n ==> Sends(w.s.users, u, n) == 0)
  }

  /** A message and its acknowledgement, both in packets that were just built. */
  lemma BuiltMessageWeight(env: Env, range: Pos, cursor: nat, ack: Ack, cursor': nat, m: Message)
    requires m.ack == BuildPacket(env, range, cursor, OfAck(ack))
    ensures 1 + PacketWeight(BuildPacket(env, range, cursor', OfMessage(m))) == FragmentWeight(env)
  {
    hide BuildPacket;
    BuiltWeight(env, range, cursor, OfAck(ack));
    BuiltWeight(env, range, cursor', OfMessage(m));
  }

  lemma RenewedWeight(env: Env, s: State, u: UserId, m: Message)
    ensures 1 + PacketWeight(RenewedPacket(env, s, u, m)) == FragmentWeight(env)
  {
    hide BuildPacket, PacketWeight, FragmentWeight, RangeOf;
    BuiltMessageWeight(env, NodeRange(s), s.cursor, Ack(s.nextMessageId, u), s.cursor + 2 * env.numHops,
                       Renewed(env, s, u, m));
  }

  lemma ResentWeight(env: Env, w: World, w': World, u: UserId, id: nat, m: Message, now: Timestamp, p: Packet)
    requires Numbered(w.s) && ResendDelta(env, w, w', u, id, m, now, p) && Event(w.s, u) == AckTimeout(id)
    requires 1 + PacketWeight(p) == FragmentWeight(env)
    ensures Weight(env, w'.s) == Weight(env, w.s) + FragmentWeight(env)
  {
    hide NodesWeight, UsersWeight;
    PopUserWeight(env, w.s.users, u);
    ForgottenWeight(env, w.s.users, u, id, now, p);
  }

  lemma ResendWeight(env: Env, w: World, u: UserId)
    requires Turn(env, w, AtUser(u)) && Numbered(w.s) && Event(w.s, u).AckTimeout? && env.strategy.PerFragment?
    ensures CanStep(env, w, AtUser(u))
    ensures Weight(env, After(env, w, AtUser(u)).s) == Weight(env, w.s) + FragmentWeight(env)
  {
    hide Weight;
    ResendFires(env, w, u);
    var id := Event(w.s, u).id;
    var s2, m := Forgetful(w.s, u, id), w.s.users[u].originals[id];
    RenewedWeight(env, s2, u, m);
    ResentWeight(env, w, After(env, w, AtUser(u)), u, id, m, UserTime(w.s, u), RenewedPacket(env, s2, u, m));
  }

  lemma ForgottenWeight(env: Env, users: Users, u: UserId, id: nat, now: Timestamp, p: Packet)
    requires u in users && users[u].events != [] && Contiguous(users.Keys)
    ensures var users' := PushEvent(Forgotten(PopEvent(users, u), u, id), u, now, Egress(p));
            UsersWeight(env, users') == UsersWeight(env, PopEvent(users, u)) + 1 + PacketWeight(p)
              && users'.Keys == users.Keys
  {
    hide NodesWeight, UsersWeight;
    var users1, users2 := PopEvent(users, u), Forgotten(PopEvent(users, u), u, id);
    assert users2.Keys == users1.Keys == users.Keys;
    SameEventsWeight(env, users1, users2);
    PushUserWeight(env, users2, u, now, Egress(p));
  }

  lemma RebuildWeight(env: Env, w: World, u: UserId)
    requires Turn(env, w, AtUser(u)) && Numbered(w.s) && Event(w.s, u).AckTimeout? && env.strategy.WholeMessage?
    ensures CanStep(env, w, AtUser(u)) && Event(w.s, u).id < |w.h.book.sets|
    ensures Weight(env, After(env, w, AtUser(u)).s)
         == Weight(env, w.s) + BatchWeight(env, w.h.book.sets[Event(w.s, u).id].size)
  {
    hide Weight;
    RebuildReady(env, w, u);
    var id, now := Event(w.s, u).id, UserTime(w.s, u);
    var m := w.s.users[u].originals[id];
    RebuildChanges(env, w, u, id, m);
    var s2 := ClearedState(w.s, u, id, m);
    RebuiltWeigh(env, s2, m);
    RebuiltWeight(env, w, After(env, w, AtUser(u)), u, id, m, now, RebuiltPackets(env, s2, m));
  }

  lemma RebuiltWeight(env: Env, w: World, w': World, u: UserId, id: nat, m: Message, now: Timestamp,
                      packets: seq<Packet>)
    requires RebuildOk(env, w, u, id, m, now) && RebuildDelta(env, w, w', u, id, m, now, packets)
    requires Numbered(w.s) && Event(w.s, u) == AckTimeout(id)
    requires forall p :: p in packets ==> 1 + PacketWeight(p) == FragmentWeight(env)
    ensures Weight(env, w'.s) == Weight(env, w.s) + BatchWeight(env, w.h.book.sets[id].size)
  {
    hide NodesWeight, UsersWeight, BatchWeight;
    PopUserWeight(env, w.s.users, u);
    ClearedWeight(env, w.s.users, u, id, m, now, packets);
  }

  lemma RebuiltWeigh(env: Env, s: State, m: Message)
    ensures |RebuiltPackets(env, s, m)| == m.fragmentSize
    ensures forall p :: p in RebuiltPackets(env, s, m) ==> 1 + PacketWeight(p) == FragmentWeight(env)
  {
    var built, rebuilt := Packets(env, s, m.sender, m.recipient, m.fragmentSize), RebuiltPackets(env, s, m);
    FragmentsWeigh(env, BatchAt(s, m.sender, m.recipient, m.fragmentSize), s.nextMessageId, s.cursor);
    forall p | p in rebuilt
      ensures 1 + PacketWeight(p) == FragmentWeight(env)
    {
      var i :| 0 <= i < |rebuilt| && rebuilt[i] == p;
      RedatedWeight(built[i], m.sendingTime);
    }
  }

  lemma ClearedWeight(env: Env, users: Users, u: UserId, id: nat, m: Message, now: Timestamp, packets: seq<Packet>)
    requires u in users && users[u].events != [] && m.recipient in users && Contiguous(users.Keys)
    requires forall p :: p in packets ==> 1 + PacketWeight(p) == FragmentWeight(env)
    ensures var users' := PushEgresses(ClearedUsers(users, u, id, m), u, now, packets);
            UsersWeight(env, users') == UsersWeight(env, PopEvent(users, u)) + BatchWeight(env, |packets|)
              && users'.Keys == users.Keys
  {
    hide NodesWeight, UsersWeight;
    var users1, users2 := PopEvent(users, u), ClearedUsers(users, u, id, m);
    ClearedEvents(users, u, id, m);
    assert users2.Keys == users1.Keys == users.Keys;
    SameEventsWeight(env, users1, users2);
    EgressesWeight(env, users2, u, now, packets);
    assert PushEgresses(users2, u, now, packets).Keys == users.Keys;
  }

  /** What one fired timer can add, in a run whose messages have at most `limit` fragments. */
  function RetransmissionWeight(env: Env, limit: nat): nat {
    BatchWeight(env, limit + 1)
  }

  lemma {:induction false} BatchMonotone(env: Env, m: nat, n: nat)
    requires m <= n
    ensures BatchWeight(env, m) <= BatchWeight(env, n)
  {
    if m < n {
      BatchMonotone(env, m, n - 1);
    }
  }

  lemma TimeoutWeight(env: Env, w: World, who: Who, limit: nat)
    requires Inv(env, w) && Numbered(w.s) && CanStep(env, w, who) && Fires(w, who) && Bounded(w, limit)
    ensures Weight(env, After(env, w, who).s) <= Weight(env, w.s) + RetransmissionWeight(env, limit)
  {
    if env.strategy.PerFragment? {
      ResendWeight(env, w, who.user);
      assert FragmentWeight(env) == BatchWeight(env, 1);
      BatchMonotone(env, 1, limit + 1);
    } else {
      RebuildWeight(env, w, who.user);
      BatchMonotone(env, w.h.book.sets[Event(w.s, who.user).id].size, limit + 1);
    }
  }

  ghost predicate SetsBounded(book: Book, limit: nat) {
    forall k :: 0 <= k < |book.sets| ==> book.sets[k].size <= limit
  }

  lemma SendBounded(env: Env, w: World, u: UserId, limit: nat)
    requires Turn(env, w, AtUser(u)) && Event(w.s, u).SendMessage? && Bounded(w, limit)
    ensures CanStep(env, w, AtUser(u)) && SetsBounded(After(env, w, AtUser(u)).h.book, limit)
  {
    hide Inv;
    SendFires(env, w, u);
    SendIsCounted(w, u, Event(w.s, u).numFrags);
  }

  lemma RebuiltBounded(env: Env, w: World, w': World, u: UserId, id: nat, m: Message, now: Timestamp,
                       packets: seq<Packet>, limit: nat)
    requires RebuildOk(env, w, u, id, m, now) && RebuildDelta(env, w, w', u, id, m, now, packets)
    requires SetsBounded(w.h.book, limit)
    ensures SetsBounded(w'.h.book, limit)
  {
  }

  lemma TimeoutBounded(env: Env, w: World, u: UserId, limit: nat)
    requires Turn(env, w, AtUser(u)) && Event(w.s, u).AckTimeout? && SetsBounded(w.h.book, limit)
    ensures CanStep(env, w, AtUser(u)) && SetsBounded(After(env, w, AtUser(u)).h.book, limit)
  {
    hide Inv, SetsBounded, RebuildDelta;
    var id := Event(w.s, u).id;
    if env.strategy.PerFragment? {
      ResendFires(env, w, u);
      assert After(env, w, AtUser(u)).h.book.sets == w.h.book.sets;
      ResentBounded(w.h.book, After(env, w, AtUser(u)).h.book, limit);
    } else {
      RebuildTurn(env, w, u);
      var m := w.s.users[u].originals[id];
      var packets := RebuiltPackets(env, ClearedState(w.s, u, id, m), m);
      RebuiltBounded(env, w, After(env, w, AtUser(u)), u, id, m, UserTime(w.s, u), packets, limit);
    }
  }

  lemma ResentBounded(book: Book, book': Book, limit: nat)
    requires SetsBounded(book, limit) && book'.sets == book.sets
    ensures SetsBounded(book', limit)
  {
  }

  lemma NewSetsBounded(env: Env, w: World, who: Who, limit: nat)
    requires Inv(env, w) && CanStep(env, w, who) && Bounded(w, limit)
    ensures SetsBounded(After(env, w, who).h.book, limit)
  {
    hide Inv, Marked;
    match who {
      case AtNode(_) => assert Advance(env, w.s, w.h, who).book.sets == w.h.book.sets;
      case AtUser(u) =>
        match Event(w.s, u) {
          case SendMessage(_) => SendBounded(env, w, u, limit);
          case AckTimeout(_) => TimeoutBounded(env, w, u, limit);
          case _ => assert Advance(env, w.s, w.h, who).book.sets == w.h.book.sets;
        }
    }
  }

  lemma SendIsCounted(w: World, u: UserId, n: nat)
    requires BusyUser(w.s, u) && Event(w.s, u) == SendMessage(n)
    ensures Sends(w.s.users, u, n) >= 1
  {
  }

  lemma StepBounded(env: Env, w: World, who: Who, limit: nat)
    requires Inv(env, w) && CanStep(env, w, who) && Bounded(w, limit)
    ensures Bounded(After(env, w, who), limit)
  {
    NewSetsBounded(env, w, who, limit);
    StepUsers(env, w, who);
    forall u, n | u in w.s.users && limit < n
      ensures Sends(After(env, w, who).s.users, u, n) == 0
    {
      StepSends(env, w, who, u, n);
      assert Sends(w.s.users, u, n) == 0;
    }
  }

  // ---------- Runs ----------

  /** How many steps of a run fire a timer. */
  ghost function Timeouts(env: Env, w: World, schedule: seq<Who>): nat {
    Steps(env, w, schedule, Fires)
  }

  /** `n` times `c`. */
  function Times(n: nat, c: nat): nat {
    if n == 0 then 0 else c + Times(n - 1, c)
  }

  lemma {:induction false} RunWeight(env: Env, w: World, schedule: seq<Who>, w': World, limit: nat, c: nat)
    requires Inv(env, w) && Numbered(w.s) && Bounded(w, limit) && Leads(env, w, schedule, w')
    requires c == 1 + RetransmissionWeight(env, limit)
    ensures |schedule| + Weight(env, w'.s) <= Weight(env, w.s) + Times(Timeouts(env, w, schedule), c)
    decreases |schedule|
  {
    hide Weight, Inv, Bounded, Numbered, RetransmissionWeight, After, CanStep, Fires;
    if schedule == [] {
      LeadsNowhere(env, w, w');
    } else {
      LeadsOn(env, w, schedule, w');
      var who := schedule[0];
      RunStep(env, w, who, limit);
      var w1 := After(env, w, who);
      RunWeight(env, w1, schedule[1..], w', limit, c);
      assert Timeouts(env, w, schedule) == One(Fires(w, who)) + Timeouts(env, w1, schedule[1..]);
    }
  }

  lemma RunStep(env: Env, w: World, who: Who, limit: nat)
    requires Inv(env, w) && Numbered(w.s) && Bounded(w, limit) && CanStep(env, w, who)
    ensures var w' := After(env, w, who);
            && Inv(env, w') && Numbered(w'.s) && Bounded(w', limit)
            && (if Fires(w, who) then Weight(env, w'.s) <= Weight(env, w.s) + RetransmissionWeight(env, limit)
                else Weight(env, w'.s) < Weight(env, w.s))
  {
    StepKeeps(env, w, who);
    StepUsers(env, w, who);
    StepBounded(env, w, who, limit);
    if Fires(w, who) {
      TimeoutWeight(env, w, who, limit);
    } else {
      StepLowersWeight(env, w, who);
    }
  }

  lemma StartBounded(w: World, limit: nat)
    requires Start(w)
    requires forall u, e :: u in w.s.users && e in w.s.users[u].events && e.1.SendMessage? ==> e.1.numFrags <= limit
    ensures Bounded(w, limit)
  {
    forall u, n | u in w.s.users && limit < n
      ensures Sends(w.s.users, u, n) == 0
    {
      var q := w.s.users[u].events;
      assert forall i :: 0 <= i < |q| ==> q[i] in q;
      if SendKey(n) in UserBag(w.s.users, u) {
        var i := BagMember(q, EventKey, SendKey(n));
        assert false;
      }
    }
  }

  /** The length of a run is bounded by the weight of its messages and the number of timers that fire in
      it; so a run in which finitely many timers fire comes to an end. */
  lemma RunsAreBounded(env: Env, w: World, schedule: seq<Who>, w': World, limit: nat)
    requires Start(w) && Leads(env, w, schedule, w')
    requires forall u, e :: u in w.s.users && e in w.s.users[u].events && e.1.SendMessage? ==> e.1.numFrags <= limit
    ensures |schedule| <= Weight(env, w.s) + Times(Timeouts(env, w, schedule), 1 + RetransmissionWeight(env, limit))
  {
    hide Weight, Inv, Times, RetransmissionWeight, Timeouts;
    StartKeeps(env, w);
    StartBounded(w, limit);
    RunWeight(env, w, schedule, w', limit, 1 + RetransmissionWeight(env, limit));
  }
}
