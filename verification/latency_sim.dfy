/** The latency simulator: onion packets hop between nodes, users send messages in fragments, and
    timers retransmit what has not been acknowledged. Every random draw is read off `env.tape`, an
    arbitrary function, so a statement over all environments holds for all random choices. */
module LatencySim {
  import opened EventQueue

  type NodeId = nat
  type UserId = nat
  type Pos = n: nat | 1 <= n witness 1

  datatype AckStrategy = PerFragment | WholeMessage

  datatype Message = Message(id: nat, sendingTime: Timestamp, recipient: UserId, sender: UserId,
                             fragmentSet: nat, fragmentSize: nat, fragmentIndex: nat, ack: Packet)

  datatype Ack = Ack(messageId: nat, recipient: UserId)

  datatype Content =
    | OfMessage(message: Message)
    | OfAck(ack: Ack)
    | OfPacket(packet: Packet)

  datatype Packet = Packet(destination: NodeId, delay: Timestamp, content: Content)

  datatype UserEvent =
    | Handover(message: Message)
    | Egress(packet: Packet)
    | AckTimeout(id: nat)
    | SendMessage(numFrags: nat)

  datatype NodeState = NodeState(ingress: Queue<Packet>)

  /** A drop chance and a draw are fractions on a common grid, given by their numerators. */
  datatype UserState = UserState(events: Queue<UserEvent>, fragments: map<nat, set<nat>>,
                                 tFirst: map<nat, Timestamp>, originals: map<nat, Message>, dropChance: nat)

  /** What never changes during a run. `timeout` maps the total delay of a packet to its timeout. */
  datatype Env = Env(strategy: AckStrategy, numHops: Pos, timeout: nat -> nat, tape: nat -> nat)

  datatype State = State(timestamp: Timestamp, nodes: map<NodeId, NodeState>, users: map<UserId, UserState>,
                         deliveryTimes: seq<Timestamp>, firstToLast: seq<Timestamp>,
                         nextMessageId: nat, nextFragmentSet: nat, packetCount: nat, cursor: nat)

  // ---------- Packets ----------

  function TotalDelay(p: Packet): nat {
    p.delay + match p.content
              case OfPacket(q) => TotalDelay(q)
              case _ => 0
  }

  /** The innermost content of a packet. */
  function Core(p: Packet): (c: Content)
    ensures !c.OfPacket?
  {
    if p.content.OfPacket? then Core(p.content.packet) else p.content
  }

  /** The message of a packet, as `Packet::message`, which panics on an acknowledgement. */
  function MessageOf(p: Packet): Message
    requires Core(p).OfMessage?
  {
    Core(p).message
  }

  function WithSendingTime(p: Packet, t: Timestamp): Packet
    requires Core(p).OfMessage?
  {
    match p.content
    case OfPacket(q) => p.(content := OfPacket(WithSendingTime(q, t)))
    case OfMessage(m) => p.(content := OfMessage(m.(sendingTime := t)))
  }

  /** Wraps `content` in `hops` layers, innermost first. */
  function BuildPacketWithDelays(env: Env, range: Pos, cursor: nat, hops: Pos, content: Content,
                                 delays: seq<Timestamp>): Packet
    requires hops <= |delays|
    decreases hops
  {
    var node := env.tape(cursor) % range;
    if hops == 1 then
      Packet(node, delays[0], content)
    else
      var last := |delays| - 1;
      BuildPacketWithDelays(env, range, cursor + 1, hops - 1, OfPacket(Packet(node, delays[last], content)),
                            delays[..last])
  }

  function DrawDelays(env: Env, cursor: nat, num: nat): (ds: seq<Timestamp>)
    ensures |ds| == num && forall i :: 0 <= i < num ==> ds[i] == env.tape(cursor + i)
    decreases num
  {
    if num == 0 then [] else [env.tape(cursor)] + DrawDelays(env, cursor + 1, num - 1)
  }

  function BuildPacket(env: Env, range: Pos, cursor: nat, content: Content): Packet {
    BuildPacketWithDelays(env, range, cursor + env.numHops, env.numHops, content, DrawDelays(env, cursor, env.numHops))
  }

  /** What is shared by the fragments of one call of `build_messages`. */
  datatype Batch = Batch(range: Pos, now: Timestamp, fragmentSet: nat, sender: UserId, recipient: UserId, size: nat)

  function FragmentMessage(env: Env, b: Batch, index: nat, id: nat, cursor: nat): Message {
    var key := if env.strategy.PerFragment? then id else b.fragmentSet;
    Message(id, b.now, b.recipient, b.sender, b.fragmentSet, b.size, index,
            BuildPacket(env, b.range, cursor, OfAck(Ack(key, b.sender))))
  }

  function FragmentPacket(env: Env, b: Batch, index: nat, id: nat, cursor: nat): Packet {
    BuildPacket(env, b.range, cursor + 2 * env.numHops, OfMessage(FragmentMessage(env, b, index, id, cursor)))
  }

  /** The packets of the fragments `index..b.size`. */
  function BuildFragments(env: Env, b: Batch, index: nat, id: nat, cursor: nat): (ps: seq<Packet>)
    requires index <= b.size
    ensures |ps| == b.size - index
    decreases b.size - index
  {
    if index == b.size then []
    else [FragmentPacket(env, b, index, id, cursor)]
         + BuildFragments(env, b, index + 1, id + 1, cursor + 4 * env.numHops)
  }

  function CursorAfter(env: Env, cursor: nat, num: nat): nat
    decreases num
  {
    if num == 0 then cursor else CursorAfter(env, cursor + 4 * env.numHops, num - 1)
  }

  // ---------- Identifiers ----------

  ghost predicate IsMax(ids: set<nat>, k: nat) {
    k in ids && forall j :: j in ids ==> j <= k
  }

  lemma MaxExists(ids: set<nat>)
    requires ids != {}
    ensures exists k :: IsMax(ids, k)
  {
    var k :| k in ids;
    if ids == {k} {
      assert IsMax(ids, k);
    } else {
      MaxExists(ids - {k});
      var m :| IsMax(ids - {k}, m);
      assert forall j :: j in ids ==> j == k || j in ids - {k};
      assert IsMax(ids, if m < k then k else m);
    }
  }

  ghost predicate Contiguous(ids: set<nat>) {
    forall i: nat :: i in ids <==> i < |ids|
  }

  /** The identifier that `add_node` and `add_user` hand out next. */
  ghost function NextId(ids: set<nat>): nat {
    if ids == {} then 0 else MaxExists(ids); var k: nat :| IsMax(ids, k); k + 1
  }

  /** The number of destinations to choose from, counting identifier 0 even without any node. */
  ghost function RangeOf(ids: set<NodeId>): Pos {
    if ids == {} then 1 else NextId(ids)
  }

  ghost function NodeRange(s: State): Pos {
    RangeOf(s.nodes.Keys)
  }

  // ---------- One step ----------

  datatype Who = AtNode(node: NodeId) | AtUser(user: UserId)

  ghost predicate BusyNode(s: State, n: NodeId) {
    n in s.nodes && s.nodes[n].ingress != []
  }

  ghost predicate BusyUser(s: State, u: UserId) {
    u in s.users && s.users[u].events != []
  }

  ghost function NodeTime(s: State, n: NodeId): Timestamp
    requires BusyNode(s, n)
  {
    s.nodes[n].ingress[0].0
  }

  ghost function UserTime(s: State, u: UserId): Timestamp
    requires BusyUser(s, u)
  {
    s.users[u].events[0].0
  }

  /** May `who` act next? The hash maps may list nodes and users in any order, so any earliest one may;
      a tie between a node and a user goes to the user. */
  ghost predicate IsNext(s: State, who: Who) {
    match who
    case AtNode(n) =>
      && BusyNode(s, n)
      && (forall m :: BusyNode(s, m) ==> NodeTime(s, n) <= NodeTime(s, m))
      && (forall u :: BusyUser(s, u) ==> NodeTime(s, n) < UserTime(s, u))
    case AtUser(u) =>
      && BusyUser(s, u)
      && (forall v :: BusyUser(s, v) ==> UserTime(s, u) <= UserTime(s, v))
      && (forall m :: BusyNode(s, m) ==> UserTime(s, u) <= NodeTime(s, m))
  }

  ghost predicate NoMoreEvents(s: State) {
    (forall n :: !BusyNode(s, n)) && (forall u :: !BusyUser(s, u))
  }

  /** The outcome of a step: a new state, the error "Next event is in the past", or a panic. */
  datatype Outcome = Stepped(state: State) | InThePast | Panicked

  type Nodes = map<NodeId, NodeState>
  type Users = map<UserId, UserState>

  function PushIngress(nodes: Nodes, n: NodeId, t: Timestamp, p: Packet): Nodes
    requires n in nodes
  {
    nodes[n := NodeState(Insert(nodes[n].ingress, t, p))]
  }

  function PopIngress(nodes: Nodes, n: NodeId): Nodes
    requires n in nodes && nodes[n].ingress != []
  {
    nodes[n := NodeState(nodes[n].ingress[1..])]
  }

  function PushEvent(users: Users, u: UserId, t: Timestamp, e: UserEvent): Users
    requires u in users
  {
    users[u := users[u].(events := Insert(users[u].events, t, e))]
  }

  function PopEvent(users: Users, u: UserId): Users
    requires u in users && users[u].events != []
  {
    users[u := users[u].(events := users[u].events[1..])]
  }

  function InsertEgresses(q: Queue<UserEvent>, t: Timestamp, packets: seq<Packet>): Queue<UserEvent>
    decreases |packets|
  {
    if packets == [] then q else InsertEgresses(Insert(q, t, Egress(packets[0])), t, packets[1..])
  }

  function PushEgresses(users: Users, u: UserId, t: Timestamp, packets: seq<Packet>): Users
    requires u in users
  {
    users[u := users[u].(events := InsertEgresses(users[u].events, t, packets))]
  }

  /** An acknowledgement cancels the timers with its identifier. */
  function CancelTimers(q: Queue<UserEvent>, id: nat): Queue<UserEvent> {
    if q == [] then []
    else if q[0].1 == AckTimeout(id) then CancelTimers(q[1..], id)
    else [q[0]] + CancelTimers(q[1..], id)
  }

  function CancelAt(users: Users, u: UserId, id: nat): Users
    requires u in users
  {
    users[u := users[u].(events := CancelTimers(users[u].events, id))]
  }

  ghost function Fire(env: Env, s: State, who: Who): Outcome
    requires IsNext(s, who)
  {
    match who
    case AtNode(n) => FireNode(env, s, n)
    case AtUser(u) => FireUser(env, s, u)
  }

  ghost function FireNode(env: Env, s: State, n: NodeId): Outcome
    requires BusyNode(s, n)
  {
    if NodeTime(s, n) < s.timestamp then InThePast
    else Delivered(Unwrapped(s, n), s.nodes[n].ingress[0].1)
  }

  ghost function Unwrapped(s: State, n: NodeId): State
    requires BusyNode(s, n)
  {
    s.(timestamp := NodeTime(s, n), nodes := PopIngress(s.nodes, n))
  }

  /** What happens to a packet that a node has unwrapped. */
  function Delivered(s: State, packet: Packet): (o: Outcome)
    ensures !o.InThePast?
  {
    match packet.content
    case OfMessage(m) =>
      if m.recipient !in s.users then Panicked
      else Stepped(s.(users := PushEvent(s.users, m.recipient, s.timestamp, Handover(m))))
    case OfAck(a) =>
      if a.recipient !in s.users then Panicked
      else Stepped(s.(users := CancelAt(s.users, a.recipient, a.messageId)))
    case OfPacket(q) =>
      if q.destination !in s.nodes then Panicked
      else Stepped(s.(nodes := PushIngress(s.nodes, q.destination, s.timestamp + q.delay, q)))
  }

  ghost function Popped(s: State, u: UserId): State
    requires BusyUser(s, u)
  {
    s.(timestamp := UserTime(s, u), users := PopEvent(s.users, u))
  }

  ghost function FireUser(env: Env, s: State, u: UserId): Outcome
    requires BusyUser(s, u)
  {
    if UserTime(s, u) < s.timestamp then InThePast
    else Handled(env, Popped(s, u), u, s.users[u].events[0].1)
  }

  /** What happens to an event that a user has taken up. */
  ghost function Handled(env: Env, s: State, u: UserId, event: UserEvent): (o: Outcome)
    requires u in s.users
    ensures !o.InThePast?
  {
    match event
    case Handover(m) => OnHandover(env, s, u, m)
    case Egress(p) => OnEgress(env, s, u, p)
    case SendMessage(n) => OnSendMessage(env, s, u, n)
    case AckTimeout(id) => OnAckTimeout(env, s, u, id)
  }

  /** The acknowledgement of `m` enters the network. */
  function SendAck(s: State, m: Message): Outcome {
    if m.ack.destination !in s.nodes then Panicked
    else Stepped(s.(nodes := PushIngress(s.nodes, m.ack.destination, s.timestamp + m.ack.delay, m.ack),
                    packetCount := s.packetCount + 1))
  }

  function Marked(user: UserState, m: Message, now: Timestamp): UserState {
    var seen := if m.fragmentSet in user.fragments then user.fragments[m.fragmentSet] else {};
    user.(fragments := user.fragments[m.fragmentSet := seen + {m.fragmentIndex}],
          tFirst := if m.fragmentSet in user.tFirst then user.tFirst else user.tFirst[m.fragmentSet := now])
  }

  predicate Complete(user: UserState, m: Message) {
    m.fragmentSet in user.fragments && |user.fragments[m.fragmentSet]| == m.fragmentSize
  }

  function OnHandover(env: Env, s: State, u: UserId, m: Message): Outcome
    requires u in s.users
  {
    var acked := if env.strategy.PerFragment? then SendAck(s, m) else Stepped(s);
    if !acked.Stepped? then acked else Noted(env, acked.state, u, m)
  }

  /** The fragment is marked, and if its set is complete now, a delivery is recorded. */
  function Noted(env: Env, s: State, u: UserId, m: Message): (o: Outcome)
    requires u in s.users
    ensures !o.InThePast?
  {
    var user := Marked(s.users[u], m, s.timestamp);
    var s1 := s.(users := s.users[u := user]);
    if !Complete(user, m) then Stepped(s1) else Record(env, s1, user, m)
  }

  /** All fragments of the set are there: the two delivery figures are pushed. */
  function Record(env: Env, s: State, user: UserState, m: Message): Outcome
    requires m.fragmentSet in user.tFirst
  {
    var first := user.tFirst[m.fragmentSet];
    if s.timestamp < m.sendingTime || s.timestamp < first then Panicked
    else
      var s1 := s.(deliveryTimes := s.deliveryTimes + [s.timestamp - m.sendingTime],
                   firstToLast := s.firstToLast + [s.timestamp - first]);
      if env.strategy.WholeMessage? then SendAck(s1, m) else Stepped(s1)
  }

  /** Is the packet sent at this draw, rather than dropped? */
  predicate Survives(env: Env, cursor: nat, user: UserState) {
    user.dropChance <= env.tape(cursor)
  }

  /** The identifier under which the message of `p` is timed, and under which it is acknowledged. */
  function TimerId(env: Env, m: Message): nat {
    if env.strategy.PerFragment? then m.id else m.fragmentSet
  }

  /** Does sending `m` set a new timer? Under WholeMessage only the first fragment of a set does. */
  predicate SetsTimer(env: Env, user: UserState, m: Message) {
    env.strategy.PerFragment? || m.fragmentSet !in user.originals
  }

  function Timed(env: Env, users: Users, u: UserId, now: Timestamp, p: Packet): Users
    requires u in users && Core(p).OfMessage?
  {
    var m := MessageOf(p);
    var id := TimerId(env, m);
    if SetsTimer(env, users[u], m) then
      var kept := users[u := users[u].(originals := users[u].originals[id := m])];
      PushEvent(kept, u, now + env.timeout(TotalDelay(p)), AckTimeout(id))
    else users
  }

  function OnEgress(env: Env, s: State, u: UserId, p: Packet): Outcome
    requires u in s.users
  {
    if p.destination !in s.nodes || !Core(p).OfMessage? then Panicked
    else
      var s1 := s.(users := Timed(env, s.users, u, s.timestamp, p), packetCount := s.packetCount + 1,
                   cursor := s.cursor + 1);
      Stepped(if Survives(env, s.cursor, s.users[u])
              then s1.(nodes := PushIngress(s.nodes, p.destination, s.timestamp + p.delay, p)) else s1)
  }

  ghost function BatchAt(s: State, sender: UserId, recipient: UserId, size: nat): Batch {
    Batch(NodeRange(s), s.timestamp, s.nextFragmentSet, sender, recipient, size)
  }

  function Fragments(env: Env, s: State, b: Batch): seq<Packet> {
    BuildFragments(env, b, 0, s.nextMessageId, s.cursor)
  }

  /** The counters after `build_messages`. */
  function AfterBatch(env: Env, s: State, b: Batch): State {
    s.(nextFragmentSet := s.nextFragmentSet + 1, nextMessageId := s.nextMessageId + b.size,
       cursor := CursorAfter(env, s.cursor, b.size))
  }

  ghost function OnSendMessage(env: Env, s: State, u: UserId, n: nat): Outcome
    requires u in s.users
  {
    var b := BatchAt(s, u, 1, n);
    Stepped(AfterBatch(env, s, b).(users := PushEgresses(s.users, u, s.timestamp, Fragments(env, s, b))))
  }

  ghost function OnAckTimeout(env: Env, s: State, u: UserId, id: nat): Outcome
    requires u in s.users
  {
    if id !in s.users[u].originals then Panicked
    else
      var m := s.users[u].originals[id];
      var s1 := s.(users := Forgotten(s.users, u, id));
      match env.strategy
      case PerFragment => Resend(env, s1, u, m)
      case WholeMessage =>
        if m.recipient !in s1.users then Panicked
        else Rebuild(env, s1.(users := Cleared(s1.users, m.recipient, m.fragmentSet)), u, m)
  }

  function Forgotten(users: Users, u: UserId, id: nat): Users
    requires u in users
  {
    users[u := users[u].(originals := users[u].originals - {id})]
  }

  function Cleared(users: Users, u: UserId, fragmentSet: nat): Users
    requires u in users
  {
    users[u := users[u].(fragments := users[u].fragments - {fragmentSet})]
  }

  ghost function Renewed(env: Env, s: State, u: UserId, m: Message): Message {
    m.(id := s.nextMessageId, ack := BuildPacket(env, NodeRange(s), s.cursor, OfAck(Ack(s.nextMessageId, u))))
  }

  ghost function RenewedPacket(env: Env, s: State, u: UserId, m: Message): Packet {
    BuildPacket(env, NodeRange(s), s.cursor + 2 * env.numHops, OfMessage(Renewed(env, s, u, m)))
  }

  /** One fragment goes out again, under a new identifier and with a new acknowledgement. */
  ghost function Resend(env: Env, s: State, u: UserId, m: Message): Outcome
    requires u in s.users
  {
    Stepped(s.(nextMessageId := s.nextMessageId + 1, cursor := s.cursor + 4 * env.numHops,
               users := PushEvent(s.users, u, s.timestamp, Egress(RenewedPacket(env, s, u, m)))))
  }

  function Redated(packets: seq<Packet>, t: Timestamp): (r: seq<Packet>)
    requires forall p :: p in packets ==> Core(p).OfMessage?
    ensures |r| == |packets|
  {
    seq(|packets|, i requires 0 <= i < |packets| => WithSendingTime(packets[i], t))
  }

  /** The whole message goes out again as a new fragment set, keeping its old sending time. */
  ghost function Rebuild(env: Env, s: State, u: UserId, m: Message): Outcome
    requires u in s.users
  {
    var b := BatchAt(s, m.sender, m.recipient, m.fragmentSize);
    FragmentsCarryMessages(env, b, 0, s.nextMessageId, s.cursor);
    var packets := Redated(Fragments(env, s, b), m.sendingTime);
    Stepped(AfterBatch(env, s, b).(users := PushEgresses(s.users, u, s.timestamp, packets)))
  }

  lemma {:induction false} BuildCore(env: Env, range: Pos, cursor: nat, hops: Pos, content: Content,
                                     delays: seq<Timestamp>)
    requires hops <= |delays|
    ensures var p := BuildPacketWithDelays(env, range, cursor, hops, content, delays);
            Core(p) == if content.OfPacket? then Core(content.packet) else content
    decreases hops
  {
    if hops > 1 {
      var inner := Packet(env.tape(cursor) % range, delays[|delays| - 1], content);
      BuildCore(env, range, cursor + 1, hops - 1, OfPacket(inner), delays[..|delays| - 1]);
    }
  }

  lemma {:induction false} FragmentsCarryMessages(env: Env, b: Batch, index: nat, id: nat, cursor: nat)
    requires index <= b.size
    ensures forall p :: p in BuildFragments(env, b, index, id, cursor) ==> Core(p).OfMessage?
    decreases b.size - index
  {
    if index < b.size {
      BuildCore(env, b.range, cursor + 2 * env.numHops + env.numHops, env.numHops,
                OfMessage(FragmentMessage(env, b, index, id, cursor)),
                DrawDelays(env, cursor + 2 * env.numHops, env.numHops));
      FragmentsCarryMessages(env, b, index + 1, id + 1, cursor + 4 * env.numHops);
    }
  }
}
