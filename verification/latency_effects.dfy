/** What a step of a user does to the queues, the counters and the memory, entry by entry. */
module LatencyEffects {
  import opened EventQueue
  import opened LatencySim
  import opened LatencyHistory
  import opened LatencyInvariant
  import opened LatencyNodeSteps
  import opened LatencyUserSteps
  import opened LatencyEgressSteps
  import opened LatencySendSteps
  import opened LatencyResendSteps
  import opened LatencyRebuildSteps
  import opened LatencyDraws
  import opened LatencyRuns
  import opened LatencyRecords

  // ---------- Entries ----------

  lemma InsertEntries<T>(q: Queue<T>, t: Timestamp, x: T)
    ensures multiset(Insert(q, t, x)) == multiset(q) + multiset{(t, x)}
  {
    hide PartitionPoint;
    var i := PartitionPoint(q, t);
    assert q == q[..i] + q[i..];
  }

  /** The entries that queue packets for their egress. */
  function Entries(t: Timestamp, packets: seq<Packet>): (r: Queue<UserEvent>)
    ensures |r| == |packets|
  {
    seq(|packets|, i requires 0 <= i < |packets| => (t, Egress(packets[i])))
  }

  lemma {:induction false} BatchEntries(q: Queue<UserEvent>, t: Timestamp, packets: seq<Packet>)
    ensures multiset(InsertEgresses(q, t, packets)) == multiset(q) + multiset(Entries(t, packets))
    decreases |packets|
  {
    hide EventQueue.Insert;
    if packets == [] {
      assert Entries(t, packets) == [];
    } else {
      InsertEntries(q, t, Egress(packets[0]));
      BatchEntries(Insert(q, t, Egress(packets[0])), t, packets[1..]);
      assert Entries(t, packets) == [(t, Egress(packets[0]))] + Entries(t, packets[1..]);
    }
  }

  /** The queue of `n` has one more entry, the other nodes are as before. */
  ghost predicate NodeGets(nodes: Nodes, nodes': Nodes, n: NodeId, it: (Timestamp, Packet)) {
    && n in nodes && nodes'.Keys == nodes.Keys
    && multiset(nodes'[n].ingress) == multiset(nodes[n].ingress) + multiset{it}
    && forall k :: k in nodes && k != n ==> nodes'[k] == nodes[k]
  }

  lemma PushGets(nodes: Nodes, n: NodeId, t: Timestamp, p: Packet)
    requires n in nodes
    ensures NodeGets(nodes, PushIngress(nodes, n, t, p), n, (t, p))
  {
    hide EventQueue.Insert;
    InsertEntries(nodes[n].ingress, t, p);
  }

  /** User `u` has given its first event for `more`; the other users are as before. */
  ghost predicate EventsBecome(users: Users, users': Users, u: UserId, more: multiset<(Timestamp, UserEvent)>) {
    && u in users && users[u].events != [] && users'.Keys == users.Keys
    && multiset(users'[u].events) == multiset(users[u].events[1..]) + more
    && users'[u].dropChance == users[u].dropChance
  }

  ghost predicate OthersSame(users: Users, users': Users, u: UserId) {
    users'.Keys == users.Keys && forall v :: v in users && v != u ==> users'[v] == users[v]
  }

  // ---------- Egress ----------

  lemma TimedEntries(env: Env, users: Users, u: UserId, now: Timestamp, p: Packet)
    requires u in users && users[u].events != [] && Core(p).OfMessage?
    ensures var users', m := Timed(env, PopEvent(users, u), u, now, p), MessageOf(p);
            var id := if env.strategy.PerFragment? then m.id else m.fragmentSet;
            var timed := env.strategy.PerFragment? || m.fragmentSet !in users[u].originals;
            var timer := (now + env.timeout(TotalDelay(p)), AckTimeout(id));
            && EventsBecome(users, users', u, if timed then multiset{timer} else multiset{})
            && OthersSame(users, users', u)
            && users'[u].originals == (if timed then users[u].originals[id := m] else users[u].originals)
            && users'[u].fragments == users[u].fragments && users'[u].tFirst == users[u].tFirst
  {
    hide EventQueue.Insert, TotalDelay, Core;
    var m := MessageOf(p);
    InsertEntries(users[u].events[1..], now + env.timeout(TotalDelay(p)), AckTimeout(TimerId(env, m)));
  }

  /** A packet leaves: it reaches its first node after its first delay unless it is dropped, which the next draw
      decides; its timer is due after the timeout for its total delay, under WholeMessage only if the set has no
      timer yet; and it is counted. */
  ghost predicate Leaving(env: Env, s: State, s': State, u: UserId, now: Timestamp, p: Packet)
    requires u in s.users && Core(p).OfMessage?
  {
    var m := MessageOf(p);
    var id := if env.strategy.PerFragment? then m.id else m.fragmentSet;
    var timed := env.strategy.PerFragment? || m.fragmentSet !in s.users[u].originals;
    var timer := (now + env.timeout(TotalDelay(p)), AckTimeout(id));
    && s'.timestamp == now && s'.packetCount == s.packetCount + 1 && s'.cursor == s.cursor + 1
    && (if s.users[u].dropChance <= env.tape(s.cursor)
        then NodeGets(s.nodes, s'.nodes, p.destination, (now + p.delay, p)) else s'.nodes == s.nodes)
    && EventsBecome(s.users, s'.users, u, if timed then multiset{timer} else multiset{})
    && OthersSame(s.users, s'.users, u)
    && s'.users[u].originals == (if timed then s.users[u].originals[id := m] else s.users[u].originals)
  }

  lemma EgressEffect(env: Env, w: World, u: UserId, p: Packet)
    requires Inv(env, w) && IsNext(w.s, AtUser(u)) && Event(w.s, u) == Egress(p)
    ensures CanStep(env, w, AtUser(u)) && Core(p).OfMessage?
    ensures Leaving(env, w.s, After(env, w, AtUser(u)).s, u, UserTime(w.s, u), p)
  {
    hide Inv, Timed, PushIngress, EventsBecome, OthersSame, NodeGets;
    EgressReady(env, w, u);
    EgressFires(env, w, u);
    TimedEntries(env, w.s.users, u, UserTime(w.s, u), p);
    PushGets(w.s.nodes, p.destination, UserTime(w.s, u) + p.delay, p);
    EgressCounters(env, Popped(w.s, u), u, p);
  }

  lemma EgressCounters(env: Env, s: State, u: UserId, p: Packet)
    requires u in s.users && OnEgress(env, s, u, p).Stepped?
    ensures var s' := OnEgress(env, s, u, p).state;
            s'.packetCount == s.packetCount + 1 && s'.cursor == s.cursor + 1
  {
  }

  // ---------- New sets ----------

  /** `p` carries fragment `i` of `n` of a new set, sent by `u` to `recipient`, from the draws for it. */
  ghost predicate FragmentOf(env: Env, s: State, u: UserId, recipient: UserId, t: Timestamp, n: nat, i: nat,
                             p: Packet) {
    && Core(p).OfMessage?
    && var m, id, c := MessageOf(p), s.nextMessageId + i, s.cursor + 4 * env.numHops * i;
       && m == Message(id, t, recipient, u, s.nextFragmentSet, n, i, m.ack)
       && Core(m.ack) == OfAck(Ack(if env.strategy.PerFragment? then id else s.nextFragmentSet, u))
       && DrawnFrom(env, NodeRange(s), c, m.ack) && DrawnFrom(env, NodeRange(s), c + 2 * env.numHops, p)
  }

  ghost predicate BatchOf(env: Env, s: State, u: UserId, recipient: UserId, t: Timestamp, packets: seq<Packet>) {
    forall i :: 0 <= i < |packets| ==> FragmentOf(env, s, u, recipient, t, |packets|, i, packets[i])
  }

  lemma BuiltBatch(env: Env, s: State, u: UserId, recipient: UserId, n: nat)
    ensures BatchOf(env, s, u, recipient, s.timestamp, Fragments(env, s, BatchAt(s, u, recipient, n)))
  {
    hide BuildFragments, FragmentOf;
    forall i | 0 <= i < n
      ensures FragmentOf(env, s, u, recipient, s.timestamp, n, i, Fragments(env, s, BatchAt(s, u, recipient, n))[i])
    {
      BuiltFragment(env, s, BatchAt(s, u, recipient, n), i);
    }
  }

  lemma BuiltFragment(env: Env, s: State, b: Batch, i: nat)
    requires b == BatchAt(s, b.sender, b.recipient, b.size) && i < b.size
    ensures FragmentOf(env, s, b.sender, b.recipient, s.timestamp, b.size, i, Fragments(env, s, b)[i])
  {
    hide BuildFragments, DrawnFrom, FragmentPacket, Core, TotalDelay;
    FragmentDraws(env, b, s.nextMessageId, s.cursor, i);
    FragmentIs(env, b, 0, s.nextMessageId, s.cursor, i);
    FragmentFields(env, b, i, s.nextMessageId + i, s.cursor + 4 * env.numHops * i);
  }

  lemma FragmentFields(env: Env, b: Batch, index: nat, id: nat, cursor: nat)
    ensures var p := FragmentPacket(env, b, index, id, cursor);
            var key := if env.strategy.PerFragment? then id else b.fragmentSet;
            && Core(p).OfMessage?
            && var m := MessageOf(p);
               && m == Message(id, b.now, b.recipient, b.sender, b.fragmentSet, b.size, index, m.ack)
               && Core(m.ack) == OfAck(Ack(key, b.sender))
  {
    hide DrawnFrom, BuildPacketWithDelays;
    var m := FragmentMessage(env, b, index, id, cursor);
    var ack := Ack(if env.strategy.PerFragment? then id else b.fragmentSet, b.sender);
    PacketAndAck(env, b.range, cursor, m, ack);
    BuildCore(env, b.range, cursor + env.numHops, env.numHops, OfAck(ack), DrawDelays(env, cursor, env.numHops));
  }

  lemma RedatedBatch(env: Env, s: State, u: UserId, recipient: UserId, packets: seq<Packet>, t: Timestamp)
    requires BatchOf(env, s, u, recipient, s.timestamp, packets) && forall p :: p in packets ==> Core(p).OfMessage?
    ensures BatchOf(env, s, u, recipient, t, Redated(packets, t))
  {
    hide DrawnFrom;
    forall i | 0 <= i < |packets|
      ensures FragmentOf(env, s, u, recipient, t, |packets|, i, Redated(packets, t)[i])
    {
      var p := packets[i];
      assert FragmentOf(env, s, u, recipient, s.timestamp, |packets|, i, p);
      RedatedFields(p, t);
      DrawnAlike(env, NodeRange(s), s.cursor + 4 * env.numHops * i + 2 * env.numHops, p, t);
    }
  }

  lemma {:induction false} RedatedFields(p: Packet, t: Timestamp)
    requires Core(p).OfMessage?
    ensures Core(WithSendingTime(p, t)) == OfMessage(MessageOf(p).(sendingTime := t))
  {
    if p.content.OfPacket? {
      RedatedFields(p.content.packet, t);
    }
  }

  lemma DrawnAlike(env: Env, range: Pos, cursor: nat, p: Packet, t: Timestamp)
    requires Core(p).OfMessage?
    ensures DrawnFrom(env, range, cursor, p) ==> DrawnFrom(env, range, cursor, WithSendingTime(p, t))
  {
    RedatedHops(p, t);
  }

  /** What building a set does to the counters. */
  ghost predicate Counted(env: Env, s: State, s': State, sets: nat, ids: nat) {
    && s'.nextFragmentSet == s.nextFragmentSet + sets && s'.nextMessageId == s.nextMessageId + ids
    && s'.cursor == s.cursor + 4 * env.numHops * ids && s'.packetCount == s.packetCount
    && s'.deliveryTimes == s.deliveryTimes && s'.firstToLast == s.firstToLast && s'.nodes == s.nodes
  }

  /** A message to be sent becomes `n` packets to user 1 in the queue of its sender, all at the same time. */
  lemma SendEffect(env: Env, w: World, u: UserId, n: nat) returns (packets: seq<Packet>)
    requires Inv(env, w) && IsNext(w.s, AtUser(u)) && Event(w.s, u) == SendMessage(n)
    ensures CanStep(env, w, AtUser(u)) && |packets| == n
    ensures var s, s', now := w.s, After(env, w, AtUser(u)).s, UserTime(w.s, u);
            && BatchOf(env, s, u, 1, now, packets) && s'.timestamp == now && Counted(env, s, s', 1, n)
            && EventsBecome(s.users, s'.users, u, multiset(Entries(now, packets)))
            && OthersSame(s.users, s'.users, u) && s'.users[u].originals == s.users[u].originals
            && s'.users[u].fragments == s.users[u].fragments && s'.users[u].tFirst == s.users[u].tFirst
  {
    hide Inv, BuildFragments, InsertEgresses, FragmentOf;
    SendFires(env, w, u);
    var s1 := Popped(w.s, u);
    packets := Fragments(env, s1, BatchAt(s1, u, 1, n));
    BuiltBatch(env, s1, u, 1, n);
    SameBatch(env, s1, w.s, u, 1, s1.timestamp, packets);
    BatchEntries(s1.users[u].events, s1.timestamp, packets);
    CursorIs(env, s1.cursor, n);
  }

  lemma SameBatch(env: Env, s: State, s': State, u: UserId, recipient: UserId, t: Timestamp, packets: seq<Packet>)
    requires BatchOf(env, s, u, recipient, t, packets) && s'.nodes.Keys == s.nodes.Keys && s'.cursor == s.cursor
    requires s'.nextMessageId == s.nextMessageId && s'.nextFragmentSet == s.nextFragmentSet
    ensures BatchOf(env, s', u, recipient, t, packets)
  {
    hide DrawnFrom;
    forall i | 0 <= i < |packets|
      ensures FragmentOf(env, s', u, recipient, t, |packets|, i, packets[i])
    {
      assert FragmentOf(env, s, u, recipient, t, |packets|, i, packets[i]);
    }
  }

  /** PerFragment: a timer fires, and its fragment goes out again under a new identifier with everything else as
      it was, but with a new acknowledgement and new draws. */
  lemma ResendEffect(env: Env, w: World, u: UserId, id: nat) returns (p: Packet)
    requires Inv(env, w) && IsNext(w.s, AtUser(u)) && Event(w.s, u) == AckTimeout(id) && env.strategy.PerFragment?
    ensures CanStep(env, w, AtUser(u)) && id in w.s.users[u].originals && Core(p).OfMessage?
    ensures var s, s', now := w.s, After(env, w, AtUser(u)).s, UserTime(w.s, u);
            var m, r := s.users[u].originals[id], MessageOf(p);
            && r == m.(id := s.nextMessageId, ack := r.ack) && Core(r.ack) == OfAck(Ack(s.nextMessageId, u))
            && DrawnFrom(env, NodeRange(s), s.cursor, r.ack)
            && DrawnFrom(env, NodeRange(s), s.cursor + 2 * env.numHops, p)
            && s'.timestamp == now && Counted(env, s, s', 0, 1)
            && EventsBecome(s.users, s'.users, u, multiset{(now, Egress(p))}) && OthersSame(s.users, s'.users, u)
            && s'.users[u].originals == s.users[u].originals - {id}
            && s'.users[u].fragments == s.users[u].fragments && s'.users[u].tFirst == s.users[u].tFirst
  {
    hide Inv, BuildPacket, EventQueue.Insert, DrawnFrom;
    ResendFires(env, w, u);
    var s1, m := Forgetful(w.s, u, id), w.s.users[u].originals[id];
    p := RenewedPacket(env, s1, u, m);
    PacketAndAck(env, NodeRange(s1), s1.cursor, Renewed(env, s1, u, m), Ack(s1.nextMessageId, u));
    AckCore(env, NodeRange(s1), s1.cursor, Ack(s1.nextMessageId, u));
    InsertEntries(s1.users[u].events, s1.timestamp, Egress(p));
  }

  lemma AckCore(env: Env, range: Pos, cursor: nat, ack: Ack)
    ensures Core(BuildPacket(env, range, cursor, OfAck(ack))) == OfAck(ack)
  {
    BuildCore(env, range, cursor + env.numHops, env.numHops, OfAck(ack), DrawDelays(env, cursor, env.numHops));
  }

  /** WholeMessage: a timer fires, the recipient forgets which fragments of the set have come, and the whole
      message goes out again as a new set, with the old sending time. */
  ghost predicate Rebuilding(env: Env, s: State, s': State, u: UserId, now: Timestamp, m: Message,
                             packets: seq<Packet>) {
    && m.sender == u && m.recipient in s.users && |packets| == m.fragmentSize
    && BatchOf(env, s, u, m.recipient, m.sendingTime, packets)
    && s'.timestamp == now && Counted(env, s, s', 1, m.fragmentSize)
    && EventsBecome(s.users, s'.users, u, multiset(Entries(now, packets)))
    && forall v :: v in s.users ==> Rebuilt(s.users[v], s'.users[v], v == u, v == m.recipient, m.fragmentSet)
  }

  /** What happens to the memory of the sender, the recipient and the others. */
  predicate Rebuilt(user: UserState, user': UserState, sender: bool, recipient: bool, k: nat) {
    && user'.fragments == (if recipient then user.fragments - {k} else user.fragments)
    && user'.originals == (if sender then user.originals - {k} else user.originals)
    && user'.tFirst == user.tFirst && user'.dropChance == user.dropChance
    && (!sender ==> user'.events == user.events)
  }

  lemma RebuildEffect(env: Env, w: World, u: UserId, id: nat) returns (packets: seq<Packet>)
    requires Inv(env, w) && IsNext(w.s, AtUser(u)) && Event(w.s, u) == AckTimeout(id) && env.strategy.WholeMessage?
    ensures CanStep(env, w, AtUser(u)) && id in w.s.users[u].originals && w.s.users[u].originals[id].fragmentSet == id
    ensures Rebuilding(env, w.s, After(env, w, AtUser(u)).s, u, UserTime(w.s, u), w.s.users[u].originals[id], packets)
  {
    hide Inv, BuildFragments, InsertEgresses, BatchOf, EventsBecome, Rebuilt, ClearedUsers, PushEgresses;
    RebuildTurn(env, w, u);
    var m := w.s.users[u].originals[id];
    var s1 := ClearedState(w.s, u, id, m);
    packets := RebuiltPackets(env, s1, m);
    RebuiltBatch(env, w.s, s1, u, m, packets);
    CursorIs(env, s1.cursor, m.fragmentSize);
    RebuiltUsers(w.s.users, u, id, m, UserTime(w.s, u), packets);
    RebuildCounters(env, w, u, id, m);
  }

  lemma RebuildCounters(env: Env, w: World, u: UserId, id: nat, m: Message)
    requires CanStep(env, w, AtUser(u)) && Event(w.s, u) == AckTimeout(id) && env.strategy.WholeMessage?
    requires id in w.s.users[u].originals && m == w.s.users[u].originals[id]
    ensures Counted(env, w.s, After(env, w, AtUser(u)).s, 1, m.fragmentSize)
  {
    hide BuildFragments, InsertEgresses, Redated;
    CursorIs(env, w.s.cursor, m.fragmentSize);
  }

  lemma RebuiltUsers(users: Users, u: UserId, id: nat, m: Message, now: Timestamp, packets: seq<Packet>)
    requires u in users && users[u].events != [] && m.recipient in users && m.fragmentSet == id
    ensures var users' := PushEgresses(ClearedUsers(users, u, id, m), u, now, packets);
            && EventsBecome(users, users', u, multiset(Entries(now, packets)))
            && forall v :: v in users ==> Rebuilt(users[v], users'[v], v == u, v == m.recipient, id)
  {
    hide InsertEgresses;
    BatchEntries(users[u].events[1..], now, packets);
  }

  lemma RebuiltBatch(env: Env, s: State, s1: State, u: UserId, m: Message, packets: seq<Packet>)
    requires packets == RebuiltPackets(env, s1, m) && m.sender == u && s1.nodes.Keys == s.nodes.Keys
    requires s1.cursor == s.cursor && s1.nextMessageId == s.nextMessageId && s1.nextFragmentSet == s.nextFragmentSet
    ensures |packets| == m.fragmentSize && BatchOf(env, s, u, m.recipient, m.sendingTime, packets)
  {
    hide BuildFragments, BatchOf;
    var b := BatchAt(s1, u, m.recipient, m.fragmentSize);
    BuiltBatch(env, s1, u, m.recipient, m.fragmentSize);
    FragmentsCarryMessages(env, b, 0, s1.nextMessageId, s1.cursor);
    RedatedBatch(env, s1, u, m.recipient, Fragments(env, s1, b), m.sendingTime);
    SameBatch(env, s1, s, u, m.recipient, m.sendingTime, packets);
  }

  // ---------- Handovers and nodes ----------

  /** User `u` takes a message: its acknowledgement enters the network, under PerFragment always and under
      WholeMessage if a delivery is recorded, and is counted. */
  ghost predicate Taking(env: Env, s: State, s': State, u: UserId, now: Timestamp, m: Message) {
    var acked := env.strategy.PerFragment? || |s'.deliveryTimes| != |s.deliveryTimes|;
    && s'.timestamp == now && s'.cursor == s.cursor && s'.packetCount == s.packetCount + One(acked)
    && s'.nextMessageId == s.nextMessageId && s'.nextFragmentSet == s.nextFragmentSet
    && (if acked then NodeGets(s.nodes, s'.nodes, m.ack.destination, (now + m.ack.delay, m.ack))
        else s'.nodes == s.nodes)
    && EventsBecome(s.users, s'.users, u, multiset{}) && OthersSame(s.users, s'.users, u)
    && s'.users[u].originals == s.users[u].originals
  }

  lemma HandoverEffect(env: Env, w: World, u: UserId, m: Message)
    requires Inv(env, w) && IsNext(w.s, AtUser(u)) && Event(w.s, u) == Handover(m)
    ensures CanStep(env, w, AtUser(u)) && Taking(env, w.s, After(env, w, AtUser(u)).s, u, UserTime(w.s, u), m)
  {
    hide Inv, PushIngress, NodeGets, Complete;
    HandoverReady(env, w, u);
    HandoverFires(env, w, u);
    HandoverCounters(env, Popped(w.s, u), u, m);
    PushGets(w.s.nodes, m.ack.destination, UserTime(w.s, u) + m.ack.delay, m.ack);
  }

  lemma HandoverCounters(env: Env, s: State, u: UserId, m: Message)
    requires u in s.users && OnHandover(env, s, u, m).Stepped?
    ensures var s' := OnHandover(env, s, u, m).state;
            && s'.cursor == s.cursor
            && s'.packetCount
               == s.packetCount + One(env.strategy.PerFragment? || |s'.deliveryTimes| != |s.deliveryTimes|)
  {
    hide PushIngress, Marked, Complete;
  }

  /** A node's first packet is unwrapped. A message goes to the queue of its recipient at once, an acknowledgement
      takes its timers out of the queue of its recipient, and a packet goes to its next node after its delay there.
      Nothing is drawn or counted. */
  lemma NodeEffect(env: Env, w: World, n: NodeId)
    requires Inv(env, w) && IsNext(w.s, AtNode(n))
    ensures CanStep(env, w, AtNode(n))
    ensures var s, s', now := w.s, After(env, w, AtNode(n)).s, NodeTime(w.s, n);
            && s' == s.(timestamp := now, nodes := s'.nodes, users := s'.users)
            && match Head(s, n).content
               case OfMessage(m) =>
                 && s'.nodes == PopIngress(s.nodes, n) && m.recipient in s.users
                    && OthersSame(s.users, s'.users, m.recipient)
                 && s'.users[m.recipient] == s.users[m.recipient].(events := s'.users[m.recipient].events)
                 && multiset(s'.users[m.recipient].events)
                    == multiset(s.users[m.recipient].events) + multiset{(now, Handover(m))}
               case OfAck(a) =>
                 && s'.nodes == PopIngress(s.nodes, n) && a.recipient in s.users
                    && OthersSame(s.users, s'.users, a.recipient)
                 && s'.users[a.recipient] == s.users[a.recipient].(events := s'.users[a.recipient].events)
                 && forall it {:trigger multiset(s'.users[a.recipient].events)[it]} ::
                      multiset(s'.users[a.recipient].events)[it]
                      == if it.1 == AckTimeout(a.messageId) then 0 else multiset(s.users[a.recipient].events)[it]
               case OfPacket(q) =>
                 && s'.users == s.users
                 && NodeGets(PopIngress(s.nodes, n), s'.nodes, q.destination, (now + q.delay, q))
  {
    hide Inv, PushIngress, PopIngress, NodeGets, EventQueue.Insert, CancelTimers;
    StepKeeps(env, w, AtNode(n));
    match Head(w.s, n).content {
      case OfMessage(m) => InsertEntries(w.s.users[m.recipient].events, NodeTime(w.s, n), Handover(m));
      case OfAck(a) =>
        forall it {
          CancelledEntries(w.s.users[a.recipient].events, a.messageId, it);
        }
      case OfPacket(q) =>
        StillThere(w.s.nodes, n, q.destination);
        PushGets(PopIngress(w.s.nodes, n), q.destination, NodeTime(w.s, n) + q.delay, q);
    }
  }

  lemma StillThere(nodes: Nodes, n: NodeId, d: NodeId)
    requires n in nodes && nodes[n].ingress != []
    ensures d in PopIngress(nodes, n) <==> d in nodes
  {
  }

  lemma {:induction false} CancelledEntries(q: Queue<UserEvent>, id: nat, it: (Timestamp, UserEvent))
    ensures multiset(CancelTimers(q, id))[it] == if it.1 == AckTimeout(id) then 0 else multiset(q)[it]
  {
    if q != [] {
      CancelledEntries(q[1..], id, it);
      assert q == [q[0]] + q[1..];
    }
  }

  // ---------- The packet count ----------

  /** Does this step send a packet of a message, dropped or not? */
  ghost predicate SendsPacket(w: World, who: Who) {
    who.AtUser? && BusyUser(w.s, who.user) && Event(w.s, who.user).Egress?
  }

  /** Does this step send an acknowledgement? */
  ghost predicate SendsAck(env: Env, w: World, who: Who) {
    && who.AtUser? && BusyUser(w.s, who.user) && Event(w.s, who.user).Handover?
    && (env.strategy.PerFragment? || Records(env, w, who.user, Event(w.s, who.user).message))
  }

  ghost function Acknowledging(env: Env): (World, Who) -> bool {
    (w, who) => SendsAck(env, w, who)
  }

  lemma StepPackets(env: Env, w: World, who: Who)
    requires Inv(env, w) && CanStep(env, w, who)
    ensures After(env, w, who).s.packetCount
         == w.s.packetCount + One(SendsPacket(w, who)) + One(SendsAck(env, w, who))
  {
    hide Inv, Fire, After, NodeGets, EventsBecome, OthersSame, BatchOf;
    match who {
      case AtNode(n) => NodeEffect(env, w, n);
      case AtUser(u) =>
        match Event(w.s, u) {
          case Handover(m) => HandoverEffect(env, w, u, m);
          case Egress(p) => EgressEffect(env, w, u, p);
          case SendMessage(n) => var _ := SendEffect(env, w, u, n);
          case AckTimeout(id) =>
            if env.strategy.PerFragment? {
              var _ := ResendEffect(env, w, u, id);
            } else {
              var _ := RebuildEffect(env, w, u, id);
            }
        }
    }
  }

  /** In every run, the packets counted are those of messages, dropped or not, and the acknowledgements. */
  lemma {:induction false} PacketsCounted(env: Env, w: World, schedule: seq<Who>, w': World)
    requires Inv(env, w) && Leads(env, w, schedule, w')
    ensures w'.s.packetCount
         == w.s.packetCount + Steps(env, w, schedule, SendsPacket) + Steps(env, w, schedule, Acknowledging(env))
    decreases |schedule|
  {
    hide Inv, SendsPacket, SendsAck, IsNext, Fire, After;
    if schedule == [] {
      LeadsNowhere(env, w, w');
    } else {
      LeadsOn(env, w, schedule, w');
      StepKeeps(env, w, schedule[0]);
      StepPackets(env, w, schedule[0]);
      PacketsCounted(env, After(env, w, schedule[0]), schedule[1..], w');
    }
  }
}
