/** A run in which a timer beats its acknowledgement by a tie: deliveries are not recorded exactly once, under
    either strategy. */
module LatencyTies {
  import opened EventQueue
  import opened LatencySim
  import opened LatencyHistory
  import opened LatencyRuns
  import opened LatencyUserSteps
  import opened LatencyTiming
  import opened LatencyTotals

  /** One hop, every draw is 1, so every packet has a delay of 1 and is sent to node 0; every timeout is 2. */
  function TieEnv(a: AckStrategy): Env {
    Env(a, 1, _ => 2, _ => 1)
  }

  function AckOf(id: nat): Packet {
    Packet(0, 1, OfAck(Ack(id, 0)))
  }

  /** The fragment set to which message `id` belongs: WholeMessage builds a new one. */
  function SetOf(a: AckStrategy, id: nat): nat {
    if a.PerFragment? then 0 else id
  }

  /** The only fragment of the only message, under identifier `id`. */
  function Copy(a: AckStrategy, id: nat): Message {
    Message(id, 0, 1, 0, SetOf(a, id), 1, 0, AckOf(id))
  }

  function CopyPacket(a: AckStrategy, id: nat): Packet {
    Packet(0, 1, OfMessage(Copy(a, id)))
  }

  /** Node 0, sender 0 and recipient 1. */
  function Tie(now: Timestamp, ingress: Queue<Packet>, sender: Queue<UserEvent>, kept: map<nat, Message>,
               recipient: Queue<UserEvent>, held: map<nat, set<nat>>, first: map<nat, Timestamp>,
               times: seq<Timestamp>, figures: seq<Timestamp>,
               nextId: nat, sets: nat, packets: nat, cursor: nat): State {
    State(now, map[0 := NodeState(ingress)],
          map[0 := UserState(sender, map[], map[], kept, 0), 1 := UserState(recipient, held, first, map[], 0)],
          times, figures, nextId, sets, packets, cursor)
  }

  /** What the recipient still holds after the timeout: WholeMessage clears the set. */
  function StillHeld(a: AckStrategy): map<nat, set<nat>> {
    if a.PerFragment? then map[0 := {0}] else map[]
  }

  /** How many sets have been built after the timeout. */
  function SetsBuilt(a: AckStrategy): nat {
    SetOf(a, 1) + 1
  }

  // ---------- The states of the run ----------

  function Stop0(): State {
    Tie(0, [], [(0, SendMessage(1))], map[], [], map[], map[], [], [], 0, 0, 0, 0)
  }

  function Stop1(a: AckStrategy): State {
    Tie(0, [], [(0, Egress(CopyPacket(a, 0)))], map[], [], map[], map[], [], [], 1, 1, 0, 4)
  }

  function Stop2(a: AckStrategy): State {
    Tie(0, [(1, CopyPacket(a, 0))], [(2, AckTimeout(0))], map[0 := Copy(a, 0)], [], map[], map[], [], [], 1, 1, 1, 5)
  }

  function Stop3(a: AckStrategy): State {
    Tie(1, [], [(2, AckTimeout(0))], map[0 := Copy(a, 0)], [(1, Handover(Copy(a, 0)))], map[], map[],
        [], [], 1, 1, 1, 5)
  }

  function Stop4(a: AckStrategy): State {
    Tie(1, [(2, AckOf(0))], [(2, AckTimeout(0))], map[0 := Copy(a, 0)], [], map[0 := {0}], map[0 := 1],
        [1], [0], 1, 1, 2, 5)
  }

  function Stop5(a: AckStrategy): State {
    Tie(2, [(2, AckOf(0))], [(2, Egress(CopyPacket(a, 1)))], map[], [], StillHeld(a), map[0 := 1],
        [1], [0], 2, SetsBuilt(a), 2, 9)
  }

  function Stop6(a: AckStrategy): State {
    Tie(2, [(2, AckOf(0)), (3, CopyPacket(a, 1))], [(4, AckTimeout(1))], map[1 := Copy(a, 1)], [], StillHeld(a),
        map[0 := 1], [1], [0], 2, SetsBuilt(a), 3, 10)
  }

  function Stop7(a: AckStrategy): State {
    Tie(2, [(3, CopyPacket(a, 1))], [(4, AckTimeout(1))], map[1 := Copy(a, 1)], [], StillHeld(a), map[0 := 1],
        [1], [0], 2, SetsBuilt(a), 3, 10)
  }

  function Stop8(a: AckStrategy): State {
    Tie(3, [], [(4, AckTimeout(1))], map[1 := Copy(a, 1)], [(3, Handover(Copy(a, 1)))], StillHeld(a), map[0 := 1],
        [1], [0], 2, SetsBuilt(a), 3, 10)
  }

  /** The times of the first fragments at the end, and the figures from first to last fragment. */
  function Firsts(a: AckStrategy): map<nat, Timestamp> {
    if a.PerFragment? then map[0 := 1] else map[0 := 1, 1 := 3]
  }

  function Figures(a: AckStrategy): seq<Timestamp> {
    if a.PerFragment? then [0, 2] else [0, 0]
  }

  function Stop9(a: AckStrategy): State {
    Tie(3, [(4, AckOf(1))], [(4, AckTimeout(1))], map[1 := Copy(a, 1)], [], map[SetOf(a, 1) := {0}], Firsts(a),
        [1, 3], Figures(a), 2, SetsBuilt(a), 4, 10)
  }

  ghost predicate Advances(a: AckStrategy, s: State, who: Who, s': State) {
    IsNext(s, who) && Fire(TieEnv(a), s, who) == Stepped(s')
  }

  lemma UserComesNext(s: State, u: UserId, v: UserId)
    requires s.nodes.Keys == {0} && s.users.Keys == {u, v} && BusyUser(s, u)
    requires BusyUser(s, v) ==> UserTime(s, u) <= UserTime(s, v)
    requires BusyNode(s, 0) ==> UserTime(s, u) <= NodeTime(s, 0)
    ensures IsNext(s, AtUser(u))
  {
  }

  lemma NodeComesNext(s: State)
    requires s.nodes.Keys == {0} && s.users.Keys == {0, 1} && BusyNode(s, 0)
    requires forall u :: BusyUser(s, u) ==> NodeTime(s, 0) < UserTime(s, u)
    ensures IsNext(s, AtNode(0))
  {
  }

  lemma OneNode(s: State)
    requires s.nodes.Keys == {0}
    ensures NodeRange(s) == 1
  {
    RangeOfContiguous({0});
  }

  lemma PacketBuilt(a: AckStrategy, range: Pos, cursor: nat, content: Content)
    requires range == 1
    ensures BuildPacket(TieEnv(a), range, cursor, content) == Packet(0, 1, content)
  {
  }

  lemma InsertIntoEmpty<T>(t: Timestamp, x: T)
    ensures Insert([], t, x) == [(t, x)]
  {
  }

  lemma InsertBehind<T>(y: (Timestamp, T), t: Timestamp, x: T)
    requires y.0 <= t
    ensures Insert([y], t, x) == [y, (t, x)]
  {
    assert [y][1..] == [] && PartitionPoint([y], t) == 1;
  }

  /** What BuildFragments makes of a message of one fragment. */
  lemma OneFragment(a: AckStrategy, b: Batch, id: nat, cursor: nat)
    requires b == Batch(1, b.now, SetOf(a, id), 0, 1, 1)
    ensures BuildFragments(TieEnv(a), b, 0, id, cursor) == [Packet(0, 1, OfMessage(Copy(a, id).(sendingTime := b.now)))]
  {
    PacketBuilt(a, 1, cursor, OfAck(Ack(id, 0)));
    PacketBuilt(a, 1, cursor + 2, OfMessage(Copy(a, id).(sendingTime := b.now)));
    assert BuildFragments(TieEnv(a), b, 1, id + 1, cursor + 4) == [];
  }

  lemma OneEgress(users: Users, t: Timestamp, p: Packet)
    requires 0 in users && users[0].events == []
    ensures PushEgresses(users, 0, t, [p]) == users[0 := users[0].(events := [(t, Egress(p))])]
  {
    InsertIntoEmpty<UserEvent>(t, Egress(p));
    assert [p][1..] == [];
    assert InsertEgresses([], t, [p]) == [(t, Egress(p))];
  }

  lemma Advance0(a: AckStrategy)
    ensures Advances(a, Stop0(), AtUser(0), Stop1(a))
  {
    hide IsNext, PartitionPoint, EventQueue.Insert, BuildFragments;
    UserComesNext(Stop0(), 0, 1);
    var s := Popped(Stop0(), 0);
    OneNode(s);
    var b := BatchAt(s, 0, 1, 1);
    OneFragment(a, b, 0, 0);
    assert Fragments(TieEnv(a), s, b) == [CopyPacket(a, 0)];
    assert s.users[0].events == [];
    OneEgress(s.users, 0, CopyPacket(a, 0));
    assert CursorAfter(TieEnv(a), 0, 1) == 4;
    assert PushEgresses(s.users, 0, 0, [CopyPacket(a, 0)]) == Stop1(a).users;
  }

  lemma Advance1(a: AckStrategy)
    ensures Advances(a, Stop1(a), AtUser(0), Stop2(a))
  {
    hide IsNext, PartitionPoint, EventQueue.Insert;
    UserComesNext(Stop1(a), 0, 1);
    InsertIntoEmpty<UserEvent>(2, AckTimeout(0));
    InsertIntoEmpty<Packet>(1, CopyPacket(a, 0));
    var s := Popped(Stop1(a), 0);
    assert TotalDelay(CopyPacket(a, 0)) == 1;
    assert s.users[0].events == [] && s.nodes[0].ingress == [];
    assert Timed(TieEnv(a), s.users, 0, 0, CopyPacket(a, 0)) == Stop2(a).users;
    assert PushIngress(s.nodes, 0, 1, CopyPacket(a, 0)) == Stop2(a).nodes;
  }

  lemma Advance2(a: AckStrategy)
    ensures Advances(a, Stop2(a), AtNode(0), Stop3(a))
  {
    hide IsNext, PartitionPoint, EventQueue.Insert;
    NodeComesNext(Stop2(a));
    InsertIntoEmpty<UserEvent>(1, Handover(Copy(a, 0)));
    assert Stop2(a).users[1].events == [] && Stop2(a).nodes[0].ingress[1..] == [];
    assert PopIngress(Stop2(a).nodes, 0) == Stop3(a).nodes;
    assert PushEvent(Stop2(a).users, 1, 1, Handover(Copy(a, 0))) == Stop3(a).users;
  }

  /** The recipient takes a fragment that completes its set. */
  lemma TakesCopy(a: AckStrategy, s: State, m: Message, user: UserState)
    requires 1 in s.users && 0 in s.nodes && m.ack.destination == 0 && m.sendingTime == 0
    requires Marked(s.users[1], m, s.timestamp) == user && Complete(user, m)
    requires m.fragmentSet in user.tFirst && user.tFirst[m.fragmentSet] <= s.timestamp
    ensures OnHandover(TieEnv(a), s, 1, m)
         == Stepped(s.(nodes := PushIngress(s.nodes, 0, s.timestamp + m.ack.delay, m.ack),
                       users := s.users[1 := user],
                       deliveryTimes := s.deliveryTimes + [s.timestamp],
                       firstToLast := s.firstToLast + [s.timestamp - user.tFirst[m.fragmentSet]],
                       packetCount := s.packetCount + 1))
  {
    hide Marked, PushIngress, Complete;
  }

  /** So a step that hands over this fragment ends in `s'`. */
  lemma TieHandover(a: AckStrategy, s: State, m: Message, user: UserState, s': State)
    requires IsNext(s, AtUser(1)) && Event(s, 1) == Handover(m) && s.timestamp <= UserTime(s, 1) && 0 in s.nodes
    requires m.ack.destination == 0 && m.sendingTime == 0
    requires Marked(s.users[1].(events := s.users[1].events[1..]), m, UserTime(s, 1)) == user && Complete(user, m)
    requires m.fragmentSet in user.tFirst && user.tFirst[m.fragmentSet] <= UserTime(s, 1)
    requires s' == s.(timestamp := UserTime(s, 1),
                      nodes := PushIngress(s.nodes, 0, UserTime(s, 1) + m.ack.delay, m.ack),
                      users := s.users[1 := user],
                      deliveryTimes := s.deliveryTimes + [UserTime(s, 1)],
                      firstToLast := s.firstToLast + [UserTime(s, 1) - user.tFirst[m.fragmentSet]],
                      packetCount := s.packetCount + 1)
    ensures Advances(a, s, AtUser(1), s')
  {
    hide Marked, Complete, OnHandover, PushIngress;
    var s1 := Popped(s, 1);
    TakesCopy(a, s1, m, user);
    assert s1.users[1 := user] == s.users[1 := user];
  }

  lemma Advance3(a: AckStrategy)
    ensures Advances(a, Stop3(a), AtUser(1), Stop4(a))
  {
    hide IsNext, PartitionPoint, EventQueue.Insert, Marked, Complete, OnHandover, Advances;
    UserComesNext(Stop3(a), 1, 0);
    InsertIntoEmpty<Packet>(2, AckOf(0));
    FirstMarked(a);
    var s := Stop3(a);
    assert s.users[1].events[1..] == [];
    assert s.users[1 := Stop4(a).users[1]] == Stop4(a).users;
    assert PushIngress(s.nodes, 0, 2, AckOf(0)) == Stop4(a).nodes;
    TieHandover(a, s, Copy(a, 0), Stop4(a).users[1], Stop4(a));
  }

  lemma FirstMarked(a: AckStrategy)
    ensures Marked(Stop3(a).users[1].(events := []), Copy(a, 0), 1) == Stop4(a).users[1]
    ensures Complete(Stop4(a).users[1], Copy(a, 0))
  {
    var none: set<nat> := {};
    assert none + {0} == {0};
  }

  lemma Advance4(a: AckStrategy)
    ensures Advances(a, Stop4(a), AtUser(0), Stop5(a))
  {
    match a {
      case PerFragment => ResendsCopy();
      case WholeMessage => RebuildsCopy();
    }
  }

  lemma ResendsCopy()
    ensures Advances(PerFragment, Stop4(PerFragment), AtUser(0), Stop5(PerFragment))
  {
    hide IsNext, PartitionPoint, EventQueue.Insert;
    var a := PerFragment;
    UserComesNext(Stop4(a), 0, 1);
    var s := Popped(Stop4(a), 0);
    OneNode(s);
    PacketBuilt(a, 1, 5, OfAck(Ack(1, 0)));
    PacketBuilt(a, 1, 7, OfMessage(Copy(a, 1)));
    InsertIntoEmpty<UserEvent>(2, Egress(CopyPacket(a, 1)));
    var s1 := s.(users := Forgotten(s.users, 0, 0));
    assert NodeRange(s1) == 1;
    assert s1.users[0].events == [];
    assert RenewedPacket(TieEnv(a), s1, 0, Copy(a, 0)) == CopyPacket(a, 1);
    assert PushEvent(s1.users, 0, 2, Egress(CopyPacket(a, 1))) == Stop5(a).users;
  }

  lemma RebuildsCopy()
    ensures Advances(WholeMessage, Stop4(WholeMessage), AtUser(0), Stop5(WholeMessage))
  {
    hide IsNext, PartitionPoint, EventQueue.Insert, BuildFragments;
    var a := WholeMessage;
    UserComesNext(Stop4(a), 0, 1);
    var s := Popped(Stop4(a), 0);
    var s1 := s.(users := Forgotten(s.users, 0, 0));
    var s2 := s1.(users := Cleared(s1.users, 1, 0));
    OneNode(s2);
    var b := BatchAt(s2, 0, 1, 1);
    OneFragment(a, b, 1, 5);
    var built := Packet(0, 1, OfMessage(Copy(a, 1).(sendingTime := 2)));
    assert Fragments(TieEnv(a), s2, b) == [built];
    assert WithSendingTime(built, 0) == CopyPacket(a, 1);
    assert Redated([built], 0) == [CopyPacket(a, 1)];
    OneEgress(s2.users, 2, CopyPacket(a, 1));
    assert CursorAfter(TieEnv(a), 5, 1) == 9;
    assert PushEgresses(s2.users, 0, 2, [CopyPacket(a, 1)]) == Stop5(a).users;
    assert Rebuild(TieEnv(a), s2, 0, Copy(a, 0)) == Stepped(Stop5(a));
  }

  lemma Advance5(a: AckStrategy)
    ensures Advances(a, Stop5(a), AtUser(0), Stop6(a))
  {
    hide IsNext, PartitionPoint, EventQueue.Insert;
    UserComesNext(Stop5(a), 0, 1);
    InsertIntoEmpty<UserEvent>(4, AckTimeout(1));
    InsertBehind((2, AckOf(0)), 3, CopyPacket(a, 1));
    var s := Popped(Stop5(a), 0);
    assert TotalDelay(CopyPacket(a, 1)) == 1;
    assert s.users[0].events == [] && s.nodes[0].ingress == [(2, AckOf(0))];
    assert Timed(TieEnv(a), s.users, 0, 2, CopyPacket(a, 1)) == Stop6(a).users;
    assert PushIngress(s.nodes, 0, 3, CopyPacket(a, 1)) == Stop6(a).nodes;
  }

  lemma Advance6(a: AckStrategy)
    ensures Advances(a, Stop6(a), AtNode(0), Stop7(a))
  {
    hide IsNext, PartitionPoint, EventQueue.Insert;
    NodeComesNext(Stop6(a));
    assert Stop6(a).nodes[0].ingress[1..] == [(3, CopyPacket(a, 1))];
    assert PopIngress(Stop6(a).nodes, 0) == Stop7(a).nodes;
    var q := Stop6(a).users[0].events;
    assert q[1..] == [];
    assert CancelTimers(q, 0) == q;
    assert CancelAt(Stop6(a).users, 0, 0) == Stop7(a).users;
  }

  lemma Advance7(a: AckStrategy)
    ensures Advances(a, Stop7(a), AtNode(0), Stop8(a))
  {
    hide IsNext, PartitionPoint, EventQueue.Insert;
    NodeComesNext(Stop7(a));
    InsertIntoEmpty<UserEvent>(3, Handover(Copy(a, 1)));
    assert Stop7(a).users[1].events == [] && Stop7(a).nodes[0].ingress[1..] == [];
    assert PopIngress(Stop7(a).nodes, 0) == Stop8(a).nodes;
    assert PushEvent(Stop7(a).users, 1, 3, Handover(Copy(a, 1))) == Stop8(a).users;
  }

  lemma Remarked(a: AckStrategy)
    ensures Marked(Stop8(a).users[1].(events := []), Copy(a, 1), 3) == Stop9(a).users[1]
    ensures Complete(Stop9(a).users[1], Copy(a, 1))
    ensures SetOf(a, 1) in Firsts(a) && Firsts(a)[SetOf(a, 1)] <= 3
    ensures [0] + [3 - Firsts(a)[SetOf(a, 1)]] == Figures(a)
  {
    var none: set<nat> := {};
    assert none + {0} == {0} && {0} + {0} == {0};
  }

  lemma Advance8(a: AckStrategy)
    ensures Advances(a, Stop8(a), AtUser(1), Stop9(a))
  {
    hide IsNext, PartitionPoint, EventQueue.Insert, Marked, Complete, OnHandover, Advances, Firsts, Figures, StillHeld,
         SetsBuilt, SetOf;
    UserComesNext(Stop8(a), 1, 0);
    InsertIntoEmpty<Packet>(4, AckOf(1));
    Remarked(a);
    var s := Stop8(a);
    assert s.users[1].events[1..] == [];
    assert s.users[1 := Stop9(a).users[1]] == Stop9(a).users;
    assert PushIngress(s.nodes, 0, 4, AckOf(1)) == Stop9(a).nodes;
    TieHandover(a, s, Copy(a, 1), Stop9(a).users[1], Stop9(a));
  }

  lemma Take(a: AckStrategy, w: World, s: State, who: Who, s': State) returns (w': World)
    requires w.s == s && Advances(a, s, who, s')
    ensures CanStep(TieEnv(a), w, who) && w' == After(TieEnv(a), w, who) && w'.s == s'
  {
    w' := After(TieEnv(a), w, who);
  }

  /** A run of no steps. */
  lemma Stays(a: AckStrategy, w: World)
    ensures Leads(TieEnv(a), w, [], w)
  {
    assert Passes(TieEnv(a), [w], []) && [w][0] == w;
  }

  lemma TieStarts(w0: World)
    requires w0 == World(Stop0(), NO_HISTORY)
    ensures Start(w0)
  {
    hide Unstarted;
    TieIsUnstarted(w0.s);
    assert w0.s.nodes.Keys == {0} && w0.s.users.Keys == {0, 1};
    assert |{0}| == 1 && |{0, 1}| == 2;
  }

  lemma TieIsUnstarted(s: State)
    requires s == Stop0()
    ensures Unstarted(s)
  {
    hide Contiguous;
    assert s.nodes.Keys == {0} && s.users.Keys == {0, 1};
    Numbers();
    assert forall u :: u in s.users ==> u == 0 || u == 1;
  }

  lemma Numbers()
    ensures Contiguous({0}) && Contiguous({0, 1})
  {
    assert |{0}| == 1 && |{0, 1}| == 2;
  }

  lemma TieSends()
    ensures MessagesToSend(Stop0().users) == 1
  {
    hide AllSends;
    var users := Stop0().users;
    assert users.Keys == {0, 1};
    var sends := AllSends(users, users.Keys);
    forall x: (UserId, nat)
      ensures sends[x] == multiset{(0, 1)}[x]
    {
      AllSendsCount(users, users.Keys, x.0, x.1);
      assert x == (x.0, x.1);
    }
    assert sends == multiset{(0, 1)};
  }

  lemma First(a: AckStrategy, w0: World) returns (w1: World)
    requires w0.s == Stop0()
    ensures w1.s == Stop1(a) && Leads(TieEnv(a), w0, [AtUser(0)], w1)
  {
    hide Advances, CanStep, After, Leads, Stop0, Stop1;
    Advance0(a);
    w1 := Take(a, w0, Stop0(), AtUser(0), Stop1(a));
    Stays(a, w0);
    LeadsFurther(TieEnv(a), w0, [], w0, AtUser(0));
    assert [] + [AtUser(0)] == [AtUser(0)];
  }

  lemma Second(a: AckStrategy, w1: World) returns (w2: World)
    requires w1.s == Stop1(a)
    ensures Sends(TieEnv(a), w1, 0, CopyPacket(a, 0)) && w2 == After(TieEnv(a), w1, AtUser(0)) && w2.s == Stop2(a)
    ensures TotalDelay(CopyPacket(a, 0)) + TotalDelay(Copy(a, 0).ack) == TieEnv(a).timeout(TotalDelay(CopyPacket(a, 0)))
  {
    hide Advances, CanStep, After;
    Advance1(a);
    w2 := Take(a, w1, Stop1(a), AtUser(0), Stop2(a));
  }

  lemma Third(a: AckStrategy, w2: World) returns (w4: World)
    requires w2.s == Stop2(a)
    ensures Leads(TieEnv(a), w2, [AtNode(0), AtUser(1)], w4) && w4.s == Stop4(a)
    ensures IsNext(w4.s, AtUser(0)) && Event(w4.s, 0) == AckTimeout(0)
  {
    hide CanStep, After, Leads, Fire, Stop2, Stop3;
    Advance2(a);
    Advance3(a);
    Advance4(a);
    var w3 := Take(a, w2, Stop2(a), AtNode(0), Stop3(a));
    w4 := Take(a, w3, Stop3(a), AtUser(1), Stop4(a));
    Stays(a, w2);
    LeadsFurther(TieEnv(a), w2, [], w2, AtNode(0));
    LeadsFurther(TieEnv(a), w2, [] + [AtNode(0)], w3, AtUser(1));
    assert [] + [AtNode(0)] + [AtUser(1)] == [AtNode(0), AtUser(1)];
  }

  lemma Fourth(a: AckStrategy, w4: World) returns (w9: World)
    requires w4.s == Stop4(a)
    ensures Leads(TieEnv(a), w4, [AtUser(0), AtUser(0), AtNode(0), AtNode(0), AtUser(1)], w9) && w9.s == Stop9(a)
  {
    hide Advances, CanStep, After, Leads, Stop4, Stop5, Stop6, Stop7, Stop8, Stop9;
    Advance4(a);
    Advance5(a);
    Advance6(a);
    Advance7(a);
    Advance8(a);
    var w5 := Take(a, w4, Stop4(a), AtUser(0), Stop5(a));
    var w6 := Take(a, w5, Stop5(a), AtUser(0), Stop6(a));
    var w7 := Take(a, w6, Stop6(a), AtNode(0), Stop7(a));
    var w8 := Take(a, w7, Stop7(a), AtNode(0), Stop8(a));
    w9 := Take(a, w8, Stop8(a), AtUser(1), Stop9(a));
    var done: seq<Who> := [];
    Stays(a, w4);
    LeadsFurther(TieEnv(a), w4, done, w4, AtUser(0));
    LeadsFurther(TieEnv(a), w4, done + [AtUser(0)], w5, AtUser(0));
    LeadsFurther(TieEnv(a), w4, done + [AtUser(0)] + [AtUser(0)], w6, AtNode(0));
    LeadsFurther(TieEnv(a), w4, done + [AtUser(0)] + [AtUser(0)] + [AtNode(0)], w7, AtNode(0));
    LeadsFurther(TieEnv(a), w4, done + [AtUser(0)] + [AtUser(0)] + [AtNode(0)] + [AtNode(0)], w8, AtUser(1));
    assert done + [AtUser(0)] + [AtUser(0)] + [AtNode(0)] + [AtNode(0)] + [AtUser(1)]
        == [AtUser(0), AtUser(0), AtNode(0), AtNode(0), AtUser(1)];
  }

  /** One message of one fragment is to be sent. Its packet is not dropped, and its delay and that of its
      acknowledgement add up to exactly the timeout. Still its timer fires, because a tie goes to the user;
      the fragment arrives twice, and the message is recorded twice: as the same set again under PerFragment,
      and as a second set under WholeMessage. */
  lemma TieRetransmits(a: AckStrategy) returns (w0: World, w1: World, w2: World, w4: World, w9: World)
    ensures Start(w0) && MessagesToSend(w0.s.users) == 1
    ensures Leads(TieEnv(a), w0, [AtUser(0)], w1) && Sends(TieEnv(a), w1, 0, CopyPacket(a, 0))
    ensures w2 == After(TieEnv(a), w1, AtUser(0))
    ensures TotalDelay(CopyPacket(a, 0)) + TotalDelay(Copy(a, 0).ack) == TieEnv(a).timeout(TotalDelay(CopyPacket(a, 0)))
    ensures Leads(TieEnv(a), w2, [AtNode(0), AtUser(1)], w4) && w4.s.deliveryTimes == [1]
    ensures IsNext(w4.s, AtUser(0)) && Event(w4.s, 0) == AckTimeout(0)
    ensures Leads(TieEnv(a), w4, [AtUser(0), AtUser(0), AtNode(0), AtNode(0), AtUser(1)], w9)
    ensures w9.s.deliveryTimes == [1, 3]
  {
    hide CanStep, After, Leads, IsNext, Stop0, Stop1, Stop2;
    w0 := World(Stop0(), NO_HISTORY);
    TieStarts(w0);
    TieSends();
    w1 := First(a, w0);
    w2 := Second(a, w1);
    w4 := Third(a, w2);
    w9 := Fourth(a, w4);
  }
}
