/** The steps of a node keep the invariant. */
module LatencyNodeSteps {
  import opened EventQueue
  import opened LatencySim
  import opened LatencyHistory
  import opened LatencyInvariant
  import opened LatencyQueues
  import opened LatencyBooks

  ghost predicate Turn(env: Env, w: World, who: Who) {
    Inv(env, w) && IsNext(w.s, who)
  }

  ghost predicate QueuesOk(env: Env, w: World) {
    Queues(env, w.s.timestamp, w.s.nodes, w.s.users, w.h)
  }

  ghost function Head(s: State, n: NodeId): Packet
    requires BusyNode(s, n)
  {
    s.nodes[n].ingress[0].1
  }

  lemma HeadOk(env: Env, w: World, n: NodeId)
    requires Inv(env, w) && BusyNode(w.s, n)
    ensures NodeItemOk(env, w.s.nodes.Keys, w.s.users.Keys, w.h.book, (NodeTime(w.s, n), Head(w.s, n)))
  {
  }

  // ---------- Queues ----------

  lemma MessageQueues(env: Env, w: World, n: NodeId)
    requires Turn(env, w, AtNode(n)) && Head(w.s, n).content.OfMessage?
    ensures CanStep(env, w, AtNode(n)) && QueuesOk(env, After(env, w, AtNode(n)))
    ensures At(w.h, Head(w.s, n).content.message.id, Relayed(n))
  {
    hide Books, Live, Clock, NodesConserved, UsersConserved, NodeItems, UserItems;
    PopNode(env, w.s, w.h, n);
    var m := Head(w.s, n).content.message;
    var h1 := Left(env, w.h, Head(w.s, n));
    assert PopIngress(w.s.nodes, n).Keys == w.s.nodes.Keys;
    PushUser(env, NodeTime(w.s, n), PopIngress(w.s.nodes, n), w.s.users, h1, m.recipient, NodeTime(w.s, n),
             Handover(m));
    assert Taken(h1, m.recipient, Handover(m)) == SetStage(w.h, m.id, Arrived(m.recipient));
  }

  /** The timer that an acknowledgement ends belongs to the recipient of the acknowledgement. */
  lemma TimerOwner(env: Env, w: World, id: nat)
    requires Books(env, w.s, w.h) && id in w.h.timers
    ensures match env.strategy
            case PerFragment => id < |w.h.book.ids| && w.h.book.ids[id].fragmentSet < |w.h.book.sets|
                                && w.h.timers[id] == w.h.book.sets[w.h.book.ids[id].fragmentSet].sender
            case WholeMessage => id < |w.h.book.sets| && w.h.timers[id] == w.h.book.sets[id].sender
  {
  }

  lemma AckQueues(env: Env, w: World, n: NodeId)
    requires Turn(env, w, AtNode(n)) && Head(w.s, n).content.OfAck?
    ensures CanStep(env, w, AtNode(n)) && QueuesOk(env, After(env, w, AtNode(n)))
    ensures env.strategy.PerFragment? ==> At(w.h, Head(w.s, n).content.ack.messageId, Acking(n))
    ensures env.strategy.WholeMessage? ==> Head(w.s, n).content.ack.messageId in w.h.book.records
  {
    hide Live, Clock, NodesConserved, UsersConserved, NodeItems, UserItems, Books;
    PopNode(env, w.s, w.h, n);
    var a := Head(w.s, n).content.ack;
    var h1 := Left(env, w.h, Head(w.s, n));
    if a.messageId in w.h.timers { TimerOwner(env, w, a.messageId); }
    Cancel(env, NodeTime(w.s, n), PopIngress(w.s.nodes, n), w.s.users, h1, a.recipient, a.messageId);
  }

  lemma RelayItem(env: Env, nodes: set<NodeId>, users: set<UserId>, book: Book, now: Timestamp, p: Packet)
    requires NodeItemOk(env, nodes, users, book, (now, p)) && p.content.OfPacket?
    ensures var q := p.content.packet;
            q.destination in nodes && NodeItemOk(env, nodes, users, book, (now + q.delay, q))
  {
  }

  lemma RelayStage(env: Env, h: History, p: Packet)
    requires p.content.OfPacket?
    ensures var q := p.content.packet; Entered(env, Left(env, h, p), q.destination, q) == AdvanceNode(env, h, p.content)
    ensures MayEnter(env, h, p) <==> MayEnter(env, h, p.content.packet)
  {
  }

  lemma RelayFires(env: Env, w: World, n: NodeId)
    requires Turn(env, w, AtNode(n)) && Head(w.s, n).content.OfPacket?
    ensures CanStep(env, w, AtNode(n))
    ensures var q, w' := Head(w.s, n).content.packet, After(env, w, AtNode(n));
            && q.destination in PopIngress(w.s.nodes, n)
            && w'.s.nodes == PushIngress(PopIngress(w.s.nodes, n), q.destination, NodeTime(w.s, n) + q.delay, q)
            && w'.s.users == w.s.users && w'.s.timestamp == NodeTime(w.s, n)
            && w'.h == AdvanceNode(env, w.h, OfPacket(q))
  {
    hide Books, Live, Clock, NodesConserved, UsersConserved, NodeItems, UserItems;
    PopNode(env, w.s, w.h, n);
    RelayItem(env, w.s.nodes.Keys, w.s.users.Keys, w.h.book, NodeTime(w.s, n), Head(w.s, n));
  }

  lemma RelayQueues(env: Env, w: World, n: NodeId)
    requires Turn(env, w, AtNode(n)) && Head(w.s, n).content.OfPacket?
    ensures CanStep(env, w, AtNode(n)) && QueuesOk(env, After(env, w, AtNode(n)))
  {
    hide Books, Live, Clock, NodesConserved, UsersConserved, NodeItems, UserItems;
    RelayFires(env, w, n);
    PopNode(env, w.s, w.h, n);
    var q, now := Head(w.s, n).content.packet, NodeTime(w.s, n);
    var nodes1, h1 := PopIngress(w.s.nodes, n), Left(env, w.h, Head(w.s, n));
    assert nodes1.Keys == w.s.nodes.Keys;
    RelayItem(env, w.s.nodes.Keys, w.s.users.Keys, w.h.book, now, Head(w.s, n));
    RelayStage(env, w.h, Head(w.s, n));
    RelayStage(env, h1, Head(w.s, n));
    PushNode(env, now, nodes1, w.s.users, h1, q.destination, now + q.delay, q);
  }

  lemma RelayAt(env: Env, w: World, n: NodeId)
    requires Turn(env, w, AtNode(n))
    ensures match Core(Head(w.s, n))
            case OfMessage(m) => At(w.h, m.id, Relayed(n))
            case OfAck(a) => env.strategy.PerFragment? ==> At(w.h, a.messageId, Acking(n))
  {
    PopNode(env, w.s, w.h, n);
  }

  // ---------- Books and liveness ----------

  ghost predicate MessageDelta(w: World, w': World, m: Message, now: Timestamp) {
    && m.recipient in w.s.users && Sorted(w.s.users[m.recipient].events)
    && w'.s.users == PushEvent(w.s.users, m.recipient, now, Handover(m)) && SameCounts(w.s, w'.s)
    && m.id < |w.h.stage| && w.h.stage[m.id].Relayed? && w'.h == SetStage(w.h, m.id, Arrived(m.recipient))
    && m.id < |w.h.book.ids| && w.h.book.ids[m.id].fragmentSet < |w.h.book.sets|
    && m.recipient == w.h.book.sets[w.h.book.ids[m.id].fragmentSet].recipient
  }

  lemma MessageFires(env: Env, w: World, n: NodeId)
    requires Turn(env, w, AtNode(n)) && Head(w.s, n).content.OfMessage?
    ensures CanStep(env, w, AtNode(n))
    ensures MessageDelta(w, After(env, w, AtNode(n)), Head(w.s, n).content.message, NodeTime(w.s, n))
  {
    hide Books, Live, NodesConserved, UsersConserved, NodeItems, UserItems, Clock;
    MessageQueues(env, w, n);
    HeadOk(env, w, n);
    PopNodeClock(w.s, n);
  }

  lemma MessageBooks(env: Env, w: World, w': World, m: Message, now: Timestamp)
    requires Books(env, w.s, w.h) && MessageDelta(w, w', m, now)
    ensures Books(env, w'.s, w'.h)
  {
    StageChange(env, w.s.nodes.Keys, w.h, m.id, Arrived(m.recipient));
    QuietBooks(env, w.s, w'.s, w.h, w'.h);
  }

  lemma MessageLive(env: Env, w: World, w': World, m: Message, now: Timestamp)
    requires Live(env, w.s.users, w.h) && MessageDelta(w, w', m, now)
    ensures Live(env, w'.s.users, w'.h)
  {
    match env.strategy {
      case PerFragment => QuietFragments(w.s.users, w'.s.users, w.h, w'.h, m.id);
      case WholeMessage =>
        QuietRoots(w.s.users, w'.s.users, w.h, w'.h, m.id, {});
        QuietOnce(w.s.users, w'.s.users, w.h, w'.h, m.id);
        InsertInOrder(w.s.users[m.recipient].events, now, Handover(m));
    }
  }

  lemma MessageKeeps(env: Env, w: World, n: NodeId)
    requires Turn(env, w, AtNode(n)) && Head(w.s, n).content.OfMessage?
    ensures CanStep(env, w, AtNode(n)) && Inv(env, After(env, w, AtNode(n)))
  {
    MessageQueues(env, w, n);
    MessageFires(env, w, n);
    var m, w' := Head(w.s, n).content.message, After(env, w, AtNode(n));
    MessageBooks(env, w, w', m, NodeTime(w.s, n));
    MessageLive(env, w, w', m, NodeTime(w.s, n));
  }

  ghost predicate AckDelta(env: Env, w: World, w': World, a: Ack) {
    && a.recipient in w.s.users && w'.s.users == CancelAt(w.s.users, a.recipient, a.messageId) && SameCounts(w.s, w'.s)
    && match env.strategy
       case PerFragment => a.messageId < |w.h.stage| && w.h.stage[a.messageId].Acking?
                           && w'.h == SetStage(w.h, a.messageId, Finished).(timers := w.h.timers - {a.messageId})
       case WholeMessage => a.messageId in w.h.book.records && w'.h == w.h.(timers := w.h.timers - {a.messageId})
  }

  lemma CancelSame(users: Users, u: UserId, id: nat)
    requires u in users
    ensures SameMemories(users, CancelAt(users, u, id))
  {
  }

  lemma AckFires(env: Env, w: World, n: NodeId)
    requires Turn(env, w, AtNode(n)) && Head(w.s, n).content.OfAck?
    ensures CanStep(env, w, AtNode(n)) && AckDelta(env, w, After(env, w, AtNode(n)), Head(w.s, n).content.ack)
  {
    hide Books, Live, Clock, NodesConserved, UsersConserved, NodeItems, UserItems;
    AckQueues(env, w, n);
    PopNodeClock(w.s, n);
    var a, w' := Head(w.s, n).content.ack, After(env, w, AtNode(n));
    CancelSame(w.s.users, a.recipient, a.messageId);
    assert w'.s.nodes.Keys == w.s.nodes.Keys;
    assert w'.s.users == CancelAt(w.s.users, a.recipient, a.messageId);
    assert w'.h == AdvanceNode(env, w.h, OfAck(a));
  }

  lemma AckBooks(env: Env, w: World, w': World, a: Ack)
    requires Books(env, w.s, w.h) && AckDelta(env, w, w', a)
    ensures Books(env, w'.s, w'.h)
  {
    var h1 := w.h;
    if env.strategy.PerFragment? {
      StageChange(env, w.s.nodes.Keys, w.h, a.messageId, Finished);
      h1 := SetStage(w.h, a.messageId, Finished);
    }
    forall id | 0 <= id < |w'.h.stage|
      ensures StageOk(env, w.s.nodes.Keys, w'.h, id)
    {
      assert StageOk(env, w.s.nodes.Keys, h1, id);
    }
    QuietBooks(env, w.s, w'.s, w.h, w'.h);
  }

  lemma AckLive(env: Env, w: World, w': World, a: Ack)
    requires Live(env, w.s.users, w.h) && AckDelta(env, w, w', a) && |w.h.book.ids| == |w.h.stage|
    ensures Live(env, w'.s.users, w'.h)
  {
    match env.strategy {
      case PerFragment =>
        AckedFragments(w.s.users, w'.s.users, w.h, w'.h, a.messageId);
      case WholeMessage =>
        QuietRoots(w.s.users, w'.s.users, w.h, w'.h, |w.h.stage|, {a.messageId});
        QuietOnce(w.s.users, w'.s.users, w.h, w'.h, |w.h.stage|);
        CancelInOrder(w.s.users[a.recipient].events, a.messageId);
    }
  }

  lemma AckKeeps(env: Env, w: World, n: NodeId)
    requires Turn(env, w, AtNode(n)) && Head(w.s, n).content.OfAck?
    ensures CanStep(env, w, AtNode(n)) && Inv(env, After(env, w, AtNode(n)))
  {
    AckQueues(env, w, n);
    AckFires(env, w, n);
    var a, w' := Head(w.s, n).content.ack, After(env, w, AtNode(n));
    AckBooks(env, w, w', a);
    AckLive(env, w, w', a);
  }

  /** The identifier whose stage a relayed packet changes, or an unused one. */
  function RelayedId(env: Env, h: History, q: Packet): nat {
    match Core(q)
    case OfMessage(m) => m.id
    case OfAck(a) => if env.strategy.PerFragment? then a.messageId else |h.stage|
  }

  lemma RelayChange(env: Env, w: World, n: NodeId)
    requires Turn(env, w, AtNode(n)) && Head(w.s, n).content.OfPacket?
    ensures CanStep(env, w, AtNode(n))
    ensures var q, w' := Head(w.s, n).content.packet, After(env, w, AtNode(n));
            var id := RelayedId(env, w.h, q);
            && SameCounts(w.s, w'.s) && w'.s.users == w.s.users && w'.h.timers == w.h.timers
            && StageOnly(w.h, w'.h, id) && StagesOk(env, w.s.nodes.Keys, w'.h)
            && (id < |w.h.stage| ==>
                  (w.h.stage[id].Relayed? && w'.h.stage[id].Relayed?)
                    || (w.h.stage[id].Acking? && w'.h.stage[id].Acking?))
            && (env.strategy.PerFragment? ==> id < |w.h.stage|)
  {
    hide Live, Clock, NodesConserved, UsersConserved, NodeItems, UserItems, Tally, StageOk;
    RelayFires(env, w, n);
    RelayAt(env, w, n);
    PopNodeClock(w.s, n);
    var q, w' := Head(w.s, n).content.packet, After(env, w, AtNode(n));
    var id := RelayedId(env, w.h, q);
    if id < |w.h.stage| {
      assert StageOk(env, w.s.nodes.Keys, w.h, id);
      StageChange(env, w.s.nodes.Keys, w.h, id, w'.h.stage[id]);
    }
  }

  lemma RelayKeeps(env: Env, w: World, n: NodeId)
    requires Turn(env, w, AtNode(n)) && Head(w.s, n).content.OfPacket?
    ensures CanStep(env, w, AtNode(n)) && Inv(env, After(env, w, AtNode(n)))
  {
    hide Clock, NodesConserved, UsersConserved, NodeItems, UserItems, Books;
    RelayQueues(env, w, n);
    RelayChange(env, w, n);
    var q, w' := Head(w.s, n).content.packet, After(env, w, AtNode(n));
    var id := RelayedId(env, w.h, q);
    QuietBooks(env, w.s, w'.s, w.h, w'.h);
    match env.strategy {
      case PerFragment => QuietFragments(w.s.users, w'.s.users, w.h, w'.h, id);
      case WholeMessage =>
        QuietRoots(w.s.users, w'.s.users, w.h, w'.h, id, {});
        QuietOnce(w.s.users, w'.s.users, w.h, w'.h, id);
    }
  }
}
