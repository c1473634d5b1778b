/** How each queue operation keeps the queue invariant. A message that is in no queue has stage Finished or Dropped. */
module LatencyQueues {
  import opened EventQueue
  import opened LatencySim
  import opened LatencyHistory
  import opened LatencyInvariant

  lemma InsertFacts<T, K>(q: Queue<T>, t: Timestamp, x: T, key: T -> K)
    requires Sorted(q)
    ensures Sorted(Insert(q, t, x))
    ensures forall y :: y in Insert(q, t, x) <==> y == (t, x) || y in q
    ensures Bag(Insert(q, t, x), key) == Bag(q, key) + multiset{key(x)}
  {
    InsertIsStable(q, t, x);
    InsertMembers(q, t, x);
    BagInsert(q, t, x, key);
  }

  predicate Idle(h: History, id: nat) {
    id < |h.stage| && (h.stage[id].Finished? || h.stage[id].Dropped?)
  }

  /** The first entry of a node leaves, and the clock moves to its time. */
  lemma PopNodeClock(s: State, n: NodeId)
    requires Clock(s.timestamp, s.nodes, s.users) && IsNext(s, AtNode(n))
    ensures s.timestamp <= NodeTime(s, n) && Clock(NodeTime(s, n), PopIngress(s.nodes, n), s.users)
  {
    assert s.nodes[n].ingress[0] in s.nodes[n].ingress;
    forall m | m in s.nodes
      ensures NotBefore(s.nodes[m].ingress, NodeTime(s, n))
    {
      if BusyNode(s, m) { assert NodeTime(s, n) <= NodeTime(s, m); }
    }
    forall u | u in s.users
      ensures NotBefore(s.users[u].events, NodeTime(s, n))
    {
      if BusyUser(s, u) { assert NodeTime(s, n) < UserTime(s, u); }
    }
  }

  lemma PopUserClock(s: State, u: UserId)
    requires Clock(s.timestamp, s.nodes, s.users) && IsNext(s, AtUser(u))
    ensures s.timestamp <= UserTime(s, u) && Clock(UserTime(s, u), s.nodes, PopEvent(s.users, u))
  {
    assert s.users[u].events[0] in s.users[u].events;
    forall m | m in s.nodes
      ensures NotBefore(s.nodes[m].ingress, UserTime(s, u))
    {
      if BusyNode(s, m) { assert UserTime(s, u) <= NodeTime(s, m); }
    }
    forall v | v in s.users
      ensures NotBefore(s.users[v].events, UserTime(s, u))
    {
      if BusyUser(s, v) { assert UserTime(s, u) <= UserTime(s, v); }
    }
  }

  // ---------- Changing a stage ----------

  predicate InNode(stage: Stage) { stage.Relayed? || stage.Acking? }

  predicate InUser(stage: Stage) { stage.Queued? || stage.Arrived? }

  lemma UsersKeep(users: Users, h: History, id: nat, stage: Stage)
    requires UsersConserved(users, h) && id < |h.stage| && !InUser(h.stage[id]) && !InUser(stage)
    ensures UsersConserved(users, SetStage(h, id, stage))
  {
  }

  lemma NodesKeep(env: Env, nodes: Nodes, h: History, id: nat, stage: Stage)
    requires NodesConserved(env, nodes, h) && id < |h.stage| && !InNode(h.stage[id]) && !InNode(stage)
    ensures NodesConserved(env, nodes, SetStage(h, id, stage))
  {
  }

  // ---------- Entering a node ----------

  /** The history after `p` enters node `n`. */
  function Entered(env: Env, h: History, n: NodeId, p: Packet): History {
    match Core(p)
    case OfMessage(m) => SetStage(h, m.id, Relayed(n))
    case OfAck(a) => if env.strategy.PerFragment? then SetStage(h, a.messageId, Acking(n)) else h
  }

  predicate MayEnter(env: Env, h: History, p: Packet) {
    match Core(p)
    case OfMessage(m) => Idle(h, m.id)
    case OfAck(a) => env.strategy.PerFragment? ==> Idle(h, a.messageId)
  }

  lemma PushNodeClock(now: Timestamp, nodes: Nodes, users: Users, n: NodeId, t: Timestamp, p: Packet)
    requires Clock(now, nodes, users) && n in nodes && now <= t
    ensures Clock(now, PushIngress(nodes, n, t, p), users)
  {
    InsertFacts(nodes[n].ingress, t, p, PacketKey);
  }

  lemma PushNodeCount(nodes: Nodes, n: NodeId, t: Timestamp, p: Packet, m: NodeId, k: NodeKey)
    requires n in nodes && m in nodes
    ensures NodeBag(PushIngress(nodes, n, t, p), m)[k] == NodeBag(nodes, m)[k] + One(m == n && k == PacketKey(p))
  {
    BagInsert(nodes[n].ingress, t, p, PacketKey);
  }

  lemma PushNodeConserved(env: Env, nodes: Nodes, h: History, n: NodeId, t: Timestamp, p: Packet)
    requires NodesConserved(env, nodes, h) && n in nodes && MayEnter(env, h, p)
    ensures NodesConserved(env, PushIngress(nodes, n, t, p), Entered(env, h, n, p))
  {
    var nodes', h' := PushIngress(nodes, n, t, p), Entered(env, h, n, p);
    forall m, id | m in nodes'
      ensures NodeBag(nodes', m)[MessageKey(id)] == One(At(h', id, Relayed(m)))
    {
      PushNodeCount(nodes, n, t, p, m, MessageKey(id));
    }
    if env.strategy.PerFragment? {
      forall m, id | m in nodes'
        ensures NodeBag(nodes', m)[AckKey(id)] == One(At(h', id, Acking(m)))
      {
        PushNodeCount(nodes, n, t, p, m, AckKey(id));
      }
    }
  }

  lemma PushNodeItems(env: Env, now: Timestamp, nodes: Nodes, users: Users, book: Book, n: NodeId, t: Timestamp,
                      p: Packet)
    requires NodeItems(env, nodes, users.Keys, book) && UserItems(env, nodes.Keys, now, users, book) && n in nodes
    requires NodeItemOk(env, nodes.Keys, users.Keys, book, (t, p))
    ensures NodeItems(env, PushIngress(nodes, n, t, p), users.Keys, book)
    ensures UserItems(env, PushIngress(nodes, n, t, p).Keys, now, users, book)
  {
    InsertMembers(nodes[n].ingress, t, p);
    assert PushIngress(nodes, n, t, p).Keys == nodes.Keys;
  }

  lemma PushNode(env: Env, now: Timestamp, nodes: Nodes, users: Users, h: History, n: NodeId, t: Timestamp, p: Packet)
    requires Queues(env, now, nodes, users, h) && n in nodes && now <= t && MayEnter(env, h, p)
    requires NodeItemOk(env, nodes.Keys, users.Keys, h.book, (t, p))
    ensures Queues(env, now, PushIngress(nodes, n, t, p), users, Entered(env, h, n, p))
  {
    PushNodeClock(now, nodes, users, n, t, p);
    PushNodeConserved(env, nodes, h, n, t, p);
    PushNodeItems(env, now, nodes, users, h.book, n, t, p);
    match Core(p) {
      case OfMessage(m) => UsersKeep(users, h, m.id, Relayed(n));
      case OfAck(a) => if env.strategy.PerFragment? { UsersKeep(users, h, a.messageId, Acking(n)); }
    }
  }

  // ---------- Leaving a node ----------

  function Left(env: Env, h: History, p: Packet): History {
    match Core(p)
    case OfMessage(m) => SetStage(h, m.id, Finished)
    case OfAck(a) => if env.strategy.PerFragment? then SetStage(h, a.messageId, Finished) else h
  }

  lemma PopNodeCount(nodes: Nodes, n: NodeId, m: NodeId, k: NodeKey)
    requires n in nodes && m in nodes && nodes[n].ingress != []
    ensures NodeBag(nodes, m)[k]
            == NodeBag(PopIngress(nodes, n), m)[k] + One(m == n && k == PacketKey(nodes[n].ingress[0].1))
  {
  }

  lemma PopNodeWasThere(env: Env, nodes: Nodes, h: History, n: NodeId)
    requires NodesConserved(env, nodes, h) && n in nodes && nodes[n].ingress != []
    ensures match Core(nodes[n].ingress[0].1)
            case OfMessage(m) => At(h, m.id, Relayed(n))
            case OfAck(a) => env.strategy.PerFragment? ==> At(h, a.messageId, Acking(n))
  {
    PopNodeCount(nodes, n, n, PacketKey(nodes[n].ingress[0].1));
  }

  lemma PopNodeMessage(env: Env, nodes: Nodes, h: History, n: NodeId, m: NodeId, id: nat)
    requires NodesConserved(env, nodes, h) && n in nodes && nodes[n].ingress != [] && m in nodes
    ensures NodeBag(PopIngress(nodes, n), m)[MessageKey(id)]
            == One(At(Left(env, h, nodes[n].ingress[0].1), id, Relayed(m)))
  {
    PopNodeWasThere(env, nodes, h, n);
    PopNodeCount(nodes, n, m, MessageKey(id));
  }

  lemma PopNodeAck(env: Env, nodes: Nodes, h: History, n: NodeId, m: NodeId, id: nat)
    requires NodesConserved(env, nodes, h) && n in nodes && nodes[n].ingress != [] && m in nodes
    requires env.strategy.PerFragment?
    ensures NodeBag(PopIngress(nodes, n), m)[AckKey(id)] == One(At(Left(env, h, nodes[n].ingress[0].1), id, Acking(m)))
  {
    PopNodeWasThere(env, nodes, h, n);
    PopNodeCount(nodes, n, m, AckKey(id));
  }

  lemma PopNodeConserved(env: Env, nodes: Nodes, h: History, n: NodeId)
    requires NodesConserved(env, nodes, h) && n in nodes && nodes[n].ingress != []
    ensures NodesConserved(env, PopIngress(nodes, n), Left(env, h, nodes[n].ingress[0].1))
  {
    forall m, id | m in nodes { PopNodeMessage(env, nodes, h, n, m, id); }
    if env.strategy.PerFragment? {
      forall m, id | m in nodes { PopNodeAck(env, nodes, h, n, m, id); }
    }
  }

  lemma LaterUserItems(env: Env, nodes: set<NodeId>, now: Timestamp, later: Timestamp, users: Users, book: Book)
    requires UserItems(env, nodes, now, users, book) && now <= later
    ensures UserItems(env, nodes, later, users, book)
  {
  }

  /** The first packet leaves node `n`, and the clock moves to its time. */
  lemma PopNode(env: Env, s: State, h: History, n: NodeId)
    requires Queues(env, s.timestamp, s.nodes, s.users, h) && IsNext(s, AtNode(n))
    ensures s.timestamp <= NodeTime(s, n)
    ensures var p := s.nodes[n].ingress[0].1;
            && Queues(env, NodeTime(s, n), PopIngress(s.nodes, n), s.users, Left(env, h, p))
            && NodeItemOk(env, s.nodes.Keys, s.users.Keys, h.book, (NodeTime(s, n), p))
            && MayEnter(env, Left(env, h, p), p)
            && (match Core(p)
                case OfMessage(m) => At(h, m.id, Relayed(n))
                case OfAck(a) => env.strategy.PerFragment? ==> At(h, a.messageId, Acking(n)))
  {
    var it := s.nodes[n].ingress[0];
    assert it in s.nodes[n].ingress;
    PopNodeClock(s, n);
    PopNodeConserved(env, s.nodes, h, n);
    PopNodeWasThere(env, s.nodes, h, n);
    assert PopIngress(s.nodes, n).Keys == s.nodes.Keys;
    LaterUserItems(env, s.nodes.Keys, s.timestamp, NodeTime(s, n), s.users, h.book);
    match Core(it.1) {
      case OfMessage(m) => UsersKeep(s.users, h, m.id, Finished);
      case OfAck(a) => if env.strategy.PerFragment? { UsersKeep(s.users, h, a.messageId, Finished); }
    }
  }

  // ---------- Entering a user ----------

  function Taken(h: History, u: UserId, e: UserEvent): History {
    match EventKey(e)
    case HandoverKey(id) => SetStage(h, id, Arrived(u))
    case EgressKey(id) => SetStage(h, id, Queued(u))
    case TimerKey(id) => h.(timers := h.timers[id := u])
    case _ => h
  }

  predicate MayTake(h: History, e: UserEvent) {
    match EventKey(e)
    case HandoverKey(id) => Idle(h, id)
    case EgressKey(id) => Idle(h, id)
    case TimerKey(id) => id !in h.timers
    case _ => true
  }

  lemma PushUserClock(now: Timestamp, nodes: Nodes, users: Users, u: UserId, t: Timestamp, e: UserEvent)
    requires Clock(now, nodes, users) && u in users && now <= t
    ensures Clock(now, nodes, PushEvent(users, u, t, e))
  {
    InsertFacts(users[u].events, t, e, EventKey);
  }

  lemma PushUserCount(users: Users, u: UserId, t: Timestamp, e: UserEvent, v: UserId, k: UserKey)
    requires u in users && v in users
    ensures UserBag(PushEvent(users, u, t, e), v)[k] == UserBag(users, v)[k] + One(v == u && k == EventKey(e))
  {
    BagInsert(users[u].events, t, e, EventKey);
  }

  lemma PushUserHandover(users: Users, h: History, u: UserId, t: Timestamp, e: UserEvent, v: UserId, id: nat)
    requires UsersConserved(users, h) && u in users && MayTake(h, e) && v in users
    ensures UserBag(PushEvent(users, u, t, e), v)[HandoverKey(id)] == One(At(Taken(h, u, e), id, Arrived(v)))
  {
    PushUserCount(users, u, t, e, v, HandoverKey(id));
  }

  lemma PushUserEgress(users: Users, h: History, u: UserId, t: Timestamp, e: UserEvent, v: UserId, id: nat)
    requires UsersConserved(users, h) && u in users && MayTake(h, e) && v in users
    ensures UserBag(PushEvent(users, u, t, e), v)[EgressKey(id)] == One(At(Taken(h, u, e), id, Queued(v)))
  {
    PushUserCount(users, u, t, e, v, EgressKey(id));
  }

  lemma PushUserTimer(users: Users, h: History, u: UserId, t: Timestamp, e: UserEvent, v: UserId, id: nat)
    requires UsersConserved(users, h) && u in users && MayTake(h, e) && v in users
    ensures UserBag(PushEvent(users, u, t, e), v)[TimerKey(id)] == One(TimerAt(Taken(h, u, e), id, v))
  {
    PushUserCount(users, u, t, e, v, TimerKey(id));
  }

  lemma PushUserConserved(users: Users, h: History, u: UserId, t: Timestamp, e: UserEvent)
    requires UsersConserved(users, h) && u in users && MayTake(h, e)
    ensures UsersConserved(PushEvent(users, u, t, e), Taken(h, u, e))
  {
    forall v, id | v in users {
      PushUserHandover(users, h, u, t, e, v, id);
    }
    forall v, id | v in users {
      PushUserEgress(users, h, u, t, e, v, id);
    }
    forall v, id | v in users {
      PushUserTimer(users, h, u, t, e, v, id);
    }
  }

  lemma PushUserItems(env: Env, now: Timestamp, nodes: Nodes, users: Users, book: Book, u: UserId, t: Timestamp,
                      e: UserEvent)
    requires NodeItems(env, nodes, users.Keys, book) && UserItems(env, nodes.Keys, now, users, book) && u in users
    requires UserItemOk(env, nodes.Keys, now, book, u, (t, e))
    ensures NodeItems(env, nodes, PushEvent(users, u, t, e).Keys, book)
    ensures UserItems(env, nodes.Keys, now, PushEvent(users, u, t, e), book)
  {
    InsertMembers(users[u].events, t, e);
    assert PushEvent(users, u, t, e).Keys == users.Keys;
  }

  lemma PushUser(env: Env, now: Timestamp, nodes: Nodes, users: Users, h: History, u: UserId, t: Timestamp,
                 e: UserEvent)
    requires Queues(env, now, nodes, users, h) && u in users && now <= t && MayTake(h, e)
    requires UserItemOk(env, nodes.Keys, now, h.book, u, (t, e))
    ensures Queues(env, now, nodes, PushEvent(users, u, t, e), Taken(h, u, e))
  {
    PushUserClock(now, nodes, users, u, t, e);
    PushUserConserved(users, h, u, t, e);
    PushUserItems(env, now, nodes, users, h.book, u, t, e);
    match EventKey(e) {
      case HandoverKey(id) => NodesKeep(env, nodes, h, id, Arrived(u));
      case EgressKey(id) => NodesKeep(env, nodes, h, id, Queued(u));
      case _ =>
    }
  }

  // ---------- Leaving a user ----------

  function Gone(h: History, e: UserEvent): History {
    match EventKey(e)
    case HandoverKey(id) => SetStage(h, id, Finished)
    case EgressKey(id) => SetStage(h, id, Finished)
    case TimerKey(id) => h.(timers := h.timers - {id})
    case _ => h
  }

  predicate WasThere(h: History, u: UserId, e: UserEvent) {
    match EventKey(e)
    case HandoverKey(id) => At(h, id, Arrived(u))
    case EgressKey(id) => At(h, id, Queued(u))
    case TimerKey(id) => TimerAt(h, id, u)
    case _ => true
  }

  lemma PopUserCount(users: Users, u: UserId, v: UserId, k: UserKey)
    requires u in users && v in users && users[u].events != []
    ensures UserBag(users, v)[k]
            == UserBag(PopEvent(users, u), v)[k] + One(v == u && k == EventKey(users[u].events[0].1))
  {
  }

  lemma PopUserWasThere(users: Users, h: History, u: UserId)
    requires UsersConserved(users, h) && u in users && users[u].events != []
    ensures WasThere(h, u, users[u].events[0].1)
  {
    PopUserCount(users, u, u, EventKey(users[u].events[0].1));
  }

  lemma PopUserHandover(users: Users, h: History, u: UserId, v: UserId, id: nat)
    requires UsersConserved(users, h) && u in users && users[u].events != [] && v in users
    ensures UserBag(PopEvent(users, u), v)[HandoverKey(id)] == One(At(Gone(h, users[u].events[0].1), id, Arrived(v)))
  {
    PopUserWasThere(users, h, u);
    PopUserCount(users, u, v, HandoverKey(id));
  }

  lemma PopUserEgress(users: Users, h: History, u: UserId, v: UserId, id: nat)
    requires UsersConserved(users, h) && u in users && users[u].events != [] && v in users
    ensures UserBag(PopEvent(users, u), v)[EgressKey(id)] == One(At(Gone(h, users[u].events[0].1), id, Queued(v)))
  {
    PopUserWasThere(users, h, u);
    PopUserCount(users, u, v, EgressKey(id));
  }

  lemma PopUserTimer(users: Users, h: History, u: UserId, v: UserId, id: nat)
    requires UsersConserved(users, h) && u in users && users[u].events != [] && v in users
    ensures UserBag(PopEvent(users, u), v)[TimerKey(id)] == One(TimerAt(Gone(h, users[u].events[0].1), id, v))
  {
    PopUserWasThere(users, h, u);
    PopUserCount(users, u, v, TimerKey(id));
  }

  lemma PopUserConserved(users: Users, h: History, u: UserId)
    requires UsersConserved(users, h) && u in users && users[u].events != []
    ensures UsersConserved(PopEvent(users, u), Gone(h, users[u].events[0].1))
  {
    forall v, id | v in users {
      PopUserHandover(users, h, u, v, id);
    }
    forall v, id | v in users {
      PopUserEgress(users, h, u, v, id);
    }
    forall v, id | v in users {
      PopUserTimer(users, h, u, v, id);
    }
  }

  /** The first event leaves user `u`, and the clock moves to its time. */
  lemma PopUser(env: Env, s: State, h: History, u: UserId)
    requires Queues(env, s.timestamp, s.nodes, s.users, h) && IsNext(s, AtUser(u))
    ensures s.timestamp <= UserTime(s, u)
    ensures var e := s.users[u].events[0].1;
            && Queues(env, UserTime(s, u), s.nodes, PopEvent(s.users, u), Gone(h, e))
            && UserItemOk(env, s.nodes.Keys, UserTime(s, u), h.book, u, (UserTime(s, u), e))
            && MayTake(Gone(h, e), e)
            && WasThere(h, u, e)
  {
    var it := s.users[u].events[0];
    assert it in s.users[u].events;
    PopUserClock(s, u);
    PopUserConserved(s.users, h, u);
    PopUserWasThere(s.users, h, u);
    var users' := PopEvent(s.users, u);
    assert users'.Keys == s.users.Keys;
    LaterUserItems(env, s.nodes.Keys, s.timestamp, UserTime(s, u), s.users, h.book);
    assert UserItems(env, s.nodes.Keys, UserTime(s, u), users', h.book);
    match EventKey(it.1) {
      case HandoverKey(id) => NodesKeep(env, s.nodes, h, id, Finished);
      case EgressKey(id) => NodesKeep(env, s.nodes, h, id, Finished);
      case _ =>
    }
  }

  // ---------- Cancelling timers ----------

  lemma {:induction false} CancelCount(q: Queue<UserEvent>, id: nat, k: UserKey)
    ensures Bag(CancelTimers(q, id), EventKey)[k] == if k == TimerKey(id) then 0 else Bag(q, EventKey)[k]
  {
    if q != [] {
      CancelCount(q[1..], id, k);
      if q[0].1 != AckTimeout(id) {
        assert EventKey(q[0].1) != TimerKey(id);
        assert CancelTimers(q, id)[1..] == CancelTimers(q[1..], id);
      }
    }
  }

  lemma {:induction false} CancelMembers(q: Queue<UserEvent>, id: nat)
    ensures forall it :: it in CancelTimers(q, id) ==> it in q
  {
    if q != [] {
      CancelMembers(q[1..], id);
    }
  }

  lemma {:induction false} CancelSorted(q: Queue<UserEvent>, id: nat)
    requires Sorted(q)
    ensures Sorted(CancelTimers(q, id))
  {
    if q != [] {
      CancelSorted(q[1..], id);
      CancelMembers(q[1..], id);
      var rest := CancelTimers(q[1..], id);
      forall i | 0 <= i < |rest|
        ensures q[0].0 <= rest[i].0
      {
        assert rest[i] in q[1..];
      }
    }
  }

  lemma CancelUserCount(users: Users, u: UserId, id: nat, v: UserId, k: UserKey)
    requires u in users && v in users
    ensures UserBag(CancelAt(users, u, id), v)[k] == if v == u && k == TimerKey(id) then 0 else UserBag(users, v)[k]
  {
    CancelCount(users[u].events, id, k);
  }

  lemma CancelConserved(users: Users, h: History, u: UserId, id: nat)
    requires UsersConserved(users, h) && u in users && (id in h.timers ==> h.timers[id] == u)
    ensures UsersConserved(CancelAt(users, u, id), h.(timers := h.timers - {id}))
  {
    var users', h' := CancelAt(users, u, id), h.(timers := h.timers - {id});
    forall v, i | v in users'
      ensures UserBag(users', v)[HandoverKey(i)] == One(At(h', i, Arrived(v)))
    {
      CancelUserCount(users, u, id, v, HandoverKey(i));
    }
    forall v, i | v in users'
      ensures UserBag(users', v)[EgressKey(i)] == One(At(h', i, Queued(v)))
    {
      CancelUserCount(users, u, id, v, EgressKey(i));
    }
    forall v, i | v in users'
      ensures UserBag(users', v)[TimerKey(i)] == One(TimerAt(h', i, v))
    {
      CancelUserCount(users, u, id, v, TimerKey(i));
    }
  }

  lemma Cancel(env: Env, now: Timestamp, nodes: Nodes, users: Users, h: History, u: UserId, id: nat)
    requires Queues(env, now, nodes, users, h) && u in users && (id in h.timers ==> h.timers[id] == u)
    ensures Queues(env, now, nodes, CancelAt(users, u, id), h.(timers := h.timers - {id}))
  {
    CancelMembers(users[u].events, id);
    CancelSorted(users[u].events, id);
    CancelConserved(users, h, u, id);
    assert CancelAt(users, u, id).Keys == users.Keys;
    var h' := h.(timers := h.timers - {id});
    assert forall i, n :: At(h', i, Relayed(n)) == At(h, i, Relayed(n));
    assert forall i, n :: At(h', i, Acking(n)) == At(h, i, Acking(n));
  }

  // ---------- Changes that leave the queues alone ----------

  ghost predicate SameEvents(users: Users, users': Users) {
    users'.Keys == users.Keys && forall u :: u in users ==> users'[u].events == users[u].events
  }

  lemma SameEventsQueues(env: Env, now: Timestamp, nodes: Nodes, users: Users, users': Users, h: History)
    requires Queues(env, now, nodes, users, h) && SameEvents(users, users')
    ensures Queues(env, now, nodes, users', h)
  {
    assert forall u :: u in users ==> UserBag(users', u) == UserBag(users, u);
  }

  ghost predicate Grows(book: Book, book': Book) {
    && book.sets <= book'.sets && book.ids <= book'.ids && book.records <= book'.records
    && (forall id :: id in book.flights ==> id in book'.flights && book'.flights[id] == book.flights[id])
  }

  lemma NodeItemGrows(env: Env, nodes: set<NodeId>, users: set<UserId>, book: Book, book': Book,
                      it: (Timestamp, Packet))
    requires NodeItemOk(env, nodes, users, book, it) && Grows(book, book')
    ensures NodeItemOk(env, nodes, users, book', it)
  {
  }

  lemma UserItemGrows(env: Env, nodes: set<NodeId>, now: Timestamp, book: Book, book': Book, u: UserId,
                      it: (Timestamp, UserEvent))
    requires UserItemOk(env, nodes, now, book, u, it) && Grows(book, book')
    ensures UserItemOk(env, nodes, now, book', u, it)
  {
  }

  lemma GrowItems(env: Env, now: Timestamp, nodes: Nodes, users: Users, book: Book, book': Book)
    requires NodeItems(env, nodes, users.Keys, book) && UserItems(env, nodes.Keys, now, users, book)
    requires Grows(book, book')
    ensures NodeItems(env, nodes, users.Keys, book') && UserItems(env, nodes.Keys, now, users, book')
  {
    forall n, it | n in nodes && it in nodes[n].ingress
      ensures NodeItemOk(env, nodes.Keys, users.Keys, book', it)
    {
      NodeItemGrows(env, nodes.Keys, users.Keys, book, book', it);
    }
    forall u, it | u in users && it in users[u].events
      ensures UserItemOk(env, nodes.Keys, now, book', u, it)
    {
      UserItemGrows(env, nodes.Keys, now, book, book', u, it);
    }
  }

  /** New message identifiers that are in no queue yet. */
  ghost predicate Enlarges(h: History, h': History) {
    && Grows(h.book, h'.book) && h.stage <= h'.stage && h'.timers == h.timers
    && forall id :: |h.stage| <= id < |h'.stage| ==> Idle(h', id)
  }

  lemma GrowAt(h: History, h': History, id: nat, stage: Stage)
    requires Enlarges(h, h') && !stage.Finished? && !stage.Dropped?
    ensures At(h', id, stage) == At(h, id, stage)
  {
    if |h.stage| <= id < |h'.stage| {
      assert Idle(h', id);
    } else if id < |h.stage| {
      assert h.stage[id] == h'.stage[id];
    }
  }

  lemma GrowConserved(env: Env, nodes: Nodes, users: Users, h: History, h': History)
    requires NodesConserved(env, nodes, h) && UsersConserved(users, h) && Enlarges(h, h')
    ensures NodesConserved(env, nodes, h') && UsersConserved(users, h')
  {
    forall id, stage: Stage | !stage.Finished? && !stage.Dropped?
      ensures At(h', id, stage) == At(h, id, stage)
    {
      GrowAt(h, h', id, stage);
    }
    assert forall i, n :: TimerAt(h', i, n) == TimerAt(h, i, n);
  }

  lemma GrowQueues(env: Env, now: Timestamp, nodes: Nodes, users: Users, h: History, h': History)
    requires Queues(env, now, nodes, users, h) && Enlarges(h, h')
    ensures Queues(env, now, nodes, users, h')
  {
    GrowItems(env, now, nodes, users, h.book, h'.book);
    GrowConserved(env, nodes, users, h, h');
  }

  // ---------- A batch of packets enters a user ----------

  predicate BatchItemOk(env: Env, now: Timestamp, nodes: set<NodeId>, book: Book, u: UserId, id: nat, p: Packet) {
    Core(p).OfMessage? && MessageOf(p).id == id && UserItemOk(env, nodes, now, book, u, (now, Egress(p)))
  }

  /** Idle identifiers from `base` on are about to be queued at `u`. */
  ghost predicate BatchOk(env: Env, now: Timestamp, nodes: set<NodeId>, h: History, u: UserId, base: nat,
                          packets: seq<Packet>) {
    && base + |packets| <= |h.stage|
    && (forall i :: 0 <= i < |packets| ==> BatchItemOk(env, now, nodes, h.book, u, base + i, packets[i]))
    && (forall id :: base <= id < base + |packets| ==> Idle(h, id))
  }

  function BatchQueued(h: History, u: UserId, base: nat, count: nat): History
    requires base + count <= |h.stage|
  {
    h.(stage := h.stage[..base] + AllQueued(u, count) + h.stage[base + count..])
  }

  lemma BatchQueuedStep(h: History, u: UserId, base: nat, count: nat)
    requires base + count <= |h.stage| && 0 < count
    ensures BatchQueued(SetStage(h, base, Queued(u)), u, base + 1, count - 1) == BatchQueued(h, u, base, count)
  {
  }

  lemma PushEgress(env: Env, now: Timestamp, nodes: Nodes, users: Users, h: History, u: UserId, id: nat, p: Packet)
    requires Queues(env, now, nodes, users, h) && u in users && Idle(h, id)
    requires BatchItemOk(env, now, nodes.Keys, h.book, u, id, p)
    ensures Queues(env, now, nodes, PushEvent(users, u, now, Egress(p)), SetStage(h, id, Queued(u)))
  {
    PushUser(env, now, nodes, users, h, u, now, Egress(p));
  }

  lemma PushEgressesStep(users: Users, u: UserId, now: Timestamp, packets: seq<Packet>)
    requires u in users && packets != []
    ensures PushEgresses(users, u, now, packets)
         == PushEgresses(PushEvent(users, u, now, Egress(packets[0])), u, now, packets[1..])
  {
  }

  lemma {:induction false} PushBatch(env: Env, now: Timestamp, nodes: Nodes, users: Users, h: History, u: UserId,
                                     base: nat, packets: seq<Packet>)
    requires Queues(env, now, nodes, users, h) && u in users && BatchOk(env, now, nodes.Keys, h, u, base, packets)
    ensures Queues(env, now, nodes, PushEgresses(users, u, now, packets), BatchQueued(h, u, base, |packets|))
    decreases |packets|
  {
    hide Queues;
    if packets == [] {
      assert h.stage[..base] + AllQueued(u, 0) + h.stage[base..] == h.stage;
      assert users == PushEgresses(users, u, now, packets);
    } else {
      assert BatchItemOk(env, now, nodes.Keys, h.book, u, base + 0, packets[0]);
      PushEgress(env, now, nodes, users, h, u, base, packets[0]);
      BatchRest(env, now, nodes.Keys, h, u, base, packets);
      var users1, h1 := PushEvent(users, u, now, Egress(packets[0])), SetStage(h, base, Queued(u));
      PushBatch(env, now, nodes, users1, h1, u, base + 1, packets[1..]);
      PushEgressesStep(users, u, now, packets);
      BatchQueuedStep(h, u, base, |packets|);
    }
  }

  lemma BatchRest(env: Env, now: Timestamp, nodes: set<NodeId>, h: History, u: UserId, base: nat, packets: seq<Packet>)
    requires BatchOk(env, now, nodes, h, u, base, packets) && packets != []
    ensures BatchOk(env, now, nodes, SetStage(h, base, Queued(u)), u, base + 1, packets[1..])
  {
    forall i | 0 <= i < |packets[1..]|
      ensures BatchItemOk(env, now, nodes, h.book, u, base + 1 + i, packets[1..][i])
    {
      assert BatchItemOk(env, now, nodes, h.book, u, base + (i + 1), packets[i + 1]);
    }
    forall id | base + 1 <= id < base + |packets|
      ensures Idle(SetStage(h, base, Queued(u)), id)
    {
      assert Idle(h, id);
    }
  }
}
