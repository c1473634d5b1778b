/** The invariant of every run of the simulator. */
module LatencyInvariant {
  import opened EventQueue
  import opened LatencySim
  import opened LatencyHistory

  // ---------- Queues hold exactly what the history says ----------

  datatype NodeKey = MessageKey(id: nat) | AckKey(id: nat)

  function PacketKey(p: Packet): NodeKey {
    match Core(p)
    case OfMessage(m) => MessageKey(m.id)
    case OfAck(a) => AckKey(a.messageId)
  }

  datatype UserKey = HandoverKey(id: nat) | EgressKey(id: nat) | TimerKey(id: nat) | SendKey(numFrags: nat) | StrayKey

  function EventKey(e: UserEvent): UserKey {
    match e
    case Handover(m) => HandoverKey(m.id)
    case Egress(p) => if Core(p).OfMessage? then EgressKey(MessageOf(p).id) else StrayKey
    case AckTimeout(id) => TimerKey(id)
    case SendMessage(n) => SendKey(n)
  }

  ghost function NodeBag(nodes: Nodes, n: NodeId): multiset<NodeKey>
    requires n in nodes
  {
    Bag(nodes[n].ingress, PacketKey)
  }

  ghost function UserBag(users: Users, u: UserId): multiset<UserKey>
    requires u in users
  {
    Bag(users[u].events, EventKey)
  }

  predicate At(h: History, id: nat, stage: Stage) {
    id < |h.stage| && h.stage[id] == stage
  }

  predicate TimerAt(h: History, k: nat, u: UserId) {
    k in h.timers && h.timers[k] == u
  }

  function One(b: bool): nat { if b then 1 else 0 }

  ghost predicate NodesConserved(env: Env, nodes: Nodes, h: History) {
    && (forall n, id {:trigger NodeBag(nodes, n)[MessageKey(id)]} :: n in nodes ==>
          NodeBag(nodes, n)[MessageKey(id)] == One(At(h, id, Relayed(n))))
    && (env.strategy.PerFragment? ==> forall n, id {:trigger NodeBag(nodes, n)[AckKey(id)]} :: n in nodes ==>
          NodeBag(nodes, n)[AckKey(id)] == One(At(h, id, Acking(n))))
  }

  ghost predicate UsersConserved(users: Users, h: History) {
    && (forall u, id {:trigger UserBag(users, u)[HandoverKey(id)]} :: u in users ==>
          UserBag(users, u)[HandoverKey(id)] == One(At(h, id, Arrived(u))))
    && (forall u, id {:trigger UserBag(users, u)[EgressKey(id)]} :: u in users ==>
          UserBag(users, u)[EgressKey(id)] == One(At(h, id, Queued(u))))
    && (forall u, id {:trigger UserBag(users, u)[TimerKey(id)]} :: u in users ==>
          UserBag(users, u)[TimerKey(id)] == One(TimerAt(h, id, u)))
  }

  // ---------- The clock ----------

  ghost predicate NotBefore<T>(q: Queue<T>, t: Timestamp) {
    forall e :: e in q ==> t <= e.0
  }

  ghost predicate Clock(now: Timestamp, nodes: Nodes, users: Users) {
    && (forall n :: n in nodes ==> Sorted(nodes[n].ingress) && NotBefore(nodes[n].ingress, now))
    && (forall u :: u in users ==> Sorted(users[u].events) && NotBefore(users[u].events, now))
  }

  // ---------- Every queued item is well formed ----------

  predicate RouteOk(nodes: set<NodeId>, p: Packet) {
    p.destination in nodes && (p.content.OfPacket? ==> RouteOk(nodes, p.content.packet))
  }

  predicate MessageOk(env: Env, nodes: set<NodeId>, book: Book, m: Message) {
    && m.id < |book.ids| && m.fragmentSet < |book.sets|
    && book.ids[m.id] == IdInfo(m.fragmentSet, m.fragmentIndex, TotalDelay(m.ack))
    && m.sender == book.sets[m.fragmentSet].sender && m.recipient == book.sets[m.fragmentSet].recipient
    && m.fragmentSize == book.sets[m.fragmentSet].size && m.sendingTime == book.sets[m.fragmentSet].sendingTime
    && RouteOk(nodes, m.ack) && Core(m.ack) == OfAck(Ack(TimerId(env, m), m.sender))
  }

  /** The time at which a flying message is handed over to its recipient. */
  function HandoverTime(f: Flight): Timestamp { f.at + f.delay }

  /** What is still to come of the transit of `p` after its current node. */
  function Rest(p: Packet): nat { TotalDelay(p) - p.delay }

  /** An acknowledgement that leaves its node at `t`, under PerFragment. */
  predicate AckOk(book: Book, a: Ack, t: Timestamp, rest: nat) {
    && a.messageId < |book.ids| && book.ids[a.messageId].fragmentSet < |book.sets|
    && a.recipient == book.sets[book.ids[a.messageId].fragmentSet].sender
    && a.messageId in book.flights
    && t + rest == HandoverTime(book.flights[a.messageId]) + book.ids[a.messageId].ackDelay
  }

  predicate NodeItemOk(env: Env, nodes: set<NodeId>, users: set<UserId>, book: Book, it: (Timestamp, Packet)) {
    && RouteOk(nodes, it.1)
    && match Core(it.1)
       case OfMessage(m) =>
         && MessageOk(env, nodes, book, m) && m.recipient in users
         && m.id in book.flights && it.0 + Rest(it.1) == HandoverTime(book.flights[m.id])
       case OfAck(a) =>
         && a.recipient in users
         && match env.strategy
            case PerFragment => AckOk(book, a, it.0, Rest(it.1))
            case WholeMessage => a.messageId in book.records && a.messageId < |book.sets|
                                 && a.recipient == book.sets[a.messageId].sender
  }

  predicate UserItemOk(env: Env, nodes: set<NodeId>, now: Timestamp, book: Book, u: UserId,
                       it: (Timestamp, UserEvent)) {
    match it.1
    case Handover(m) =>
      && MessageOk(env, nodes, book, m) && u == m.recipient
      && m.id in book.flights && it.0 == HandoverTime(book.flights[m.id])
    case Egress(p) =>
      && it.0 <= now
      && RouteOk(nodes, p) && Core(p).OfMessage?
      && MessageOk(env, nodes, book, MessageOf(p)) && u == MessageOf(p).sender
    case AckTimeout(id) =>
      env.strategy.PerFragment? ==> id in book.flights && it.0 == book.flights[id].at + book.flights[id].timeout
    case SendMessage(_) => true
  }

  ghost predicate NodeItems(env: Env, nodes: Nodes, users: set<UserId>, book: Book) {
    forall n, it :: n in nodes && it in nodes[n].ingress ==> NodeItemOk(env, nodes.Keys, users, book, it)
  }

  ghost predicate UserItems(env: Env, nodes: set<NodeId>, now: Timestamp, users: Users, book: Book) {
    forall u, it :: u in users && it in users[u].events ==> UserItemOk(env, nodes, now, book, u, it)
  }

  /** All that is true of the queues: their order, their contents, and the well-formedness of each entry.
      Every message copy sits in exactly one queue, the one of its stage, and likewise every timer and,
      under PerFragment, every acknowledgement. */
  ghost predicate Queues(env: Env, now: Timestamp, nodes: Nodes, users: Users, h: History) {
    && Clock(now, nodes, users)
    && NodesConserved(env, nodes, h) && UsersConserved(users, h)
    && NodeItems(env, nodes, users.Keys, h.book) && UserItems(env, nodes.Keys, now, users, h.book)
  }

  // ---------- Books ----------

  /** The message built for fragment `i` of set `k` has the identifier that the set's base says. */
  predicate Slot(book: Book, k: nat, i: nat)
    requires k < |book.sets|
  {
    var id := book.sets[k].base + i;
    id < |book.ids| && book.ids[id].fragmentSet == k && book.ids[id].index == i
  }

  ghost predicate SetOk(env: Env, users: set<UserId>, now: Timestamp, book: Book, k: nat)
    requires k < |book.sets|
  {
    var info := book.sets[k];
    && info.sender in users && info.recipient in users && info.sendingTime <= now
    && info.root <= k && book.sets[info.root].root == info.root
    && (forall i: nat :: i < info.size ==> Slot(book, k, i))
    && (env.strategy.PerFragment? ==> info.root == k)
  }

  predicate IdOk(env: Env, book: Book, id: nat)
    requires id < |book.ids|
  {
    var info := book.ids[id];
    && info.fragmentSet < |book.sets| && info.index < book.sets[info.fragmentSet].size
    && (env.strategy.WholeMessage? ==> id == book.sets[info.fragmentSet].base + info.index)
  }

  ghost predicate BookOk(env: Env, users: set<UserId>, now: Timestamp, book: Book) {
    && (forall k :: 0 <= k < |book.sets| ==> SetOk(env, users, now, book, k))
    && (forall id :: 0 <= id < |book.ids| ==> IdOk(env, book, id))
    && (forall id :: id in book.flights ==> id < |book.ids|)
    && (forall i :: 0 <= i < |book.records| ==> book.records[i] < |book.sets|)
  }

  predicate StageOk(env: Env, nodes: set<NodeId>, h: History, id: nat)
    requires id < |h.stage|
  {
    && id < |h.book.ids| && IdOk(env, h.book, id)
    && (id in h.book.flights <==> !h.stage[id].Queued?)
    && match h.stage[id]
       case Queued(u) => u == h.book.sets[h.book.ids[id].fragmentSet].sender
       case Relayed(n) => n in nodes
       case Arrived(u) => u == h.book.sets[h.book.ids[id].fragmentSet].recipient
       case Acking(n) => n in nodes && env.strategy.PerFragment?
       case _ => true
  }

  ghost predicate StagesOk(env: Env, nodes: set<NodeId>, h: History) {
    |h.stage| == |h.book.ids| && forall id :: 0 <= id < |h.stage| ==> StageOk(env, nodes, h, id)
  }

  predicate OriginalOk(env: Env, nodes: set<NodeId>, book: Book, u: UserId, k: nat, m: Message) {
    MessageOk(env, nodes, book, m) && m.sender == u && TimerId(env, m) == k
  }

  predicate FragmentsOk(book: Book, u: UserId, user: UserState, k: nat)
    requires k in user.fragments
  {
    && k < |book.sets| && book.sets[k].recipient == u && k in user.tFirst
    && user.fragments[k] != {} && (forall i :: i in user.fragments[k] ==> i < book.sets[k].size)
    && (|user.fragments[k]| == book.sets[k].size ==> k in book.records)
  }

  predicate FirstOk(now: Timestamp, book: Book, k: nat, t: Timestamp) {
    k < |book.sets| && book.sets[k].sendingTime <= t <= now
  }

  ghost predicate MemoryOk(env: Env, nodes: set<NodeId>, now: Timestamp, book: Book, u: UserId, user: UserState) {
    && (forall k :: k in user.originals ==> OriginalOk(env, nodes, book, u, k, user.originals[k]))
    && (forall k :: k in user.fragments ==> FragmentsOk(book, u, user, k))
    && (forall k :: k in user.tFirst ==> FirstOk(now, book, k, user.tFirst[k]))
  }

  ghost predicate MemoriesOk(env: Env, nodes: set<NodeId>, now: Timestamp, book: Book, users: Users) {
    forall u :: u in users ==> MemoryOk(env, nodes, now, book, u, users[u])
  }

  ghost predicate TimersOk(users: Users, timers: map<nat, UserId>) {
    forall k :: k in timers ==> timers[k] in users && k in users[timers[k]].originals
  }

  ghost predicate Tally(s: State, book: Book) {
    && 1 in s.users && (forall d: nat :: d < NodeRange(s) ==> d in s.nodes)
    && |book.sets| == s.nextFragmentSet && |book.ids| == s.nextMessageId
    && |s.deliveryTimes| == |s.firstToLast| == |book.records|
    && (forall i :: 0 <= i < |s.deliveryTimes| ==> s.firstToLast[i] <= s.deliveryTimes[i])
  }

  ghost predicate Books(env: Env, s: State, h: History) {
    && Tally(s, h.book)
    && BookOk(env, s.users.Keys, s.timestamp, h.book)
    && StagesOk(env, s.nodes.Keys, h)
    && MemoriesOk(env, s.nodes.Keys, s.timestamp, h.book, s.users)
    && TimersOk(s.users, h.timers)
  }

  // ---------- Nothing is lost ----------

  predicate Holds(users: Users, u: UserId, k: nat, i: nat) {
    u in users && k in users[u].fragments && i in users[u].fragments[k]
  }

  predicate Received(users: Users, book: Book, k: nat, i: nat) {
    k < |book.sets| && Holds(users, book.sets[k].recipient, k, i)
  }

  predicate Waiting(h: History, id: nat) {
    (id < |h.stage| && h.stage[id].Queued?) || id in h.timers
  }

  predicate IsCurrent(h: History, id: nat) {
    id < |h.book.ids| && var f := (h.book.ids[id].fragmentSet, h.book.ids[id].index);
    f in h.current && h.current[f] == id
  }

  predicate FragmentLive(users: Users, h: History, k: nat, i: nat) {
    && (k, i) in h.current
    && var id := h.current[(k, i)];
       id < |h.book.ids| && h.book.ids[id].fragmentSet == k && h.book.ids[id].index == i
       && (Waiting(h, id) || Received(users, h.book, k, i))
  }

  /** PerFragment: every fragment is queued, or timed, or has been received, and only its latest copy is
      queued or timed; an acknowledgement is sent only for what has been received, and it ends the timer. */
  ghost predicate FragmentsLive(users: Users, h: History) {
    && (forall id :: Waiting(h, id) ==> IsCurrent(h, id))
    && (forall id :: id in h.timers ==> id < |h.stage| && !h.stage[id].Queued? && !h.stage[id].Finished?)
    && (forall k: nat, i: nat :: k < |h.book.sets| && i < h.book.sets[k].size ==> FragmentLive(users, h, k, i))
    && (forall id :: 0 <= id < |h.stage| && id < |h.book.ids| && (h.stage[id].Acking? || h.stage[id].Finished?) ==>
          Received(users, h.book, h.book.ids[id].fragmentSet, h.book.ids[id].index))
  }

  ghost predicate RootRecorded(book: Book, r: nat) {
    exists k :: k in book.records && k < |book.sets| && book.sets[k].root == r
  }

  predicate QueuedIn(h: History, id: nat, k: nat) {
    id < |h.book.ids| && id < |h.stage| && h.book.ids[id].fragmentSet == k && h.stage[id].Queued?
  }

  ghost predicate SetPending(h: History, k: nat) {
    k in h.timers || exists id: nat :: QueuedIn(h, id, k)
  }

  ghost predicate RootPending(h: History, r: nat) {
    exists k :: 0 <= k < |h.book.sets| && h.book.sets[k].root == r && SetPending(h, k)
  }

  /** WholeMessage: a SendMessage event has been recorded, or one of the sets built for it is queued or timed. */
  ghost predicate RootsLive(users: Users, h: History) {
    && (forall r :: 0 <= r < |h.book.sets| && h.book.sets[r].root == r && 0 < h.book.sets[r].size ==>
          RootRecorded(h.book, r) || RootPending(h, r))
    && (forall u, k :: u in users && k in users[u].originals && k < |h.book.sets| ==>
          k in h.timers || RootRecorded(h.book, h.book.sets[k].root))
  }

  predicate SlotFinished(h: History, k: nat, i: nat)
    requires k < |h.book.sets|
  {
    At(h, h.book.sets[k].base + i, Finished)
  }

  ghost predicate NoRepeats<T>(xs: seq<T>) {
    forall i, j :: 0 <= i < j < |xs| ==> xs[i] != xs[j]
  }

  /** WholeMessage: what has been received cannot arrive again, so no set is recorded twice. */
  ghost predicate OnceEach(users: Users, h: History) {
    && (forall u, k: nat, i: nat :: k < |h.book.sets| && Holds(users, u, k, i) ==> SlotFinished(h, k, i))
    && (forall k: nat, i: nat :: k in h.book.records && k < |h.book.sets| && i < h.book.sets[k].size ==>
          SlotFinished(h, k, i))
    && NoRepeats(h.book.records)
  }

  /** Is `a` a timer of the set of which `b` sends a fragment? */
  predicate Overtakes(a: UserEvent, b: UserEvent) {
    a.AckTimeout? && b.Egress? && Core(b.packet).OfMessage? && MessageOf(b.packet).fragmentSet == a.id
  }

  /** WholeMessage: no timer of a set is ahead of a queued fragment of that set. */
  ghost predicate EgressFirst(q: Queue<UserEvent>) {
    forall i, j :: 0 <= i < j < |q| ==> !Overtakes(q[i].1, q[j].1)
  }

  ghost predicate EgressesFirst(users: Users) {
    forall u :: u in users ==> EgressFirst(users[u].events)
  }

  ghost predicate Live(env: Env, users: Users, h: History) {
    match env.strategy
    case PerFragment => FragmentsLive(users, h)
    case WholeMessage => RootsLive(users, h) && OnceEach(users, h) && EgressesFirst(users)
  }

  ghost predicate Inv(env: Env, w: World) {
    && Queues(env, w.s.timestamp, w.s.nodes, w.s.users, w.h)
    && Books(env, w.s, w.h)
    && Live(env, w.s.users, w.h)
  }
}
