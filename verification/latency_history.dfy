/** What a run of the simulator is about, kept beside its state: the stage that every message copy has
    reached, the armed timers, and which fragment set each delivery record belongs to. */
module LatencyHistory {
  import opened EventQueue
  import opened LatencySim

  /** A fragment set; `root` is the set first built for the same SendMessage event, and `base` the
      identifier of the message built for its fragment 0. */
  datatype SetInfo = SetInfo(root: nat, sender: UserId, recipient: UserId, size: nat, sendingTime: Timestamp, base: nat)

  /** A message identifier: its fragment and the total delay of its acknowledgement. */
  datatype IdInfo = IdInfo(fragmentSet: nat, index: nat, ackDelay: nat)

  datatype Stage =
    | Queued(user: UserId)
    | Relayed(node: NodeId)
    | Arrived(user: UserId)
    | Acking(node: NodeId)
    | Finished
    | Dropped

  /** A message that has left its sender: when, and with which total delay and timeout. */
  datatype Flight = Flight(at: Timestamp, delay: nat, timeout: nat)

  /** What only grows: the sets and the message identifiers so far, the flights, and the fragment set of
      each delivery record. */
  datatype Book = Book(sets: seq<SetInfo>, ids: seq<IdInfo>, flights: map<nat, Flight>, records: seq<nat>)

  /** `stage` is indexed by message identifiers; `timers` maps the identifier of an armed timer to its
      user; `current` maps a fragment to its latest message. */
  datatype History = History(book: Book, stage: seq<Stage>, timers: map<nat, UserId>, current: map<(nat, nat), nat>)

  datatype World = World(s: State, h: History)

  function SetStage(h: History, id: nat, stage: Stage): History {
    if id < |h.stage| then h.(stage := h.stage[id := stage]) else h
  }

  ghost function Advance(env: Env, s: State, h: History, who: Who): History
    requires IsNext(s, who)
  {
    match who
    case AtNode(n) => AdvanceNode(env, h, s.nodes[n].ingress[0].1.content)
    case AtUser(u) =>
      var s1 := Popped(s, u);
      match s.users[u].events[0].1
      case Handover(m) => AfterHandover(env, s1, h, u, m)
      case Egress(p) => if Core(p).OfMessage? then AfterEgress(env, s1, h, u, p) else h
      case SendMessage(n) =>
        var info := SetInfo(|h.book.sets|, u, 1, n, s1.timestamp, |h.book.ids|);
        AfterBuild(h, u, info, Packets(env, s1, u, 1, n))
      case AckTimeout(id) => if id in s1.users[u].originals then AfterTimeout(env, s1, h, u, id) else h
  }

  function AdvanceNode(env: Env, h: History, content: Content): History {
    match content
    case OfMessage(m) => SetStage(h, m.id, Arrived(m.recipient))
    case OfAck(a) =>
      var h1 := h.(timers := h.timers - {a.messageId});
      if env.strategy.PerFragment? then SetStage(h1, a.messageId, Finished) else h1
    case OfPacket(q) =>
      match Core(q)
      case OfMessage(m) => SetStage(h, m.id, Relayed(q.destination))
      case OfAck(a) => if env.strategy.PerFragment? then SetStage(h, a.messageId, Acking(q.destination)) else h
  }

  function AfterHandover(env: Env, s: State, h: History, u: UserId, m: Message): History
    requires u in s.users
  {
    var h1 := SetStage(h, m.id, if env.strategy.PerFragment? then Acking(m.ack.destination) else Finished);
    if Complete(Marked(s.users[u], m, s.timestamp), m)
    then h1.(book := h.book.(records := h.book.records + [m.fragmentSet])) else h1
  }

  function FlightOf(env: Env, now: Timestamp, p: Packet): Flight {
    Flight(now, TotalDelay(p), env.timeout(TotalDelay(p)))
  }

  function AfterEgress(env: Env, s: State, h: History, u: UserId, p: Packet): History
    requires u in s.users && Core(p).OfMessage?
  {
    var m := MessageOf(p);
    var stage := if Survives(env, s.cursor, s.users[u]) then Relayed(p.destination) else Dropped;
    var book := h.book.(flights := h.book.flights[m.id := FlightOf(env, s.timestamp, p)]);
    var h1 := SetStage(h, m.id, stage).(book := book);
    if SetsTimer(env, s.users[u], m) then h1.(timers := h.timers[TimerId(env, m) := u]) else h1
  }

  ghost function Packets(env: Env, s: State, sender: UserId, recipient: UserId, size: nat): (ps: seq<Packet>)
    ensures |ps| == size
    ensures forall p :: p in ps ==> Core(p).OfMessage?
  {
    var b := BatchAt(s, sender, recipient, size);
    FragmentsCarryMessages(env, b, 0, s.nextMessageId, s.cursor);
    Fragments(env, s, b)
  }

  function Info(p: Packet): IdInfo
    requires Core(p).OfMessage?
  {
    var m := MessageOf(p);
    IdInfo(m.fragmentSet, m.fragmentIndex, TotalDelay(m.ack))
  }

  function Infos(packets: seq<Packet>): (r: seq<IdInfo>)
    requires forall p :: p in packets ==> Core(p).OfMessage?
    ensures |r| == |packets|
  {
    seq(|packets|, i requires 0 <= i < |packets| => Info(packets[i]))
  }

  function AllQueued(u: UserId, n: nat): (r: seq<Stage>)
    ensures |r| == n
  {
    seq(n, _ => Queued(u))
  }

  /** A new fragment set, whose packets are queued at `u`. */
  function AfterBuild(h: History, u: UserId, info: SetInfo, packets: seq<Packet>): History
    requires forall p :: p in packets ==> Core(p).OfMessage?
  {
    var k, base := |h.book.sets|, |h.book.ids|;
    h.(book := h.book.(sets := h.book.sets + [info], ids := h.book.ids + Infos(packets)),
       stage := h.stage + AllQueued(u, |packets|),
       current := h.current + map i: nat | 0 <= i < |packets| :: (k, i) := base + i)
  }

  ghost function AfterTimeout(env: Env, s: State, h: History, u: UserId, id: nat): History
    requires u in s.users && id in s.users[u].originals
  {
    var m := s.users[u].originals[id];
    var h1 := h.(timers := h.timers - {id});
    match env.strategy
    case PerFragment =>
      var info := IdInfo(m.fragmentSet, m.fragmentIndex, TotalDelay(Renewed(env, s, u, m).ack));
      h1.(book := h.book.(ids := h.book.ids + [info]), stage := h.stage + [Queued(u)],
          current := h.current[(m.fragmentSet, m.fragmentIndex) := |h.book.ids|])
    case WholeMessage =>
      var root := if id < |h.book.sets| then h.book.sets[id].root else id;
      var info := SetInfo(root, m.sender, m.recipient, m.fragmentSize, m.sendingTime, |h.book.ids|);
      AfterBuild(h1, u, info, Packets(env, s, m.sender, m.recipient, m.fragmentSize))
  }

  // ---------- Runs ----------

  ghost predicate CanStep(env: Env, w: World, who: Who) {
    IsNext(w.s, who) && Fire(env, w.s, who).Stepped?
  }

  ghost function After(env: Env, w: World, who: Who): World
    requires CanStep(env, w, who)
  {
    World(Fire(env, w.s, who).state, Advance(env, w.s, w.h, who))
  }

  /** Nothing has happened yet: only SendMessage events are waiting, sorted by time. */
  ghost predicate Unstarted(s: State) {
    && s.timestamp == 0
    && Contiguous(s.nodes.Keys) && Contiguous(s.users.Keys)
    && (forall n :: n in s.nodes ==> s.nodes[n].ingress == [])
    && (forall u :: u in s.users ==>
          && Sorted(s.users[u].events)
          && (forall e :: e in s.users[u].events ==> e.1.SendMessage?)
          && s.users[u].fragments == map[] && s.users[u].tFirst == map[] && s.users[u].originals == map[])
    && s.deliveryTimes == [] && s.firstToLast == []
    && s.nextMessageId == 0 && s.nextFragmentSet == 0 && s.packetCount == 0
  }

  /** Moreover there is a node, and user 1 exists. */
  ghost predicate Initial(s: State) {
    Unstarted(s) && 1 <= |s.nodes.Keys| && 2 <= |s.users.Keys|
  }

  const NO_HISTORY := History(Book([], [], map[], []), [], map[], map[])

  ghost predicate Start(w: World) {
    Initial(w.s) && w.h == NO_HISTORY
  }

  ghost predicate StepsTo(env: Env, w: World, who: Who, w': World) {
    CanStep(env, w, who) && w' == After(env, w, who)
  }

  /** A run passes the worlds of `trace`, one step of `schedule` after the other. */
  ghost predicate Passes(env: Env, trace: seq<World>, schedule: seq<Who>) {
    && |trace| == |schedule| + 1
    && forall i {:trigger schedule[i]} :: 0 <= i < |schedule| ==> StepsTo(env, trace[i], schedule[i], trace[i + 1])
  }

  /** `schedule` leads from `w` to `w'`, one step at a time. */
  ghost predicate Leads(env: Env, w: World, schedule: seq<Who>, w': World) {
    exists trace :: Passes(env, trace, schedule) && trace[0] == w && trace[|schedule|] == w'
  }

  lemma LeadsNowhere(env: Env, w: World, w': World)
    requires Leads(env, w, [], w')
    ensures w == w'
  {
  }

  lemma LeadsOn(env: Env, w: World, schedule: seq<Who>, w': World)
    requires Leads(env, w, schedule, w') && schedule != []
    ensures CanStep(env, w, schedule[0]) && Leads(env, After(env, w, schedule[0]), schedule[1..], w')
  {
    hide CanStep, After;
    var trace :| Passes(env, trace, schedule) && trace[0] == w && trace[|schedule|] == w';
    var rest := trace[1..];
    assert StepsTo(env, trace[0], schedule[0], trace[1]);
    forall i | 0 <= i < |schedule[1..]|
      ensures StepsTo(env, rest[i], schedule[1..][i], rest[i + 1])
    {
      assert schedule[1..][i] == schedule[i + 1] && rest[i] == trace[i + 1] && rest[i + 1] == trace[i + 2];
    }
    assert Passes(env, rest, schedule[1..]);
  }

  lemma LeadsFurther(env: Env, w0: World, schedule: seq<Who>, w: World, who: Who)
    requires Leads(env, w0, schedule, w) && CanStep(env, w, who)
    ensures Leads(env, w0, schedule + [who], After(env, w, who))
  {
    hide CanStep, After;
    var trace :| Passes(env, trace, schedule) && trace[0] == w0 && trace[|schedule|] == w;
    var more, longer := trace + [After(env, w, who)], schedule + [who];
    forall i | 0 <= i < |longer|
      ensures StepsTo(env, more[i], longer[i], more[i + 1])
    {
      if i < |schedule| {
        assert longer[i] == schedule[i] && more[i] == trace[i] && more[i + 1] == trace[i + 1];
      }
    }
    assert Passes(env, more, longer);
  }

  /** How many steps of a run from `w` meet `p`. */
  ghost function Steps(env: Env, w: World, schedule: seq<Who>, p: (World, Who) -> bool): nat
    decreases |schedule|
  {
    if schedule == [] || !CanStep(env, w, schedule[0]) then 0
    else (if p(w, schedule[0]) then 1 else 0) + Steps(env, After(env, w, schedule[0]), schedule[1..], p)
  }

  lemma {:induction false} StepsMonotone(env: Env, w: World, schedule: seq<Who>, p: (World, Who) -> bool,
                                         q: (World, Who) -> bool)
    requires forall v, who :: p(v, who) ==> q(v, who)
    ensures Steps(env, w, schedule, p) <= Steps(env, w, schedule, q)
    decreases |schedule|
  {
    hide CanStep, After;
    if schedule != [] && CanStep(env, w, schedule[0]) {
      StepsMonotone(env, After(env, w, schedule[0]), schedule[1..], p, q);
    }
  }

  ghost predicate Reachable(env: Env, w: World) {
    exists w0, schedule :: Start(w0) && Leads(env, w0, schedule, w)
  }
}
