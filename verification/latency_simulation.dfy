/** The simulator as it is written: nodes, users and a simulation that are updated in place. Each method
    is proved to do what the functions of LatencySim say. */
module LatencySimulation {
  import opened Wrappers
  import opened EventQueue
  import opened LatencySim
  import opened LatencyHistory
  import opened LatencyRuns
  import opened LatencyDraws
  import opened LatencyTotals

  class Node {
    var ingress: Queue<Packet>

    constructor ()
      ensures ingress == []
    {
      ingress := [];
    }

    method Insert(timestamp: Timestamp, packet: Packet)
      modifies this
      ensures ingress == EventQueue.Insert(old(ingress), timestamp, packet)
    {
      var idx := PartitionPoint(ingress, timestamp);
      ingress := ingress[..idx] + [(timestamp, packet)] + ingress[idx..];
    }

    function Next(): (t: Option<Timestamp>)
      reads this
      ensures t.None? <==> ingress == []
      ensures t.Some? ==> t.value == ingress[0].0
    {
      if ingress == [] then None else Some(ingress[0].0)
    }

    method Pop() returns (packet: Packet)
      requires ingress != []
      modifies this
      ensures packet == old(ingress[0].1) && ingress == old(ingress[1..])
    {
      packet := ingress[0].1;
      ingress := ingress[1..];
    }
  }

  /** `kept` are the entries of `q` at the increasing `places`, and only timers of `id` are missing. */
  ghost predicate Retains(q: Queue<UserEvent>, id: nat, kept: Queue<UserEvent>, places: seq<nat>) {
    && |kept| == |places|
    && (forall k :: 0 <= k < |places| ==> places[k] < |q| && kept[k] == q[places[k]])
    && (forall j, k :: 0 <= j < k < |places| ==> places[j] < places[k])
    && (forall i: nat :: i < |q| ==> (i in places <==> q[i].1 != AckTimeout(id)))
  }

  /** After `i` entries, `kept` is what was retained of them, and it agrees with `CancelTimers`. */
  ghost predicate RetainedSoFar(q: Queue<UserEvent>, i: nat, id: nat, kept: Queue<UserEvent>, places: seq<nat>) {
    && i <= |q| && Retains(q[..i], id, kept, places)
    && kept + CancelTimers(q[i..], id) == CancelTimers(q, id)
  }

  lemma RetainStarts(q: Queue<UserEvent>, id: nat)
    ensures RetainedSoFar(q, 0, id, [], [])
  {
    assert q[0..] == q;
  }

  lemma RetainStep(q: Queue<UserEvent>, i: nat, id: nat, kept: Queue<UserEvent>, places: seq<nat>)
    requires i < |q| && RetainedSoFar(q, i, id, kept, places)
    ensures if q[i].1 == AckTimeout(id) then RetainedSoFar(q, i + 1, id, kept, places)
            else RetainedSoFar(q, i + 1, id, kept + [q[i]], places + [i])
  {
    hide Retains;
    RetainsNext(q, i, id, kept, places);
    var rest := CancelTimers(q[i + 1..], id);
    assert q[i..][0] == q[i] && q[i..][1..] == q[i + 1..];
    assert kept + ([q[i]] + rest) == (kept + [q[i]]) + rest;
  }

  lemma RetainEnds(q: Queue<UserEvent>, id: nat, kept: Queue<UserEvent>, places: seq<nat>)
    requires RetainedSoFar(q, |q|, id, kept, places)
    ensures Retains(q, id, kept, places) && kept == CancelTimers(q, id)
  {
    assert q[..|q|] == q && q[|q|..] == [] && kept + [] == kept;
  }

  lemma RetainsNext(q: Queue<UserEvent>, i: nat, id: nat, kept: Queue<UserEvent>, places: seq<nat>)
    requires i < |q| && Retains(q[..i], id, kept, places)
    ensures if q[i].1 == AckTimeout(id) then Retains(q[..i + 1], id, kept, places)
            else Retains(q[..i + 1], id, kept + [q[i]], places + [i])
  {
    forall j: nat | j < i + 1
      ensures j in places <==> j < i && q[j].1 != AckTimeout(id)
    {
      if j < i { assert q[..i][j] == q[j]; }
    }
    var more := places + [i];
    assert forall j: nat :: j in more <==> j in places || j == i;
  }

  class User {
    var events: Queue<UserEvent>
    var fragments: map<nat, set<nat>>
    var tFirst: map<nat, Timestamp>
    var originals: map<nat, Message>
    var dropChance: nat

    ghost function Abs(): UserState
      reads this
    {
      UserState(events, fragments, tFirst, originals, dropChance)
    }

    constructor ()
      ensures Abs() == UserState([], map[], map[], map[], 0)
    {
      events, fragments, tFirst, originals, dropChance := [], map[], map[], map[], 0;
    }

    method Insert(timestamp: Timestamp, event: UserEvent)
      modifies this
      ensures Abs() == old(Abs()).(events := EventQueue.Insert(old(events), timestamp, event))
    {
      var idx := PartitionPoint(events, timestamp);
      events := events[..idx] + [(timestamp, event)] + events[idx..];
    }

    function Next(): (t: Option<Timestamp>)
      reads this
      ensures t.None? <==> events == []
      ensures t.Some? ==> t.value == events[0].0
    {
      if events == [] then None else Some(events[0].0)
    }

    method Pop() returns (event: UserEvent)
      requires events != []
      modifies this
      ensures event == old(events[0].1) && Abs() == old(Abs()).(events := old(events[1..]))
    {
      event := events[0].1;
      events := events[1..];
    }

    /** An acknowledgement arrived: all events but the timers of `id` are retained, in their order. */
    method Retain(id: nat)
      modifies this
      ensures exists places :: Retains(old(events), id, events, places)
      ensures Abs() == old(Abs()).(events := CancelTimers(old(events), id))
    {
      hide RetainedSoFar, Retains, CancelTimers;
      var kept: Queue<UserEvent> := [];
      ghost var places: seq<nat> := [];
      RetainStarts(events, id);
      for i := 0 to |events|
        invariant events == old(events) && Abs() == old(Abs()) && RetainedSoFar(events, i, id, kept, places)
      {
        RetainStep(events, i, id, kept, places);
        if events[i].1 != AckTimeout(id) {
          kept := kept + [events[i]];
          places := places + [i];
        }
      }
      RetainEnds(events, id, kept, places);
      events := kept;
    }

    method MarkFragment(fragmentSet: nat, index: nat)
      modifies this
      ensures var seen := if fragmentSet in old(fragments) then old(fragments)[fragmentSet] else {};
              Abs() == old(Abs()).(fragments := old(fragments)[fragmentSet := seen + {index}])
    {
      if fragmentSet !in fragments {
        fragments := fragments[fragmentSet := {}];
      }
      fragments := fragments[fragmentSet := fragments[fragmentSet] + {index}];
    }

    function FragmentSetSize(fragmentSet: nat): (n: nat)
      reads this
      ensures n == 0 <==> fragmentSet !in fragments || fragments[fragmentSet] == {}
      ensures fragmentSet in fragments ==> n == |fragments[fragmentSet]|
    {
      if fragmentSet in fragments then |fragments[fragmentSet]| else 0
    }

    /** What `step` does with the user when message `m` is handed over: note the first arrival and mark
        the fragment. */
    method Take(m: Message, now: Timestamp)
      modifies this
      ensures Abs() == Marked(old(Abs()), m, now)
      ensures tFirst == if m.fragmentSet in old(tFirst) then old(tFirst) else old(tFirst)[m.fragmentSet := now]
      ensures m.fragmentSet in fragments && events == old(events) && originals == old(originals)
      ensures fragments == old(fragments)[m.fragmentSet := fragments[m.fragmentSet]]
      ensures forall i :: i in fragments[m.fragmentSet] <==>
                i == m.fragmentIndex || (m.fragmentSet in old(fragments) && i in old(fragments[m.fragmentSet]))
    {
      if m.fragmentSet !in tFirst {
        tFirst := tFirst[m.fragmentSet := now];
      }
      MarkFragment(m.fragmentSet, m.fragmentIndex);
    }
  }

  /** Does some run of `n` steps from the initial state `s0` lead to `s`? */
  ghost predicate RunOf(env: Env, s0: State, s: State, n: nat) {
    Initial(s0) && exists schedule, h :: |schedule| == n && Leads(env, World(s0, NO_HISTORY), schedule, World(s, h))
  }

  ghost predicate RunFrom(env: Env, s0: State, s: State) {
    exists n :: RunOf(env, s0, s, n)
  }

  lemma RunStarts(env: Env, s0: State)
    requires Initial(s0)
    ensures RunOf(env, s0, s0, 0)
  {
    var w0 := World(s0, NO_HISTORY);
    assert Passes(env, [w0], []) && [w0][0] == w0;
    var schedule: seq<Who> := [];
    assert |schedule| == 0 && Leads(env, w0, schedule, World(s0, NO_HISTORY));
  }

  /** In a run no step fails, and a step leads further. */
  lemma RunFurther(env: Env, s0: State, s: State, n: nat, who: Who)
    requires RunOf(env, s0, s, n) && IsNext(s, who)
    ensures Fire(env, s, who).Stepped? && RunOf(env, s0, Fire(env, s, who).state, n + 1)
  {
    hide Fire, IsNext;
    var w0 := World(s0, NO_HISTORY);
    var schedule, h :| |schedule| == n && Leads(env, w0, schedule, World(s, h));
    var w := World(s, h);
    assert Start(w0);
    NoStepFails(env, w);
    LeadsFurther(env, w0, schedule, w, who);
    var w' := After(env, w, who);
    var longer := schedule + [who];
    assert |longer| == n + 1 && Leads(env, w0, longer, World(w'.s, w'.h));
  }

  /** A run that has halted has delivered everything. */
  lemma RunDelivers(env: Env, s0: State, s: State)
    requires RunFrom(env, s0, s) && NoMoreEvents(s)
    ensures MessagesToSend(s0.users) <= |s.deliveryTimes| == |s.firstToLast|
  {
    hide NoMoreEvents, MessagesToSend;
    var n :| RunOf(env, s0, s, n);
    var w0 := World(s0, NO_HISTORY);
    var schedule, h :| |schedule| == n && Leads(env, w0, schedule, World(s, h));
    assert Start(w0);
    EnoughDeliveries(env, w0, schedule, World(s, h));
  }

  /** Identifiers are handed out without gaps. */
  lemma NextOfContiguous(ids: set<nat>)
    requires Contiguous(ids)
    ensures NextId(ids) == |ids| && Contiguous(ids + {NextId(ids)})
  {
    if ids != {} {
      RangeOfContiguous(ids);
    }
    assert |ids| !in ids;
    assert |ids + {|ids|}| == |ids| + 1;
  }

  lemma NodeAddedIsUnstarted(s: State, id: NodeId)
    requires Unstarted(s) && id == NextId(s.nodes.Keys)
    ensures Unstarted(s.(nodes := s.nodes[id := NodeState([])]))
  {
    NextOfContiguous(s.nodes.Keys);
    assert s.nodes[id := NodeState([])].Keys == s.nodes.Keys + {id};
  }

  lemma UserAddedIsUnstarted(s: State, id: UserId)
    requires Unstarted(s) && id == NextId(s.users.Keys)
    ensures Unstarted(s.(users := s.users[id := UserState([], map[], map[], map[], 0)]))
  {
    NextOfContiguous(s.users.Keys);
    assert s.users[id := UserState([], map[], map[], map[], 0)].Keys == s.users.Keys + {id};
  }

  lemma DroppingIsUnstarted(s: State, u: UserId, chance: nat)
    requires Unstarted(s) && u in s.users
    ensures Unstarted(s.(users := s.users[u := s.users[u].(dropChance := chance)]))
  {
    assert s.users[u := s.users[u].(dropChance := chance)].Keys == s.users.Keys;
  }

  lemma ScheduledIsUnstarted(s: State, u: UserId, t: Timestamp, numFrags: nat)
    requires Unstarted(s) && u in s.users
    ensures Unstarted(s.(users := PushEvent(s.users, u, t, SendMessage(numFrags))))
  {
    hide Contiguous, EventQueue.Insert;
    InsertIsStable(s.users[u].events, t, SendMessage(numFrags));
    InsertMembers(s.users[u].events, t, SendMessage(numFrags));
    assert PushEvent(s.users, u, t, SendMessage(numFrags)).Keys == s.users.Keys;
  }

  /** A timer is set and the message is kept, in either order. */
  lemma TimedFirst(env: Env, users: Users, u: UserId, now: Timestamp, p: Packet, users': Users)
    requires u in users && Core(p).OfMessage? && env.strategy.PerFragment?
    requires var m := MessageOf(p);
             var users1 := PushEvent(users, u, now + env.timeout(TotalDelay(p)), AckTimeout(m.id));
             users' == users1[u := users1[u].(originals := users1[u].originals[m.id := m])]
    ensures users' == Timed(env, users, u, now, p)
  {
    hide EventQueue.Insert, TotalDelay, Core;
    assert users'[u] == Timed(env, users, u, now, p)[u];
  }

  lemma TimedLast(env: Env, users: Users, u: UserId, now: Timestamp, p: Packet, users': Users)
    requires u in users && Core(p).OfMessage? && env.strategy.WholeMessage?
    requires MessageOf(p).fragmentSet !in users[u].originals
    requires var m := MessageOf(p);
             var users1 := users[u := users[u].(originals := users[u].originals[m.fragmentSet := m])];
             users' == PushEvent(users1, u, now + env.timeout(TotalDelay(p)), AckTimeout(m.fragmentSet))
    ensures users' == Timed(env, users, u, now, p)
  {
    hide EventQueue.Insert, TotalDelay, Core;
  }

  datatype StepResult = Ok | NoEvents | PastEvent

  class Simulation {
    const env: Env
    var timestamp: Timestamp
    var nodes: map<NodeId, Node>
    var users: map<UserId, User>
    var deliveryTimes: seq<Timestamp>
    var firstToLast: seq<Timestamp>
    var nextMessageId: nat
    var nextFragmentSet: nat
    var packetCount: nat
    var cursor: nat

    /** Every node and every user is an object of its own. */
    ghost predicate Valid()
      reads this`nodes, this`users
    {
      && (forall i, j :: i in nodes && j in nodes && i != j ==> nodes[i] != nodes[j])
      && (forall i, j :: i in users && j in users && i != j ==> users[i] != users[j])
    }

    ghost function AbsNodes(): Nodes
      reads this`nodes, nodes.Values
    {
      map n | n in nodes :: NodeState(nodes[n].ingress)
    }

    ghost function AbsUsers(): Users
      reads this`users, users.Values
    {
      map u | u in users :: users[u].Abs()
    }

    ghost function Abs(): State
      reads this, nodes.Values, users.Values
    {
      State(timestamp, AbsNodes(), AbsUsers(), deliveryTimes, firstToLast, nextMessageId, nextFragmentSet, packetCount,
            cursor)
    }

    constructor (env: Env)
      ensures Valid() && this.env == env && fresh(nodes.Values) && fresh(users.Values)
      ensures Abs() == State(0, map[], map[], [], [], 0, 0, 0, 0) && Unstarted(Abs())
    {
      this.env := env;
      timestamp, nodes, users, deliveryTimes, firstToLast := 0, map[], map[], [], [];
      nextMessageId, nextFragmentSet, packetCount, cursor := 0, 0, 0, 0;
    }

    static method NextIdOf(ids: set<nat>) returns (id: nat)
      ensures id == NextId(ids) && id !in ids
    {
      if ids == {} {
        id := 0;
      } else {
        MaxExists(ids);
        ghost var top: nat :| IsMax(ids, top);
        assert top in ids && forall j :: j in ids ==> j <= top;
        var max :| max in ids && forall j :: j in ids ==> j <= max;
        assert IsMax(ids, max) && forall k :: IsMax(ids, k) ==> k == max;
        id := max + 1;
      }
    }

    method AddNode() returns (id: NodeId)
      requires Valid()
      modifies this
      ensures Valid() && fresh(nodes.Values - old(nodes.Values)) && users == old(users)
      ensures id == NextId(old(nodes.Keys)) && id !in old(nodes)
      ensures Abs() == old(Abs()).(nodes := old(AbsNodes())[id := NodeState([])])
      ensures old(Unstarted(Abs())) ==> Unstarted(Abs())
    {
      hide Unstarted, NextId, AbsNodes, AbsUsers;
      AbsEntries();
      id := NextIdOf(nodes.Keys);
      var node := new Node();
      nodes := nodes[id := node];
      NodeAdded(id, node);
      if old(Unstarted(Abs())) {
        NodeAddedIsUnstarted(old(Abs()), id);
      }
    }

    method AddUser() returns (id: UserId)
      requires Valid()
      modifies this
      ensures Valid() && fresh(users.Values - old(users.Values)) && nodes == old(nodes)
      ensures id == NextId(old(users.Keys)) && id !in old(users)
      ensures Abs() == old(Abs()).(users := old(AbsUsers())[id := UserState([], map[], map[], map[], 0)])
      ensures old(Unstarted(Abs())) ==> Unstarted(Abs())
    {
      hide Unstarted, NextId, AbsNodes, AbsUsers;
      AbsEntries();
      id := NextIdOf(users.Keys);
      var user := new User();
      users := users[id := user];
      UserAdded(id, user);
      if old(Unstarted(Abs())) {
        UserAddedIsUnstarted(old(Abs()), id);
      }
    }

    method Schedule(u: UserId, t: Timestamp, numFrags: nat)
      requires Valid() && u in users
      modifies users[u]
      ensures Abs() == old(Abs()).(users := PushEvent(old(AbsUsers()), u, t, SendMessage(numFrags)))
      ensures old(Unstarted(Abs())) ==> Unstarted(Abs())
    {
      hide Unstarted;
      InsertAtUser(u, t, SendMessage(numFrags));
      if old(Unstarted(Abs())) {
        ScheduledIsUnstarted(old(Abs()), u, t, numFrags);
      }
    }

    twostate lemma NodeAdded(id: NodeId, new node: Node)
      requires id !in old(nodes) && nodes == old(nodes)[id := node] && node.ingress == []
      requires forall n :: n in old(nodes) ==> unchanged(old(nodes)[n])
      ensures AbsNodes() == old(AbsNodes())[id := NodeState([])]
    {
      assert forall n :: n in old(nodes) ==> nodes[n].ingress == old(nodes[n].ingress);
    }

    twostate lemma UserAdded(id: UserId, new user: User)
      requires id !in old(users) && users == old(users)[id := user]
      requires forall u :: u in old(users) ==> unchanged(old(users)[u])
      ensures AbsUsers() == old(AbsUsers())[id := user.Abs()]
    {
      assert forall u :: u in old(users) ==> users[u].Abs() == old(users[u].Abs());
    }

    method SetDropChance(u: UserId, chance: nat)
      requires Valid() && u in users
      modifies users[u]
      ensures Abs() == old(Abs()).(users := old(AbsUsers())[u := old(AbsUsers())[u].(dropChance := chance)])
      ensures old(Unstarted(Abs())) ==> Unstarted(Abs())
    {
      hide Unstarted;
      users[u].dropChance := chance;
      OneUserChanged(u);
      if old(Unstarted(Abs())) {
        DroppingIsUnstarted(old(Abs()), u, chance);
      }
    }

    // ---------- Access to one node or one user ----------

    method InsertAtNode(n: NodeId, t: Timestamp, p: Packet)
      requires Valid() && n in nodes
      modifies nodes[n]
      ensures AbsNodes() == PushIngress(old(AbsNodes()), n, t, p) && AbsUsers() == old(AbsUsers())
    {
      nodes[n].Insert(t, p);
      assert AbsNodes() == PushIngress(old(AbsNodes()), n, t, p);
    }

    method PopAtNode(n: NodeId) returns (p: Packet)
      requires Valid() && n in nodes && nodes[n].ingress != []
      modifies nodes[n]
      ensures AbsNodes() == PopIngress(old(AbsNodes()), n) && AbsUsers() == old(AbsUsers())
      ensures p == old(nodes[n].ingress[0].1)
    {
      p := nodes[n].Pop();
      assert AbsNodes() == PopIngress(old(AbsNodes()), n);
    }

    method InsertAtUser(u: UserId, t: Timestamp, e: UserEvent)
      requires Valid() && u in users
      modifies users[u]
      ensures AbsUsers() == PushEvent(old(AbsUsers()), u, t, e) && AbsNodes() == old(AbsNodes())
      ensures users[u].dropChance == old(users[u].dropChance)
    {
      users[u].Insert(t, e);
      OneUserChanged(u);
    }

    method PopAtUser(u: UserId) returns (e: UserEvent)
      requires Valid() && u in users && users[u].events != []
      modifies users[u]
      ensures AbsUsers() == PopEvent(old(AbsUsers()), u) && AbsNodes() == old(AbsNodes())
      ensures e == old(users[u].events[0].1)
    {
      e := users[u].Pop();
      OneUserChanged(u);
    }

    method CancelAtUser(u: UserId, id: nat)
      requires Valid() && u in users
      modifies users[u]
      ensures AbsUsers() == CancelAt(old(AbsUsers()), u, id) && AbsNodes() == old(AbsNodes())
    {
      users[u].Retain(id);
      OneUserChanged(u);
    }

    method TakeAtUser(u: UserId, m: Message)
      requires Valid() && u in users
      modifies users[u]
      ensures AbsUsers() == old(AbsUsers())[u := Marked(old(AbsUsers())[u], m, timestamp)]
      ensures AbsNodes() == old(AbsNodes())
    {
      users[u].Take(m, timestamp);
      OneUserChanged(u);
    }

    method KeepAtUser(u: UserId, id: nat, m: Message)
      requires Valid() && u in users
      modifies users[u]
      ensures var kept := old(AbsUsers())[u].(originals := old(AbsUsers())[u].originals[id := m]);
              AbsUsers() == old(AbsUsers())[u := kept] && AbsNodes() == old(AbsNodes())
      ensures users[u].dropChance == old(users[u].dropChance)
    {
      users[u].originals := users[u].originals[id := m];
      OneUserChanged(u);
    }

    method ForgetAtUser(u: UserId, id: nat) returns (m: Message)
      requires Valid() && u in users && id in users[u].originals
      modifies users[u]
      ensures AbsUsers() == Forgotten(old(AbsUsers()), u, id) && AbsNodes() == old(AbsNodes())
      ensures m == old(users[u].originals[id])
    {
      m := users[u].originals[id];
      users[u].originals := users[u].originals - {id};
      OneUserChanged(u);
    }

    method ClearAtUser(u: UserId, fragmentSet: nat)
      requires Valid() && u in users
      modifies users[u]
      ensures AbsUsers() == Cleared(old(AbsUsers()), u, fragmentSet) && AbsNodes() == old(AbsNodes())
    {
      users[u].fragments := users[u].fragments - {fragmentSet};
      OneUserChanged(u);
    }

    method InsertEgressesAtUser(u: UserId, packets: seq<Packet>)
      requires Valid() && u in users
      modifies users[u]
      ensures AbsUsers() == PushEgresses(old(AbsUsers()), u, timestamp, packets) && AbsNodes() == old(AbsNodes())
    {
      hide EventQueue.Insert;
      for i := 0 to |packets|
        invariant InsertEgresses(users[u].events, timestamp, packets[i..])
                  == InsertEgresses(old(users[u].events), timestamp, packets)
        invariant users[u].Abs() == old(users[u].Abs()).(events := users[u].events)
      {
        assert packets[i..][0] == packets[i] && packets[i..][1..] == packets[i + 1..];
        users[u].Insert(timestamp, Egress(packets[i]));
      }
      OneUserChanged(u);
    }

    /** Changing one user object changes one entry of the abstract users. */
    twostate lemma OneUserChanged(u: UserId)
      requires old(Valid()) && users == old(users) && u in users
      requires forall v :: v in users && v != u ==> unchanged(users[v])
      ensures AbsUsers() == old(AbsUsers())[u := users[u].Abs()]
    {
    }

    // ---------- Building packets ----------

    method DrawDelays(num: nat) returns (delays: seq<Timestamp>)
      modifies this`cursor
      ensures delays == LatencySim.DrawDelays(env, old(cursor), num) && cursor == old(cursor) + num
    {
      delays := [];
      ghost var all := LatencySim.DrawDelays(env, cursor, num);
      for i := 0 to num
        invariant cursor == old(cursor) + i && delays == all[..i]
      {
        var draw: nat := env.tape(cursor);
        delays := delays + [draw];
        cursor := cursor + 1;
      }
    }

    method DestinationRange() returns (range: Pos)
      ensures range == RangeOf(nodes.Keys)
    {
      if nodes.Keys == {} {
        range := 1;
      } else {
        var next := NextIdOf(nodes.Keys);
        range := next;
      }
    }

    method BuildPacketWithDelays(content: Content, delays: seq<Timestamp>) returns (p: Packet)
      requires env.numHops <= |delays|
      modifies this`cursor
      ensures p == LatencySim.BuildPacketWithDelays(env, RangeOf(nodes.Keys), old(cursor), env.numHops, content, delays)
      ensures HopNodes(p) == DrawnNodes(env, RangeOf(nodes.Keys), old(cursor), env.numHops) + InnerNodes(content)
      ensures cursor == old(cursor) + env.numHops
    {
      hide HopNodes, DrawnNodes;
      BuildNodes(env, RangeOf(nodes.Keys), cursor, env.numHops, content, delays);
      var c, ds := content, delays;
      var range := DestinationRange();
      for i := 0 to env.numHops - 1
        invariant cursor == old(cursor) + i && env.numHops - i <= |ds|
        invariant LatencySim.BuildPacketWithDelays(env, range, cursor, env.numHops - i, c, ds)
               == LatencySim.BuildPacketWithDelays(env, range, old(cursor), env.numHops, content, delays)
      {
        var node := env.tape(cursor) % range;
        cursor := cursor + 1;
        var delay := ds[|ds| - 1];
        ds := ds[..|ds| - 1];
        c := OfPacket(Packet(node, delay, c));
      }
      var node := env.tape(cursor) % range;
      cursor := cursor + 1;
      p := Packet(node, ds[0], c);
    }

    method BuildPacket(content: Content) returns (p: Packet)
      modifies this`cursor
      ensures p == LatencySim.BuildPacket(env, RangeOf(nodes.Keys), old(cursor), content)
      ensures !content.OfPacket? ==> DrawnFrom(env, RangeOf(nodes.Keys), old(cursor), p)
      ensures cursor == old(cursor) + 2 * env.numHops
    {
      hide DrawnFrom, HopNodes, DrawnNodes, RangeOf;
      if !content.OfPacket? { PacketDraws(env, RangeOf(nodes.Keys), cursor, content); }
      var delays := DrawDelays(env.numHops);
      p := BuildPacketWithDelays(content, delays);
    }

    /** One round of `build_messages`. */
    method BuildFragment(ghost b: Batch, sender: UserId, recipient: UserId, fragmentSet: nat, numFrags: nat, frag: nat)
      returns (packet: Packet)
      requires b == Batch(RangeOf(nodes.Keys), timestamp, fragmentSet, sender, recipient, numFrags)
      modifies this`nextMessageId, this`cursor
      ensures packet == FragmentPacket(env, b, frag, old(nextMessageId), old(cursor))
      ensures nextMessageId == old(nextMessageId) + 1 && cursor == old(cursor) + 4 * env.numHops
    {
      hide LatencySim.BuildPacket, DrawnFrom, RangeOf;
      var id := nextMessageId;
      nextMessageId := nextMessageId + 1;
      var ackId := match env.strategy case PerFragment => id case WholeMessage => fragmentSet;
      var ack := BuildPacket(OfAck(Ack(ackId, sender)));
      var message := Message(id, timestamp, recipient, sender, fragmentSet, numFrags, frag, ack);
      packet := BuildPacket(OfMessage(message));
    }

    method BuildMessages(sender: UserId, recipient: UserId, numFrags: nat) returns (packets: seq<Packet>)
      requires Valid()
      modifies this`nextFragmentSet, this`nextMessageId, this`cursor
      ensures var s := old(Abs());
              var b := BatchAt(s, sender, recipient, numFrags);
              packets == Fragments(env, s, b) && Abs() == AfterBatch(env, s, b)
    {
      hide RangeOf, FragmentPacket;
      packets := [];
      var fragmentSet := nextFragmentSet;
      nextFragmentSet := nextFragmentSet + 1;
      ghost var b := Batch(RangeOf(nodes.Keys), timestamp, fragmentSet, sender, recipient, numFrags);
      ghost var all := BuildFragments(env, b, 0, nextMessageId, cursor);
      for frag := 0 to numFrags
        invariant nextFragmentSet == fragmentSet + 1 && nextMessageId == old(nextMessageId) + frag
        invariant packets + BuildFragments(env, b, frag, nextMessageId, cursor) == all
        invariant CursorAfter(env, cursor, numFrags - frag) == CursorAfter(env, old(cursor), numFrags)
      {
        ghost var rest := BuildFragments(env, b, frag, nextMessageId, cursor);
        var packet := BuildFragment(b, sender, recipient, fragmentSet, numFrags, frag);
        assert rest == [packet] + BuildFragments(env, b, frag + 1, nextMessageId, cursor);
        packets := packets + [packet];
      }
      assert Abs().nodes.Keys == nodes.Keys;
    }

    // ---------- One step ----------

    /** The node whose first packet is earliest. The order in which a hash map lists its entries is left open. */
    method NextNode() returns (r: Option<NodeId>)
      requires Valid()
      ensures r.None? <==> forall n :: !BusyNode(Abs(), n)
      ensures r.Some? ==> && BusyNode(Abs(), r.value)
                          && forall m :: BusyNode(Abs(), m) ==> NodeTime(Abs(), r.value) <= NodeTime(Abs(), m)
    {
      r := None;
      var rest := nodes.Keys;
      while rest != {}
        invariant rest <= nodes.Keys
        invariant r.Some? ==> r.value in nodes && nodes[r.value].ingress != []
        invariant forall m :: m in nodes && m !in rest && nodes[m].ingress != [] ==>
                    r.Some? && nodes[r.value].ingress[0].0 <= nodes[m].ingress[0].0
        decreases |rest|
      {
        var n :| n in rest;
        rest := rest - {n};
        var t := nodes[n].Next();
        if t.Some? && (r.None? || t.value < nodes[r.value].ingress[0].0) {
          r := Some(n);
        }
      }
      if r.Some? { assert BusyNode(Abs(), r.value); }
    }

    method NextUser() returns (r: Option<UserId>)
      requires Valid()
      ensures r.None? <==> forall u :: !BusyUser(Abs(), u)
      ensures r.Some? ==> && BusyUser(Abs(), r.value)
                          && forall v :: BusyUser(Abs(), v) ==> UserTime(Abs(), r.value) <= UserTime(Abs(), v)
    {
      r := None;
      var rest := users.Keys;
      while rest != {}
        invariant rest <= users.Keys
        invariant r.Some? ==> r.value in users && users[r.value].events != []
        invariant forall v :: v in users && v !in rest && users[v].events != [] ==>
                    r.Some? && users[r.value].events[0].0 <= users[v].events[0].0
        decreases |rest|
      {
        var u :| u in rest;
        rest := rest - {u};
        var t := users[u].Next();
        if t.Some? && (r.None? || t.value < users[r.value].events[0].0) {
          r := Some(u);
        }
      }
      if r.Some? { assert BusyUser(Abs(), r.value); }
    }

    method Next() returns (r: Option<Who>)
      requires Valid()
      ensures r.None? <==> NoMoreEvents(Abs())
      ensures r.Some? ==> IsNext(Abs(), r.value)
    {
      var nextNode := NextNode();
      var nextUser := NextUser();
      match (nextNode, nextUser) {
        case (Some(n), Some(u)) =>
          r := Some(if nodes[n].ingress[0].0 < users[u].events[0].0 then AtNode(n) else AtUser(u));
        case (None, Some(u)) => r := Some(AtUser(u));
        case (Some(n), None) => r := Some(AtNode(n));
        case (None, None) => r := None;
      }
    }

    /** What `AbsNodes` and `AbsUsers` hold. */
    lemma AbsEntries()
      ensures AbsNodes().Keys == nodes.Keys && AbsUsers().Keys == users.Keys
      ensures forall n :: n in nodes ==> AbsNodes()[n].ingress == nodes[n].ingress
      ensures forall u :: u in users ==> AbsUsers()[u] == users[u].Abs()
    {
    }

    /** The unwrapped packet goes where it belongs. */
    method Deliver(packet: Packet)
      requires Valid() && Delivered(Abs(), packet).Stepped?
      modifies nodes.Values, users.Values
      ensures Delivered(old(Abs()), packet) == Stepped(Abs())
    {
      hide PushIngress, PushEvent, CancelAt, AbsNodes, AbsUsers;
      AbsEntries();
      match packet.content {
        case OfMessage(m) => InsertAtUser(m.recipient, timestamp, Handover(m));
        case OfAck(a) => CancelAtUser(a.recipient, a.messageId);
        case OfPacket(q) => InsertAtNode(q.destination, timestamp + q.delay, q);
      }
    }

    method StepNode(n: NodeId) returns (r: StepResult)
      requires Valid() && BusyNode(Abs(), n) && !FireNode(env, Abs(), n).Panicked?
      modifies this, nodes.Values, users.Values
      ensures nodes == old(nodes) && users == old(users)
      ensures var o := FireNode(env, old(Abs()), n);
              && (o.Stepped? ==> r == Ok && Abs() == o.state)
              && (o.InThePast? ==> r == PastEvent && Abs() == old(Abs()).(nodes := PopIngress(old(AbsNodes()), n)))
    {
      hide Delivered, AbsNodes, AbsUsers;
      AbsEntries();
      var time := nodes[n].ingress[0].0;
      if time < timestamp {
        var _ := PopAtNode(n);
        return PastEvent;
      }
      timestamp := time;
      var packet := PopAtNode(n);
      assert Abs() == old(Abs()).(timestamp := time, nodes := PopIngress(old(AbsNodes()), n));
      Deliver(packet);
      r := Ok;
    }

    // ---------- The events of a user ----------

    method SendAck(m: Message)
      requires Valid() && m.ack.destination in nodes
      modifies this`packetCount, nodes.Values
      ensures LatencySim.SendAck(old(Abs()), m) == Stepped(Abs())
    {
      hide AbsNodes, AbsUsers, EventQueue.Insert;
      AbsEntries();
      InsertAtNode(m.ack.destination, timestamp + m.ack.delay, m.ack);
      packetCount := packetCount + 1;
    }

    method Record(u: UserId, m: Message)
      requires Valid() && u in users && m.fragmentSet in users[u].tFirst
      requires m.sendingTime <= timestamp && users[u].tFirst[m.fragmentSet] <= timestamp
      requires env.strategy == WholeMessage ==> m.ack.destination in nodes
      modifies this`deliveryTimes, this`firstToLast, this`packetCount, nodes.Values
      ensures LatencySim.Record(env, old(Abs()), old(users[u].Abs()), m) == Stepped(Abs())
    {
      hide AbsNodes, AbsUsers, LatencySim.SendAck;
      deliveryTimes := deliveryTimes + [timestamp - m.sendingTime];
      firstToLast := firstToLast + [timestamp - users[u].tFirst[m.fragmentSet]];
      if env.strategy == WholeMessage {
        SendAck(m);
      }
    }

    /** The fragment is marked, and if the set is complete now, the delivery is recorded. */
    method TakeFragment(u: UserId, m: Message)
      requires Valid() && u in users && !Noted(env, Abs(), u, m).Panicked?
      modifies this`deliveryTimes, this`firstToLast, this`packetCount, nodes.Values, users.Values
      ensures Noted(env, old(Abs()), u, m) == Stepped(Abs())
    {
      hide AbsNodes, AbsUsers, PushIngress;
      AbsEntries();
      TakeAtUser(u, m);
      AbsEntries();
      if users[u].FragmentSetSize(m.fragmentSet) == m.fragmentSize {
        Record(u, m);
      }
    }

    method OnHandover(u: UserId, m: Message)
      requires Valid() && u in users && !LatencySim.OnHandover(env, Abs(), u, m).Panicked?
      modifies this`deliveryTimes, this`firstToLast, this`packetCount, nodes.Values, users.Values
      ensures LatencySim.OnHandover(env, old(Abs()), u, m) == Stepped(Abs())
    {
      hide AbsNodes, AbsUsers, PushIngress, Noted;
      AbsEntries();
      if env.strategy == PerFragment {
        SendAck(m);
      }
      TakeFragment(u, m);
    }

    method SetTimer(u: UserId, p: Packet)
      requires Valid() && u in users && Core(p).OfMessage?
      modifies users[u]
      ensures AbsUsers() == Timed(env, old(AbsUsers()), u, timestamp, p) && AbsNodes() == old(AbsNodes())
      ensures users[u].dropChance == old(users[u].dropChance)
    {
      hide AbsNodes, AbsUsers, PushEvent, TotalDelay, Core;
      AbsEntries();
      var m := MessageOf(p);
      var deadline := timestamp + env.timeout(TotalDelay(p));
      match env.strategy {
        case PerFragment =>
          InsertAtUser(u, deadline, AckTimeout(m.id));
          KeepAtUser(u, m.id, m);
          TimedFirst(env, old(AbsUsers()), u, timestamp, p, AbsUsers());
        case WholeMessage =>
          if m.fragmentSet !in users[u].originals {
            KeepAtUser(u, m.fragmentSet, m);
            InsertAtUser(u, deadline, AckTimeout(m.fragmentSet));
            TimedLast(env, old(AbsUsers()), u, timestamp, p, AbsUsers());
          }
      }
    }

    /** The packet enters the network, unless it is dropped; it is counted in any case. */
    method Launch(u: UserId, p: Packet)
      requires Valid() && u in users && p.destination in nodes
      modifies this`packetCount, this`cursor, nodes[p.destination]
      ensures AbsNodes() == if users[u].dropChance <= env.tape(old(cursor))
                            then PushIngress(old(AbsNodes()), p.destination, timestamp + p.delay, p)
                                 else old(AbsNodes())
      ensures AbsUsers() == old(AbsUsers()) && cursor == old(cursor) + 1 && packetCount == old(packetCount) + 1
    {
      hide AbsNodes, AbsUsers, PushIngress;
      AbsEntries();
      var draw := env.tape(cursor);
      cursor := cursor + 1;
      if users[u].dropChance <= draw {
        InsertAtNode(p.destination, timestamp + p.delay, p);
      }
      packetCount := packetCount + 1;
    }

    method OnEgress(u: UserId, p: Packet)
      requires Valid() && u in users && !LatencySim.OnEgress(env, Abs(), u, p).Panicked?
      modifies this`packetCount, this`cursor, nodes.Values, users.Values
      ensures LatencySim.OnEgress(env, old(Abs()), u, p) == Stepped(Abs())
    {
      hide AbsNodes, AbsUsers, Timed, PushIngress, TotalDelay, Core;
      AbsEntries();
      SetTimer(u, p);
      Launch(u, p);
    }

    method OnSendMessage(u: UserId, numFrags: nat)
      requires Valid() && u in users
      modifies this`nextMessageId, this`nextFragmentSet, this`cursor, users.Values
      ensures LatencySim.OnSendMessage(env, old(Abs()), u, numFrags) == Stepped(Abs())
    {
      var packets := BuildMessages(u, 1, numFrags);
      InsertEgressesAtUser(u, packets);
    }

    /** The message under a new identifier, with a new acknowledgement, in a new packet. */
    method BuildRenewed(u: UserId, m: Message) returns (packet: Packet)
      modifies this`nextMessageId, this`cursor
      ensures nextMessageId == old(nextMessageId) + 1 && cursor == old(cursor) + 4 * env.numHops
      ensures var range := RangeOf(nodes.Keys);
              var ack := LatencySim.BuildPacket(env, range, old(cursor), OfAck(Ack(old(nextMessageId), u)));
              packet == LatencySim.BuildPacket(env, range, old(cursor) + 2 * env.numHops,
                                               OfMessage(m.(id := old(nextMessageId), ack := ack)))
    {
      hide RangeOf, LatencySim.BuildPacket;
      var id := nextMessageId;
      nextMessageId := nextMessageId + 1;
      var ack := BuildPacket(OfAck(Ack(id, u)));
      packet := BuildPacket(OfMessage(m.(id := id, ack := ack)));
    }

    method Resend(u: UserId, m: Message)
      requires Valid() && u in users
      modifies this`nextMessageId, this`cursor, users[u]
      ensures LatencySim.Resend(env, old(Abs()), u, m) == Stepped(Abs())
    {
      hide AbsNodes, AbsUsers, RangeOf, LatencySim.BuildPacket, PushEvent, TotalDelay, Core;
      AbsEntries();
      var packet := BuildRenewed(u, m);
      InsertAtUser(u, timestamp, Egress(packet));
    }

    method Rebuild(u: UserId, m: Message)
      requires Valid() && u in users
      modifies this`nextMessageId, this`nextFragmentSet, this`cursor, users[u]
      ensures LatencySim.Rebuild(env, old(Abs()), u, m) == Stepped(Abs())
    {
      hide AbsNodes, AbsUsers, PushEgresses;
      AbsEntries();
      var packets := BuildMessages(m.sender, m.recipient, m.fragmentSize);
      ghost var b := BatchAt(old(Abs()), m.sender, m.recipient, m.fragmentSize);
      FragmentsCarryMessages(env, b, 0, old(nextMessageId), old(cursor));
      var redated := [];
      for i := 0 to |packets|
        invariant redated == Redated(packets, m.sendingTime)[..i]
      {
        redated := redated + [WithSendingTime(packets[i], m.sendingTime)];
      }
      assert redated == Redated(packets, m.sendingTime);
      InsertEgressesAtUser(u, redated);
    }

    method OnAckTimeout(u: UserId, id: nat)
      requires Valid() && u in users && !LatencySim.OnAckTimeout(env, Abs(), u, id).Panicked?
      modifies this`nextMessageId, this`nextFragmentSet, this`cursor, users.Values
      ensures LatencySim.OnAckTimeout(env, old(Abs()), u, id) == Stepped(Abs())
    {
      var m := ForgetAtUser(u, id);
      match env.strategy {
        case PerFragment => Resend(u, m);
        case WholeMessage =>
          ClearAtUser(m.recipient, m.fragmentSet);
          Rebuild(u, m);
      }
    }

    method Handle(u: UserId, event: UserEvent)
      requires Valid() && u in users && !Handled(env, Abs(), u, event).Panicked?
      modifies this, nodes.Values, users.Values
      ensures nodes == old(nodes) && users == old(users)
      ensures Handled(env, old(Abs()), u, event) == Stepped(Abs())
    {
      hide AbsNodes, AbsUsers, LatencySim.OnHandover, LatencySim.OnEgress, LatencySim.OnSendMessage,
           LatencySim.OnAckTimeout;
      match event {
        case Handover(m) => OnHandover(u, m);
        case Egress(p) => OnEgress(u, p);
        case SendMessage(n) => OnSendMessage(u, n);
        case AckTimeout(id) => OnAckTimeout(u, id);
      }
    }

    method StepUser(u: UserId) returns (r: StepResult)
      requires Valid() && BusyUser(Abs(), u) && !FireUser(env, Abs(), u).Panicked?
      modifies this, nodes.Values, users.Values
      ensures nodes == old(nodes) && users == old(users)
      ensures var o := FireUser(env, old(Abs()), u);
              && (o.Stepped? ==> r == Ok && Abs() == o.state)
              && (o.InThePast? ==> r == PastEvent && Abs() == old(Abs()))
    {
      hide AbsNodes, AbsUsers, PopEvent, Handled;
      AbsEntries();
      var time := users[u].events[0].0;
      if time < timestamp {
        return PastEvent;
      }
      timestamp := time;
      var event := PopAtUser(u);
      assert Abs() == Popped(old(Abs()), u);
      Handle(u, event);
      r := Ok;
    }

    /** One call of `step`: some earliest event fires, as `Fire` says. The error "in the past" leaves
        everything as it was, except that a node loses the packet that the error reports. */
    method Step() returns (r: StepResult)
      requires Valid() && forall who :: IsNext(Abs(), who) ==> !Fire(env, Abs(), who).Panicked?
      modifies this, nodes.Values, users.Values
      ensures Valid() && nodes == old(nodes) && users == old(users)
      ensures r == NoEvents <==> NoMoreEvents(old(Abs()))
      ensures r == NoEvents ==> Abs() == old(Abs())
      ensures r == Ok ==> exists who :: IsNext(old(Abs()), who) && Fire(env, old(Abs()), who) == Stepped(Abs())
      ensures r == PastEvent ==> exists who :: IsNext(old(Abs()), who) && Fire(env, old(Abs()), who) == InThePast
      ensures forall s0, n: nat :: RunOf(env, s0, old(Abs()), n) ==>
                r != PastEvent && (r == Ok ==> RunOf(env, s0, Abs(), n + 1))
    {
      hide FireNode, FireUser, RunOf, NoMoreEvents;
      var next := Next();
      if next == None {
        return NoEvents;
      }
      assert IsNext(old(Abs()), next.value);
      match next.value {
        case AtNode(n) => r := StepNode(n);
        case AtUser(u) => r := StepUser(u);
      }
      forall s0, n: nat | RunOf(env, s0, old(Abs()), n)
        ensures r != PastEvent && RunOf(env, s0, Abs(), n + 1)
      {
        RunFurther(env, s0, old(Abs()), n, next.value);
      }
    }

    /** Steps until nothing is left to do, but at most `limit` times: packets that are always dropped are
        retransmitted for ever. If it has not halted then, the run really has `limit` steps. */
    method Run(limit: nat) returns (halted: bool)
      requires Valid() && Initial(Abs())
      modifies this, nodes.Values, users.Values
      ensures Valid() && RunFrom(env, old(Abs()), Abs())
      ensures halted ==> NoMoreEvents(Abs())
      ensures halted ==> MessagesToSend(old(AbsUsers())) <= |deliveryTimes| == |firstToLast|
      ensures !halted ==> RunOf(env, old(Abs()), Abs(), limit)
    {
      hide IsNext, Fire, RunOf, NoMoreEvents, MessagesToSend, AbsNodes, AbsUsers, Initial;
      AbsEntries();
      ghost var s0 := Abs();
      halted := false;
      RunStarts(env, s0);
      for i := 0 to limit
        invariant Valid() && nodes == old(nodes) && users == old(users)
        invariant RunOf(env, s0, Abs(), i)
      {
        forall who | IsNext(Abs(), who)
          ensures !Fire(env, Abs(), who).Panicked?
        {
          RunFurther(env, s0, Abs(), i, who);
        }
        var r := Step();
        if r != Ok {
          RunDelivers(env, s0, Abs());
          return true;
        }
      }
    }
  }
}
