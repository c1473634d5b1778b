/** The invariant holds in every run, so no step fails. */
module LatencyRuns {
  import opened EventQueue
  import opened LatencySim
  import opened LatencyHistory
  import opened LatencyInvariant
  import opened LatencyQueues
  import opened LatencyNodeSteps
  import opened LatencyUserSteps
  import opened LatencyEgressSteps
  import opened LatencySendSteps
  import opened LatencyResendSteps
  import opened LatencyRebuildSteps

  lemma RangeOfContiguous(ids: set<nat>)
    requires Contiguous(ids) && ids != {}
    ensures NextId(ids) == |ids|
  {
    MaxExists(ids);
    assert IsMax(ids, |ids| - 1);
  }

  lemma StartBag(s: State, u: UserId, k: UserKey)
    requires Initial(s) && u in s.users && !k.SendKey?
    ensures UserBag(s.users, u)[k] == 0
  {
    var q := s.users[u].events;
    assert forall i :: 0 <= i < |q| ==> q[i] in q && EventKey(q[i].1).SendKey?;
    if k in UserBag(s.users, u) {
      var i := BagMember(q, EventKey, k);
      assert false;
    }
  }

  lemma StartKeeps(env: Env, w: World)
    requires Start(w)
    ensures Inv(env, w)
  {
    hide Live;
    RangeOfContiguous(w.s.nodes.Keys);
    forall u, id | u in w.s.users { StartBag(w.s, u, HandoverKey(id)); }
    forall u, id | u in w.s.users { StartBag(w.s, u, EgressKey(id)); }
    forall u, id | u in w.s.users { StartBag(w.s, u, TimerKey(id)); }
    StartLive(env, w);
  }

  lemma StartLive(env: Env, w: World)
    requires Start(w)
    ensures Live(env, w.s.users, w.h)
  {
  }

  /** Every step that may be taken succeeds, and keeps the invariant. */
  lemma StepKeeps(env: Env, w: World, who: Who)
    requires Inv(env, w) && IsNext(w.s, who)
    ensures CanStep(env, w, who) && Inv(env, After(env, w, who))
  {
    match who {
      case AtNode(n) =>
        match Head(w.s, n).content {
          case OfMessage(_) => MessageKeeps(env, w, n);
          case OfAck(_) => AckKeeps(env, w, n);
          case OfPacket(_) => RelayKeeps(env, w, n);
        }
      case AtUser(u) =>
        match Event(w.s, u) {
          case Handover(_) => HandoverKeeps(env, w, u);
          case Egress(_) => EgressKeeps(env, w, u);
          case SendMessage(_) => SendKeeps(env, w, u);
          case AckTimeout(_) =>
            if env.strategy.PerFragment? { ResendKeeps(env, w, u); } else { RebuildKeeps(env, w, u); }
        }
    }
  }

  lemma {:induction false} RunKeeps(env: Env, w: World, schedule: seq<Who>, w': World)
    requires Inv(env, w) && Leads(env, w, schedule, w')
    ensures Inv(env, w')
    decreases |schedule|
  {
    if schedule == [] {
      LeadsNowhere(env, w, w');
    } else {
      LeadsOn(env, w, schedule, w');
      StepKeeps(env, w, schedule[0]);
      RunKeeps(env, After(env, w, schedule[0]), schedule[1..], w');
    }
  }

  lemma ReachableInv(env: Env, w: World)
    requires Reachable(env, w)
    ensures Inv(env, w)
  {
    var w0, schedule :| Start(w0) && Leads(env, w0, schedule, w);
    StartKeeps(env, w0);
    RunKeeps(env, w0, schedule, w);
  }

  // ---------- Someone is next, unless nothing is left ----------

  ghost predicate EarliestNode(s: State, ids: set<NodeId>, n: NodeId) {
    n in ids && BusyNode(s, n) && forall m :: m in ids && BusyNode(s, m) ==> NodeTime(s, n) <= NodeTime(s, m)
  }

  lemma {:induction false} FirstNode(s: State, ids: set<NodeId>) returns (n: NodeId)
    requires exists m :: m in ids && BusyNode(s, m)
    ensures EarliestNode(s, ids, n)
  {
    var m :| m in ids && BusyNode(s, m);
    if exists k :: k in ids - {m} && BusyNode(s, k) {
      n := FirstNode(s, ids - {m});
      if NodeTime(s, m) < NodeTime(s, n) { n := m; }
    } else {
      n := m;
    }
    assert forall k :: k in ids ==> k == m || k in ids - {m};
  }

  ghost predicate EarliestUser(s: State, ids: set<UserId>, u: UserId) {
    u in ids && BusyUser(s, u) && forall v :: v in ids && BusyUser(s, v) ==> UserTime(s, u) <= UserTime(s, v)
  }

  lemma {:induction false} FirstUser(s: State, ids: set<UserId>) returns (u: UserId)
    requires exists v :: v in ids && BusyUser(s, v)
    ensures EarliestUser(s, ids, u)
  {
    var v :| v in ids && BusyUser(s, v);
    if exists k :: k in ids - {v} && BusyUser(s, k) {
      u := FirstUser(s, ids - {v});
      if UserTime(s, v) < UserTime(s, u) { u := v; }
    } else {
      u := v;
    }
    assert forall k :: k in ids ==> k == v || k in ids - {v};
  }

  lemma SomeoneIsNext(s: State) returns (who: Who)
    requires !NoMoreEvents(s)
    ensures IsNext(s, who)
  {
    if exists u :: BusyUser(s, u) {
      var v :| BusyUser(s, v);
      var u := FirstUser(s, s.users.Keys);
      who := AtUser(u);
      if n :| BusyNode(s, n) {
        var first := FirstNode(s, s.nodes.Keys);
        if NodeTime(s, first) < UserTime(s, u) { who := AtNode(first); }
      }
    } else {
      var n :| BusyNode(s, n);
      var first := FirstNode(s, s.nodes.Keys);
      who := AtNode(first);
    }
  }

  /** `step` fails in no run, except by reporting that there are no more events. */
  lemma NoStepFails(env: Env, w: World)
    requires Reachable(env, w)
    ensures NoMoreEvents(w.s) || exists who :: IsNext(w.s, who)
    ensures forall who :: IsNext(w.s, who) ==> Fire(env, w.s, who).Stepped?
  {
    ReachableInv(env, w);
    if !NoMoreEvents(w.s) { var who := SomeoneIsNext(w.s); }
    forall who | IsNext(w.s, who)
      ensures Fire(env, w.s, who).Stepped?
    {
      StepKeeps(env, w, who);
    }
  }

  // ---------- The order of events ----------

  lemma StepClock(env: Env, w: World, who: Who)
    requires Inv(env, w) && CanStep(env, w, who)
    ensures var now := match who case AtNode(n) => NodeTime(w.s, n) case AtUser(u) => UserTime(w.s, u);
            After(env, w, who).s.timestamp == now && w.s.timestamp <= now
  {
    hide Books;
    match who {
      case AtNode(n) => PopNodeClock(w.s, n);
      case AtUser(u) =>
        PopUserClock(w.s, u);
        UserClock(env, w.s, u);
    }
  }

  lemma UserClock(env: Env, s: State, u: UserId)
    requires BusyUser(s, u) && FireUser(env, s, u).Stepped?
    ensures FireUser(env, s, u).state.timestamp == UserTime(s, u)
  {
  }

  /** The clock never goes back, and all queues stay sorted with nothing left behind in the past. */
  lemma {:induction false} TimeMovesForward(env: Env, w: World, schedule: seq<Who>, w': World)
    requires Inv(env, w) && Leads(env, w, schedule, w')
    ensures w.s.timestamp <= w'.s.timestamp && Clock(w'.s.timestamp, w'.s.nodes, w'.s.users)
    decreases |schedule|
  {
    if schedule == [] {
      LeadsNowhere(env, w, w');
    } else {
      LeadsOn(env, w, schedule, w');
      StepKeeps(env, w, schedule[0]);
      StepClock(env, w, schedule[0]);
      TimeMovesForward(env, After(env, w, schedule[0]), schedule[1..], w');
    }
  }
}
