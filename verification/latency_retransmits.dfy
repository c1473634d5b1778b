/** PerFragment: how many retransmissions there are in a run, and what follows when there are none. */
module LatencyRetransmits {
  import opened LatencySim
  import opened LatencyHistory
  import opened LatencyInvariant
  import opened LatencyUserSteps
  import opened LatencyEgressSteps
  import opened LatencyRuns
  import opened LatencyTiming
  import opened LatencyTransit
  import opened LatencyTermination
  import opened LatencyTotals
  import opened LatencyOnce
  import LatencyDelivery

  /** Does a packet leave at this step that is dropped, or whose acknowledgement cannot be back before its
      timer is due? */
  ghost predicate SendsLate(env: Env, w: World, who: Who) {
    && who.AtUser? && BusyUser(w.s, who.user) && Event(w.s, who.user).Egress?
    && var p := Event(w.s, who.user).packet;
       && Core(p).OfMessage?
       && (|| !Survives(env, w.s.cursor, w.s.users[who.user])
           || env.timeout(TotalDelay(p)) <= TotalDelay(p) + TotalDelay(MessageOf(p).ack))
  }

  ghost function Late(env: Env): (World, Who) -> bool {
    (w, who) => SendsLate(env, w, who)
  }

  /** How many packets of a run are late in this sense. */
  ghost function LateSends(env: Env, w: World, schedule: seq<Who>): nat {
    Steps(env, w, schedule, Late(env))
  }

  /** The armed timer `id` is that of a late packet. */
  ghost predicate LateTimer(h: History, id: nat) {
    id in h.timers && exists t :: Flying(h, id, t) && Overdue(t)
  }

  ghost function LateTimers(h: History): set<nat> {
    set id | id in h.timers && LateTimer(h, id)
  }

  lemma OneTrip(h: History, id: nat, t: Trip, t': Trip)
    requires Flying(h, id, t) && Flying(h, id, t')
    ensures t == t'
  {
  }

  lemma ArmedFlies(env: Env, w: World, id: nat) returns (t: Trip)
    requires Inv(env, w) && env.strategy.PerFragment? && id in w.h.timers
    ensures Flying(w.h, id, t)
  {
    hide Queues, Tally, MemoriesOk, TimersOk;
    assert StageOk(env, w.s.nodes.Keys, w.h, id);
    t := Trip(w.h.book.flights[id], w.h.book.ids[id].ackDelay, w.h.stage[id].Dropped?);
  }

  /** Is this the step at which message `id` leaves its sender? */
  ghost predicate Departs(w: World, who: Who, id: nat) {
    && who.AtUser? && BusyUser(w.s, who.user) && Event(w.s, who.user).Egress?
    && Core(Event(w.s, who.user).packet).OfMessage? && MessageOf(Event(w.s, who.user).packet).id == id
  }

  /** Only its departure arms a timer. */
  lemma ArmedByDeparture(env: Env, w: World, who: Who, id: nat)
    requires CanStep(env, w, who) && env.strategy.PerFragment? && id in After(env, w, who).h.timers
    ensures id in w.h.timers || Departs(w, who, id)
  {
    hide Fire, Marked;
  }

  lemma SameTimer(env: Env, w: World, who: Who, id: nat)
    requires Inv(env, w) && CanStep(env, w, who) && env.strategy.PerFragment?
    requires !Departs(w, who, id) && !FiresTimer(w, who, id)
    ensures LateTimer(After(env, w, who).h, id) <==> LateTimer(w.h, id)
  {
    hide Inv, Flying, Overdue, IsNext, Fire, After, Departs, FiresTimer;
    var h' := After(env, w, who).h;
    if id in h'.timers { ArmedByDeparture(env, w, who, id); }
    if id in w.h.timers {
      var t := ArmedFlies(env, w, id);
      StepFlying(env, w, who, id, t);
      forall t' | Flying(w.h, id, t')
        ensures t' == t
      {
        OneTrip(w.h, id, t, t');
      }
      forall t' | Flying(h', id, t')
        ensures t' == t
      {
        OneTrip(h', id, t, t');
      }
      if Overdue(t) { StepArmed(env, w, who, id, t); }
    }
  }

  lemma Departed(env: Env, w: World, u: UserId, p: Packet)
    requires Inv(env, w) && Leaves(env, w, u, p) && env.strategy.PerFragment?
    ensures MessageOf(p).id !in w.h.timers
    ensures LateTimer(After(env, w, AtUser(u)).h, MessageOf(p).id) <==> SendsLate(env, w, AtUser(u))
  {
    hide Inv, IsNext, Fire, After, Flying;
    var id, t, h' := MessageOf(p).id, TripOf(env, w, u, p), After(env, w, AtUser(u)).h;
    EgressReady(env, w, u);
    LeftIsArmed(env, w, u, p);
    SentFlies(env, w, u, p);
    forall t' | Flying(h', id, t')
      ensures t' == t
    {
      OneTrip(h', id, t, t');
    }
  }

  lemma Fired(env: Env, w: World, u: UserId, id: nat)
    requires Inv(env, w) && CanStep(env, w, AtUser(u)) && env.strategy.PerFragment? && Event(w.s, u) == AckTimeout(id)
    ensures LateTimer(w.h, id) && !LateTimer(After(env, w, AtUser(u)).h, id)
  {
    hide Inv, Fire, Flying, Overdue;
    EventOk(env, w, u);
    var t := ArmedFlies(env, w, id);
    FiredRight(env, w, AtUser(u), id, t);
    assert FiringOf(id)(w, AtUser(u));
    StepArmed(env, w, AtUser(u), id, t);
  }

  lemma OtherTimers(env: Env, w: World, who: Who, id: nat)
    requires Inv(env, w) && CanStep(env, w, who) && env.strategy.PerFragment?
    requires !Departs(w, who, id) && !FiresTimer(w, who, id)
    ensures id in LateTimers(After(env, w, who).h) <==> id in LateTimers(w.h)
  {
    hide Inv, IsNext, Fire, After, LateTimer, LateTimers;
    SameTimer(env, w, who, id);
    LateIsArmed(w.h, id);
    LateIsArmed(After(env, w, who).h, id);
  }

  lemma TimeoutLate(env: Env, w: World, u: UserId, id: nat)
    requires Inv(env, w) && CanStep(env, w, AtUser(u)) && env.strategy.PerFragment? && Event(w.s, u) == AckTimeout(id)
    ensures id in LateTimers(w.h) && LateTimers(After(env, w, AtUser(u)).h) == LateTimers(w.h) - {id}
  {
    hide Inv, Fire, After, LateTimer, LateTimers;
    var before, after := LateTimers(w.h), LateTimers(After(env, w, AtUser(u)).h);
    Fired(env, w, u, id);
    LateIsArmed(w.h, id);
    LateIsArmed(After(env, w, AtUser(u)).h, id);
    forall j | j != id
      ensures j in after <==> j in before
    {
      OtherTimers(env, w, AtUser(u), j);
    }
  }

  lemma EgressLate(env: Env, w: World, u: UserId, p: Packet)
    requires Inv(env, w) && Leaves(env, w, u, p) && env.strategy.PerFragment?
    ensures MessageOf(p).id !in LateTimers(w.h)
    ensures LateTimers(After(env, w, AtUser(u)).h)
         == LateTimers(w.h) + if SendsLate(env, w, AtUser(u)) then {MessageOf(p).id} else {}
  {
    hide Inv, Fire, After, LateTimers, SendsLate;
    var id, before, after := MessageOf(p).id, LateTimers(w.h), LateTimers(After(env, w, AtUser(u)).h);
    Departed(env, w, u, p);
    LateIsArmed(w.h, id);
    LateIsArmed(After(env, w, AtUser(u)).h, id);
    forall j | j != id
      ensures j in after <==> j in before
    {
      OtherTimers(env, w, AtUser(u), j);
    }
  }

  /** A late packet adds a late timer, and firing takes one away. */
  lemma StepLate(env: Env, w: World, who: Who)
    requires Inv(env, w) && CanStep(env, w, who) && env.strategy.PerFragment?
    ensures |LateTimers(After(env, w, who).h)| + One(Fires(w, who)) == |LateTimers(w.h)| + One(SendsLate(env, w, who))
  {
    hide Inv, Fire, After, LateTimers;
    if who.AtUser? && Event(w.s, who.user).AckTimeout? {
      TimeoutLate(env, w, who.user, Event(w.s, who.user).id);
    } else if who.AtUser? && Event(w.s, who.user).Egress? && Core(Event(w.s, who.user).packet).OfMessage? {
      EgressLate(env, w, who.user, Event(w.s, who.user).packet);
    } else {
      forall id: nat
        ensures id in LateTimers(After(env, w, who).h) <==> id in LateTimers(w.h)
      {
        OtherTimers(env, w, who, id);
      }
      assert LateTimers(After(env, w, who).h) == LateTimers(w.h);
    }
  }

  lemma LateIsArmed(h: History, id: nat)
    ensures id in LateTimers(h) <==> LateTimer(h, id)
  {
  }

  lemma {:induction false} RunLate(env: Env, w: World, schedule: seq<Who>, w': World)
    requires Inv(env, w) && Leads(env, w, schedule, w') && env.strategy.PerFragment?
    ensures |LateTimers(w'.h)| + Timeouts(env, w, schedule) == |LateTimers(w.h)| + LateSends(env, w, schedule)
    decreases |schedule|
  {
    hide Inv, LateTimers, SendsLate, Fires, IsNext, Fire, After;
    if schedule == [] {
      LeadsNowhere(env, w, w');
    } else {
      LeadsOn(env, w, schedule, w');
      StepKeeps(env, w, schedule[0]);
      StepLate(env, w, schedule[0]);
      RunLate(env, After(env, w, schedule[0]), schedule[1..], w');
    }
  }

  /** PerFragment: the retransmissions of a halted run are exactly as many as its late packets, and in no run
      are there more. */
  lemma RetransmissionsAreLateSends(env: Env, w0: World, schedule: seq<Who>, w: World)
    requires Start(w0) && Leads(env, w0, schedule, w) && env.strategy.PerFragment?
    ensures Timeouts(env, w0, schedule) <= LateSends(env, w0, schedule)
    ensures NoMoreEvents(w.s) ==> Timeouts(env, w0, schedule) == LateSends(env, w0, schedule)
  {
    hide Inv, NoMoreEvents, LateTimer, Timeouts, LateSends;
    StartKeeps(env, w0);
    RunKeeps(env, w0, schedule, w);
    RunLate(env, w0, schedule, w);
    assert LateTimers(w0.h) == {};
    if NoMoreEvents(w.s) {
      forall id | id in w.h.timers
        ensures false
      {
        LatencyDelivery.NothingWaits(env, w, id);
      }
      assert LateTimers(w.h) == {};
    }
  }

  /** PerFragment: if no packet of a halted run is late, then every message with fragments is recorded exactly
      once and nothing else is. */
  lemma PromptRunsRecordOnce(env: Env, w0: World, schedule: seq<Who>, w: World)
    requires Start(w0) && Leads(env, w0, schedule, w) && NoMoreEvents(w.s) && env.strategy.PerFragment?
    requires LateSends(env, w0, schedule) == 0
    ensures forall k: nat :: Steps(env, w0, schedule, RecordingOf(env, k)) == One(IsMessage(w.h.book.sets, k))
    ensures |w.s.deliveryTimes| == |w.s.firstToLast| == MessagesToSend(w0.s.users)
  {
    hide Start, Leads, NoMoreEvents, LateSends, Timeouts;
    RetransmissionsAreLateSends(env, w0, schedule, w);
    RecordedExactlyOnce(env, w0, schedule, w);
  }
}
