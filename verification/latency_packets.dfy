/** What the packet builders make. */
module LatencyPackets {
  import opened EventQueue
  import opened LatencySim
  import opened LatencyInvariant

  ghost predicate RangeIn(range: nat, nodes: set<NodeId>) {
    forall d: nat :: d < range ==> d in nodes
  }

  lemma {:induction false} BuildRoute(env: Env, range: Pos, cursor: nat, hops: Pos, content: Content,
                                      delays: seq<Timestamp>, nodes: set<NodeId>)
    requires hops <= |delays| && RangeIn(range, nodes) && (content.OfPacket? ==> RouteOk(nodes, content.packet))
    ensures RouteOk(nodes, BuildPacketWithDelays(env, range, cursor, hops, content, delays))
    decreases hops
  {
    var node := env.tape(cursor) % range;
    assert 0 <= node < range;
    if hops > 1 {
      var last := |delays| - 1;
      BuildRoute(env, range, cursor + 1, hops - 1, OfPacket(Packet(node, delays[last], content)), delays[..last],
                 nodes);
    }
  }

  /** `BuildPacket` makes a routable packet around its content. */
  lemma BuiltPacket(env: Env, range: Pos, cursor: nat, content: Content, nodes: set<NodeId>)
    requires RangeIn(range, nodes) && !content.OfPacket?
    ensures var p := BuildPacket(env, range, cursor, content); RouteOk(nodes, p) && Core(p) == content
  {
    var delays := DrawDelays(env, cursor, env.numHops);
    BuildRoute(env, range, cursor + env.numHops, env.numHops, content, delays, nodes);
    BuildCore(env, range, cursor + env.numHops, env.numHops, content, delays);
  }

  /** The delay that a packet meets at each hop, outermost first. */
  function HopDelays(p: Packet): seq<Timestamp> {
    [p.delay] + if p.content.OfPacket? then HopDelays(p.content.packet) else []
  }

  function SumOf(ds: seq<nat>): nat {
    if ds == [] then 0 else ds[0] + SumOf(ds[1..])
  }

  lemma {:induction false} TotalIsSum(p: Packet)
    ensures TotalDelay(p) == SumOf(HopDelays(p))
  {
    if p.content.OfPacket? {
      TotalIsSum(p.content.packet);
      assert HopDelays(p)[1..] == HopDelays(p.content.packet);
    } else {
      assert HopDelays(p) == [p.delay];
      assert SumOf(HopDelays(p)[1..]) == 0;
    }
  }

  /** The delays already inside a content. */
  function InnerDelays(content: Content): seq<Timestamp> {
    if content.OfPacket? then HopDelays(content.packet) else []
  }

  lemma MoveLast<T>(s: seq<T>, tail: seq<T>)
    requires s != []
    ensures s[..|s| - 1] + ([s[|s| - 1]] + tail) == s + tail
  {
  }

  lemma {:induction false} BuildDelays(env: Env, range: Pos, cursor: nat, hops: Pos, content: Content,
                                       delays: seq<Timestamp>)
    requires hops == |delays|
    ensures HopDelays(BuildPacketWithDelays(env, range, cursor, hops, content, delays)) == delays + InnerDelays(content)
    decreases hops
  {
    var node, last := env.tape(cursor) % range, |delays| - 1;
    MoveLast(delays, InnerDelays(content));
    if hops == 1 {
      assert HopDelays(Packet(node, delays[0], content)) == [delays[0]] + InnerDelays(content);
    } else {
      BuildDelays(env, range, cursor + 1, hops - 1, OfPacket(Packet(node, delays[last], content)), delays[..last]);
    }
  }

  /** Hop k of a built packet waits for the k-th drawn delay, so the total delay is the sum of the draws. */
  lemma DelaysUsedOnce(env: Env, range: Pos, cursor: nat, content: Content)
    requires !content.OfPacket?
    ensures var p, delays := BuildPacket(env, range, cursor, content), DrawDelays(env, cursor, env.numHops);
            HopDelays(p) == delays && TotalDelay(p) == SumOf(delays)
  {
    BuildDelays(env, range, cursor + env.numHops, env.numHops, content, DrawDelays(env, cursor, env.numHops));
    TotalIsSum(BuildPacket(env, range, cursor, content));
  }

  lemma {:induction false} FragmentAt(env: Env, b: Batch, index: nat, id: nat, cursor: nat, i: nat) returns (c: nat)
    requires index <= b.size && i < b.size - index
    ensures BuildFragments(env, b, index, id, cursor)[i] == FragmentPacket(env, b, index + i, id + i, c)
    decreases i
  {
    if i == 0 {
      c := cursor;
    } else {
      c := FragmentAt(env, b, index + 1, id + 1, cursor + 4 * env.numHops, i - 1);
    }
  }

  /** `p` carries fragment `index` of the batch, under identifier `id`. */
  predicate Carries(env: Env, nodes: set<NodeId>, b: Batch, index: nat, id: nat, p: Packet) {
    && RouteOk(nodes, p) && Core(p).OfMessage?
    && var m := MessageOf(p);
       && m.id == id && m.sendingTime == b.now && m.recipient == b.recipient && m.sender == b.sender
       && m.fragmentSet == b.fragmentSet && m.fragmentSize == b.size && m.fragmentIndex == index
       && RouteOk(nodes, m.ack) && Core(m.ack) == OfAck(Ack(TimerId(env, m), m.sender))
  }

  lemma FragmentCarries(env: Env, b: Batch, id: nat, cursor: nat, i: nat, nodes: set<NodeId>)
    requires i < b.size && RangeIn(b.range, nodes)
    ensures Carries(env, nodes, b, i, id + i, BuildFragments(env, b, 0, id, cursor)[i])
  {
    var c := FragmentAt(env, b, 0, id, cursor, i);
    var key := if env.strategy.PerFragment? then id + i else b.fragmentSet;
    BuiltPacket(env, b.range, c, OfAck(Ack(key, b.sender)), nodes);
    BuiltPacket(env, b.range, c + 2 * env.numHops, OfMessage(FragmentMessage(env, b, i, id + i, c)), nodes);
  }

  lemma {:induction false} RedatedPacket(p: Packet, t: Timestamp, nodes: set<NodeId>)
    requires Core(p).OfMessage?
    ensures var r := WithSendingTime(p, t);
            && Core(r) == OfMessage(MessageOf(p).(sendingTime := t)) && TotalDelay(r) == TotalDelay(p)
            && RouteOk(nodes, r) == RouteOk(nodes, p)
  {
    if p.content.OfPacket? {
      RedatedPacket(p.content.packet, t, nodes);
    }
  }
}
