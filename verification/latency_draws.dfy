/** Which random draw goes where: every destination and every delay of the packets that are built. */
module LatencyDraws {
  import opened EventQueue
  import opened LatencySim
  import opened LatencyPackets

  /** The node of each hop, outermost first. */
  function HopNodes(p: Packet): seq<NodeId> {
    [p.destination] + if p.content.OfPacket? then HopNodes(p.content.packet) else []
  }

  /** The nodes already inside a content. */
  function InnerNodes(content: Content): seq<NodeId> {
    if content.OfPacket? then HopNodes(content.packet) else []
  }

  /** `hops` nodes drawn from `cursor` on, the last draw first. */
  function DrawnNodes(env: Env, range: Pos, cursor: nat, hops: nat): (r: seq<NodeId>)
    ensures |r| == hops
  {
    seq(hops, j requires 0 <= j < hops => env.tape(cursor + hops - 1 - j) % range)
  }

  lemma DrawnMore(env: Env, range: Pos, cursor: nat, hops: nat)
    requires 0 < hops
    ensures DrawnNodes(env, range, cursor, hops)
         == DrawnNodes(env, range, cursor + 1, hops - 1) + [env.tape(cursor) % range]
  {
  }

  lemma HopNodesOf(p: Packet)
    ensures HopNodes(p) == [p.destination] + InnerNodes(p.content)
  {
  }

  lemma {:induction false} BuildNodes(env: Env, range: Pos, cursor: nat, hops: Pos, content: Content,
                                      delays: seq<Timestamp>)
    requires hops <= |delays|
    ensures HopNodes(BuildPacketWithDelays(env, range, cursor, hops, content, delays))
         == DrawnNodes(env, range, cursor, hops) + InnerNodes(content)
    decreases hops
  {
    hide DrawnNodes, HopNodes;
    var node, last := env.tape(cursor) % range, |delays| - 1;
    DrawnMore(env, range, cursor, hops);
    if hops == 1 {
      HopNodesOf(Packet(node, delays[0], content));
      assert DrawnNodes(env, range, cursor + 1, 0) == [];
    } else {
      var packet := Packet(node, delays[last], content);
      HopNodesOf(packet);
      BuildNodes(env, range, cursor + 1, hops - 1, OfPacket(packet), delays[..last]);
      var front, inner := DrawnNodes(env, range, cursor + 1, hops - 1), InnerNodes(content);
      assert front + ([node] + inner) == (front + [node]) + inner;
    }
  }

  /** `p` has as many hops as there should be. The delay of hop `j` is draw `j` from `cursor` on; the draws after
      these choose the nodes among the first `range`, from the last hop to the first. */
  ghost predicate DrawnFrom(env: Env, range: Pos, cursor: nat, p: Packet) {
    && |HopDelays(p)| == |HopNodes(p)| == env.numHops
    && forall j {:trigger HopDelays(p)[j]} {:trigger HopNodes(p)[j]} :: 0 <= j < env.numHops ==>
         && HopDelays(p)[j] == env.tape(cursor + j)
         && HopNodes(p)[j] == env.tape(cursor + 2 * env.numHops - 1 - j) % range
  }

  /** Every packet is built from its own draws. */
  lemma PacketDraws(env: Env, range: Pos, cursor: nat, content: Content)
    requires !content.OfPacket?
    ensures DrawnFrom(env, range, cursor, BuildPacket(env, range, cursor, content))
  {
    hide BuildPacketWithDelays, HopNodes, HopDelays;
    var delays := DrawDelays(env, cursor, env.numHops);
    DelaysUsedOnce(env, range, cursor, content);
    BuildNodes(env, range, cursor + env.numHops, env.numHops, content, delays);
    var p := BuildPacket(env, range, cursor, content);
    assert HopNodes(p) == DrawnNodes(env, range, cursor + env.numHops, env.numHops);
  }

  /** Nodes are chosen among the identifiers from 0 to the largest. */
  lemma RangeIsAll(ids: set<NodeId>, largest: NodeId)
    requires IsMax(ids, largest)
    ensures RangeOf(ids) == largest + 1
  {
    MaxExists(ids);
  }

  /** The destinations of a packet, outermost first: as many as there are hops, and each a draw modulo one more
      than the largest node identifier, the last draw first. */
  lemma DestinationsDrawn(env: Env, s: State, largest: NodeId, cursor: nat, content: Content)
    requires !content.OfPacket? && IsMax(s.nodes.Keys, largest)
    ensures var nodes := HopNodes(BuildPacket(env, NodeRange(s), cursor, content));
            && |nodes| == env.numHops
            && forall j :: 0 <= j < env.numHops ==>
                 nodes[j] == env.tape(cursor + 2 * env.numHops - 1 - j) % (largest + 1)
  {
    hide BuildPacket, HopNodes, HopDelays;
    RangeIsAll(s.nodes.Keys, largest);
    PacketDraws(env, NodeRange(s), cursor, content);
  }

  /** The draws of fragment `i` of a batch: first those of its acknowledgement, then its own. */
  lemma FragmentDraws(env: Env, b: Batch, id: nat, cursor: nat, i: nat)
    requires i < b.size
    ensures var p, c := BuildFragments(env, b, 0, id, cursor)[i], cursor + 4 * env.numHops * i;
            && Core(p).OfMessage? && DrawnFrom(env, b.range, c, MessageOf(p).ack)
            && DrawnFrom(env, b.range, c + 2 * env.numHops, p)
  {
    hide BuildPacket, DrawnFrom;
    FragmentIs(env, b, 0, id, cursor, i);
    var c := cursor + 4 * env.numHops * i;
    PacketAndAck(env, b.range, c, FragmentMessage(env, b, i, id + i, c),
                 Ack(if env.strategy.PerFragment? then id + i else b.fragmentSet, b.sender));
  }

  lemma {:induction false} FragmentIs(env: Env, b: Batch, index: nat, id: nat, cursor: nat, i: nat)
    requires index <= b.size && i < b.size - index
    ensures BuildFragments(env, b, index, id, cursor)[i]
         == FragmentPacket(env, b, index + i, id + i, cursor + 4 * env.numHops * i)
    decreases i
  {
    hide FragmentPacket;
    var step := 4 * env.numHops;
    if i > 0 {
      Distribute(step, i);
      FragmentIs(env, b, index + 1, id + 1, cursor + step, i - 1);
    }
  }

  lemma Distribute(a: nat, i: nat)
    requires 0 < i
    ensures a + a * (i - 1) == a * i
  {
  }

  /** A message built around a newly built acknowledgement. */
  lemma PacketAndAck(env: Env, range: Pos, cursor: nat, m: Message, ack: Ack)
    requires m.ack == BuildPacket(env, range, cursor, OfAck(ack))
    ensures var p := BuildPacket(env, range, cursor + 2 * env.numHops, OfMessage(m));
            && Core(p) == OfMessage(m) && DrawnFrom(env, range, cursor, m.ack)
            && DrawnFrom(env, range, cursor + 2 * env.numHops, p)
  {
    hide DrawnFrom, HopNodes, HopDelays, BuildPacketWithDelays;
    PacketDraws(env, range, cursor, OfAck(ack));
    PacketDraws(env, range, cursor + 2 * env.numHops, OfMessage(m));
    BuildCore(env, range, cursor + 2 * env.numHops + env.numHops, env.numHops, OfMessage(m),
              DrawDelays(env, cursor + 2 * env.numHops, env.numHops));
  }

  /** A new sending time changes no hop. */
  lemma {:induction false} RedatedHops(p: Packet, t: Timestamp)
    requires Core(p).OfMessage?
    ensures HopNodes(WithSendingTime(p, t)) == HopNodes(p) && HopDelays(WithSendingTime(p, t)) == HopDelays(p)
  {
    if p.content.OfPacket? {
      RedatedHops(p.content.packet, t);
    }
  }

  lemma {:induction false} CursorIs(env: Env, cursor: nat, num: nat)
    ensures CursorAfter(env, cursor, num) == cursor + 4 * env.numHops * num
    decreases num
  {
    if num > 0 {
      CursorIs(env, cursor + 4 * env.numHops, num - 1);
      Distribute(4 * env.numHops, num);
    }
  }
}
