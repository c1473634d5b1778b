# Mix network models: Scylla, Sphinx and the latency simulator

This project models the three parts of the repository and proves properties of the models.

* **The latency simulator** (`latency-sim`). Nodes and users hold time-sorted queues. Messages are split into
  fragments, each fragment travels as an onion packet from node to node with a delay at every hop, and timers
  retransmit what has not been acknowledged: a single fragment (PerFragment) or the whole message
  (WholeMessage). The files `latency_*.dfy` and `queues.dfy` give one step of the simulation as a function on
  states, an invariant that all steps keep, and theorems over whole runs. `latency_simulation.dfy` is the
  simulation as it is written, with objects that are updated in place; each of its methods is proved to do what
  the functions say, so the theorems hold of it. A ghost history records which message belongs to which set,
  which set was rebuilt from which, and where every message is on its way. All random draws come from an
  arbitrary function, so a theorem holds for all of them; the order in which a hash map lists its entries is
  left open.
* **Scylla** (`scylla`). `wrap` builds a header with one encrypted layer for each hop, chained authentication
  tags, a filler string and a layered payload; `process` takes one layer off. Messages are split into several
  onions after an all-or-nothing transform, and reply blocks let a recipient answer. Files `scylla*.dfy`.
* **Sphinx** (`sphinx-benchmarks`). The same idea with another layout: the padding is encrypted, the routing
  information is truncated before it is wrapped, each hop has a delay, and everything has a byte format. Files
  `sphinx*.dfy`. What both headers share is proved once, in `layered_header.dfy`, over `bytes.dfy`.

Cryptographic primitives are values of a datatype of functions. The laws asked of them are predicates
(`GroupLaws`, `CipherLaws`, `HashLaws`, `Permutes`), stated only where a theorem needs them, and
`ToyIsLawful` shows for each of the two collections that they can be met. Random draws of the packet formats
(secrets, padding, identifiers) are parameters.

Where the code differs from its comments, the model follows the code: `KeyMaterial::derive` blinds once more
after the last hop, since its guard against the last round always holds; payload sizes that pass
`validate_parameters` may still be too short for the cipher, which is then reported by the first layer.

`dafny verify dfyconfig.toml` checks the whole project.

## Model

| member | source | states |
|---|---|---|
| `EventQueue.InsertIsStable` | latency-sim/src/main.rs:100-105 | Insertion by partition point keeps a queue sorted and puts an entry behind all entries that are not later, so entries with equal times leave in the order in which they came |
| `EventQueue.InsertMembers` | latency-sim/src/main.rs:138-141 | Insertion adds exactly the new entry and loses none |
| `LatencySim.FragmentsCarryMessages` | latency-sim/src/main.rs:60-74 | Every packet that build_messages makes carries a message under its layers, so `message` and `message_mut` cannot panic on it |
| `LatencyPackets.DelaysUsedOnce` | latency-sim/src/main.rs:409-436 | Hop k of a packet waits for the k-th drawn delay, each delay is used once, and `total_delay` is their sum |
| `LatencyDraws.DestinationsDrawn` | latency-sim/src/main.rs:409-436 | A built packet has one destination for each hop, and each is its own draw modulo one more than the largest node identifier, the innermost hop drawn first |
| `LatencyDraws.FragmentDraws` | latency-sim/src/main.rs:374-403 | Every fragment and every acknowledgement is built from draws of its own |
| `LatencyEffects.NodeEffect` | latency-sim/src/main.rs:245-268 | What a node does with its first packet: the message enters the queue of its recipient now, or exactly the timers of the acknowledged identifier leave a queue, or the packet enters the queue of its next node after its delay there; nothing else changes |
| `LatencyEffects.HandoverEffect` | latency-sim/src/main.rs:279-297 | When a fragment is taken, its acknowledgement enters the network after its first delay and is counted, under PerFragment always and under WholeMessage if a delivery is recorded |
| `LatencyEffects.EgressEffect` | latency-sim/src/main.rs:298-326 | A packet enters the queue of its first node after its first delay if and only if the next draw is not below the drop chance; its timer is due after the timeout for its total delay, under WholeMessage only for the first fragment of a set; it is counted, and one draw is used |
| `LatencyEffects.SendEffect` | latency-sim/src/main.rs:327-333 | A message becomes its fragments, all queued now at their sender, to user 1, with consecutive identifiers, a new set, and acknowledgements that go back to the sender; the draws of all of them are used up |
| `LatencyEffects.ResendEffect` | latency-sim/src/main.rs:336-347 | PerFragment: the fragment is queued again under the next identifier and with a new acknowledgement, everything else in it as it was |
| `LatencyEffects.RebuildEffect` | latency-sim/src/main.rs:348-358 | WholeMessage: the recipient forgets exactly this set, and all fragments are queued again as a new set with the old sending time |
| `LatencyEffects.PacketsCounted` | latency-sim/src/main.rs:283-325 | In every run the packet count is the number of packets sent, dropped or not, and of acknowledgements |
| `LatencyNodeSteps.MessageKeeps` | latency-sim/src/main.rs:255-258 | A message leaving the network is handed to an existing user, and the invariant is kept |
| `LatencyNodeSteps.AckKeeps` | latency-sim/src/main.rs:259-262 | An acknowledgement reaches an existing user; removing its timer keeps the invariant, because an acknowledgement in flight implies that the fragment, or the whole set, has been received |
| `LatencyNodeSteps.RelayKeeps` | latency-sim/src/main.rs:263-266 | The next node exists, and relaying keeps the invariant |
| `LatencyUserSteps.HandoverKeeps` | latency-sim/src/main.rs:279-297 | Taking a fragment keeps the invariant: no subtraction underflows, the acknowledgement finds its node |
| `LatencyEgressSteps.EgressKeeps` | latency-sim/src/main.rs:298-326 | Sending a packet, dropped or not, and setting its timer keeps the invariant under both strategies |
| `LatencySendSteps.SendKeeps` | latency-sim/src/main.rs:327-333 | Building and queueing the fragments of a new message keeps the invariant |
| `LatencyResendSteps.ResendKeeps` | latency-sim/src/main.rs:336-347 | PerFragment: a timer finds its message, and resending it under a new identifier keeps the invariant |
| `LatencyRebuildSteps.RebuildKeeps` | latency-sim/src/main.rs:348-358 | WholeMessage: a timer finds its message, clearing the received part and rebuilding the set keeps the invariant |
| `LatencyRuns.StepKeeps` | latency-sim/src/main.rs:239-366 | Every step that may be taken succeeds and keeps the invariant |
| `LatencyRuns.RunKeeps` | latency-sim/src/main.rs:239-366 | So does every run, of any length and in any interleaving |
| `LatencyRuns.SomeoneIsNext` | latency-sim/src/main.rs:219-237 | Unless no queue holds anything, there is a node or user whose first event is a global minimum, ties between nodes and users going to users |
| `LatencyRuns.NoStepFails` | latency-sim/src/main.rs:239-277 | In every reachable state either nothing is left to do, or someone is next, and then the step neither panics on any `unwrap` nor reports an event in the past |
| `LatencyRuns.TimeMovesForward` | latency-sim/src/main.rs:247-277 | The clock never goes back, and in every state of a run all queues are sorted and hold nothing earlier than the clock |
| `LatencyTransit.ExactTransit` | latency-sim/src/main.rs:253-283 | A packet that leaves its sender at T and is not dropped is handed over at most once, to the recipient of its message and at exactly T plus its total delay, in any interleaving; and it has been handed over once the run halts or the clock is past that time |
| `LatencyTiming.NoSpuriousRetransmission` | latency-sim/src/main.rs:298-325 | PerFragment: if a packet is not dropped and its delay and that of its acknowledgement add up to less than the timeout, its timer never fires |
| `LatencyTransit.TimerFiresExactly` | latency-sim/src/main.rs:259-347 | PerFragment: exactly when a fragment is retransmitted. The timer of a packet fires if and only if the packet is dropped or its delay and that of its acknowledgement add up to at least the timeout; then it fires once, at the time of leaving plus the timeout, in every run that halts or goes on past that time |
| `LatencyWholeTimers.WholeTimerFiresExactly` | latency-sim/src/main.rs:259-320 | WholeMessage: exactly when a message is retransmitted although it has been delivered. If a set is recorded at T, its timer still fires if and only if it is due no later than T plus the delay of the acknowledgement of the fragment that completed the set; then it fires once, when it is due |
| `LatencyWholeTimers.UnrecordedTimerFires` | latency-sim/src/main.rs:308-359 | WholeMessage: the timer of a set that is not recorded fires exactly once, when it is due, in every run that halts or goes on past that time |
| `LatencyFired.TimersFireOnce` | latency-sim/src/main.rs:308-359 | WholeMessage: in no run does the timer of a set fire twice |
| `LatencyWholeTimers.NoTimerAgain` | latency-sim/src/main.rs:308-320 | WholeMessage: every timer of a recorded set that is queued later in a run was queued already when the set was recorded; so if there was none, none fires |
| `LatencyTies.TieRetransmits` | latency-sim/src/main.rs:231-236 | Recording is not exactly-once: under either strategy there is a run in which a packet is not dropped and its delay and that of its acknowledgement add up to exactly the timeout; its timer still fires, since a tie goes to the user, and the one message there was to send is recorded twice. RecordedOnceExactly gives the condition for all runs |
| `LatencyDelivery.SendsBalance` | latency-sim/src/main.rs:327-333 | Over any run the SendMessage events still waiting and the messages taken on add up to what there was to send, for each user and size |
| `LatencyDelivery.HaltingMeansDelivered` | latency-sim/src/main.rs:239-366 | When a run halts, under either strategy and whatever was dropped, each message of at least one fragment that was to be sent has been taken on, and one of the sets built for it has been recorded as delivered |
| `LatencyTotals.AllTakenOn` | latency-sim/src/main.rs:327-333 | When a run halts, the fragment sets built for new messages are as many as the messages with fragments that all users had to send |
| `LatencyTotals.EnoughDeliveries` | latency-sim/src/main.rs:288-291 | When a run halts there are at least as many delivery times as messages with fragments that all users together had to send |
| `LatencyRecords.TimersAreOwned` | latency-sim/src/main.rs:334-351 | Every pending timer has its message in `original_messages`, and no two pending timers of a user have the same identifier |
| `LatencyRecords.TimersComeLast` | latency-sim/src/main.rs:298-320 | No timer is ahead of a pending egress of its message; under PerFragment a queued message has no timer at all |
| `LatencyRecords.OnePendingPerFragment` | latency-sim/src/main.rs:298-347 | PerFragment: at most one egress or timer is pending for each fragment, among all users |
| `LatencyRecords.RecordedWhenComplete` | latency-sim/src/main.rs:279-296 | A delivery is recorded if and only if the recipient then holds exactly the fragments 0 to fragment_size - 1; the figures are taken from the sending time in the fragment and the first arrival noted for its set, and neither subtraction underflows. FiguresExactly says which steps of the run these times belong to |
| `LatencyFigures.FiguresExactly` | latency-sim/src/main.rs:279-291 | Exactly when a delivery is recorded and what is pushed, in terms of the steps of the run: if and only if the user has taken exactly all fragments of the set since its timer last fired; then the first figure is the time since the message was taken on, and the second the time since the user took the first fragment of the set |
| `LatencyFigures.RunFirsts` | latency-sim/src/main.rs:280 | In every run the first arrival noted for a set is the time at which the user took the first fragment of it, and nothing overwrites it |
| `LatencyFigures.RunHolds` | latency-sim/src/main.rs:286 | In every run a user holds exactly the fragments that it has taken since the timer of their set last fired |
| `LatencyFigures.OriginRight` | latency-sim/src/main.rs:327-357 | In every run a set has the sender, the sending time and the size of the SendMessage event it goes back to, through all rebuilds, and is for user 1 |
| `LatencyOnce.RecordedAgainExactly` | latency-sim/src/main.rs:279-296 | PerFragment: exactly when a set is recorded again. When a fragment is handed over, its set has been recorded by an earlier step of the run if and only if the recipient holds exactly all its fragments, and then, and only then, this step records it once more |
| `LatencySurplus.RecordedOnceExactly` | latency-sim/src/main.rs:279-359 | Exactly when recording is exactly-once, under either strategy: when a run halts, every message with fragments has been recorded by exactly one step if and only if no recording was needless. A recording is needless under PerFragment if the recipient held exactly all fragments of the set before, and under WholeMessage if no timer of the set is queued that is due after the acknowledgement will be back |
| `LatencySurplus.RecordingsExactly` | latency-sim/src/main.rs:279-359 | For any choice of messages, when a run halts: the recordings of these messages are one for each of them and one for each needless recording |
| `LatencySurplus.DeliveriesExactly` | latency-sim/src/main.rs:288-291 | When a run halts there are exactly as many delivery times as messages with fragments to send plus needless recordings |
| `LatencySurplus.WholeDeliveriesExactly` | latency-sim/src/main.rs:288-359 | WholeMessage: the delivery times of a halted run are as many as the messages with fragments to send plus the recorded sets whose timers fired |
| `LatencySurplus.FragmentDeliveriesExactly` | latency-sim/src/main.rs:288-291 | PerFragment, in every run: the delivery times are as many as the recorded sets plus the handovers at which the recipient already held exactly all fragments |
| `LatencyOnce.RecordedExactlyOnce` | latency-sim/src/main.rs:279-333 | A sufficient condition that does not look at single steps: if a run halts in which no timer has fired, under either strategy, every message with fragments has been recorded by exactly one step, nothing else has been recorded, and there are exactly as many delivery times as messages |
| `LatencyRetransmits.RetransmissionsAreLateSends` | latency-sim/src/main.rs:298-347 | PerFragment: in a run that halts there are exactly as many retransmissions as packets that were dropped or whose delay and that of their acknowledgement add up to at least their timeout, and in no run are there more |
| `LatencyRetransmits.PromptRunsRecordOnce` | latency-sim/src/main.rs:279-347 | PerFragment: without such packets every message with fragments is recorded exactly once when a run halts |
| `LatencyRepeats.RepeatsAreBounded` | latency-sim/src/main.rs:279-359 | In every run, under either strategy, there are at most as many delivery times as messages with fragments to send plus timers that fire |
| `LatencyRecords.OnlyHandoversRecord` | latency-sim/src/main.rs:288-291 | No other step records a delivery |
| `LatencyRecords.FiguresAreConsistent` | latency-sim/src/main.rs:288-291 | In every run the two lists of figures are equally long and the time from first to last fragment is at most the delivery time, retransmissions included |
| `LatencyRecords.RecordedAtMostOnce` | latency-sim/src/main.rs:286-296 | WholeMessage: no fragment set is recorded twice in any run |
| `LatencyTermination.StepLowersWeight` | latency-sim/src/main.rs:239-366 | Every step that fires no timer lowers a weight made of remaining hops, pending messages, egresses and unsent acknowledgements, in any state |
| `LatencyTermination.RunsAreBounded` | latency-sim/src/main.rs:239-366 | So the length of a run is bounded by its initial weight and the number of timers that fire in it |
| `LatencySimulation.Node.constructor` | latency-sim/src/main.rs:94-98 | A new node has nothing waiting |
| `LatencySimulation.Node.Insert` | latency-sim/src/main.rs:100-105 | The queue becomes what sorted insertion makes of it |
| `LatencySimulation.Node.Next` | latency-sim/src/main.rs:107-109 | The time of the first packet, if any |
| `LatencySimulation.Node.Pop` | latency-sim/src/main.rs:111-113 | Takes off the first packet |
| `LatencySimulation.User.constructor` | latency-sim/src/main.rs:134-136 | A new user has nothing waiting and remembers nothing |
| `LatencySimulation.User.Insert` | latency-sim/src/main.rs:138-141 | The queue becomes what sorted insertion makes of it, and nothing else changes |
| `LatencySimulation.User.Next` | latency-sim/src/main.rs:143-145 | The time of the first event, if any |
| `LatencySimulation.User.Pop` | latency-sim/src/main.rs:147-149 | Takes off the first event |
| `LatencySimulation.User.Retain` | latency-sim/src/main.rs:259-262 | An entry stays if and only if it is not the timer of the acknowledged identifier, and the entries that stay keep their order |
| `LatencySimulation.User.MarkFragment` | latency-sim/src/main.rs:151-153 | Adds the index to the fragments of the set |
| `LatencySimulation.User.FragmentSetSize` | latency-sim/src/main.rs:155-160 | How many different fragments of the set have come |
| `LatencySimulation.User.Take` | latency-sim/src/main.rs:280-286 | Notes the first arrival once, and marks the fragment |
| `LatencySimulation.Simulation.constructor` | latency-sim/src/main.rs:191-205 | An empty simulation at time 0 |
| `LatencySimulation.Simulation.AddNode` | latency-sim/src/main.rs:207-211 | Adds an idle node under the next free identifier; a simulation that has not started stays so |
| `LatencySimulation.Simulation.AddUser` | latency-sim/src/main.rs:213-217 | Adds an idle user under the next free identifier; a simulation that has not started stays so |
| `LatencySimulation.Simulation.Schedule` | latency-sim/src/main.rs:597-599 | A message to be sent is put into a user's queue; a simulation that has not started stays so |
| `LatencySimulation.Simulation.SetDropChance` | latency-sim/src/main.rs:594 | Sets the drop chance of a user; a simulation that has not started stays so |
| `LatencySimulation.Simulation.NextNode` | latency-sim/src/main.rs:220-224 | A node whose first packet is earliest, whatever the order of the hash map; None exactly if all are idle |
| `LatencySimulation.Simulation.NextUser` | latency-sim/src/main.rs:225-229 | A user whose first event is earliest, whatever the order of the hash map; None exactly if all are idle |
| `LatencySimulation.Simulation.Next` | latency-sim/src/main.rs:219-237 | Some earliest node or user, users first; None exactly if nothing waits anywhere |
| `LatencySimulation.Simulation.DrawDelays` | latency-sim/src/main.rs:438-445 | As many draws as asked for, in order |
| `LatencySimulation.Simulation.BuildPacketWithDelays` | latency-sim/src/main.rs:409-431 | The loop builds the packet that the recursive definition says, innermost layer first |
| `LatencySimulation.Simulation.BuildPacket` | latency-sim/src/main.rs:433-436 | A packet with freshly drawn delays |
| `LatencySimulation.Simulation.BuildFragment` | latency-sim/src/main.rs:374-403 | One round of build_messages: the fragment with its acknowledgement, under the next identifier |
| `LatencySimulation.Simulation.BuildMessages` | latency-sim/src/main.rs:368-407 | The loop builds all fragments of a set and advances the counters past them |
| `LatencySimulation.Simulation.Deliver` | latency-sim/src/main.rs:254-267 | What a node unwrapped goes to the user, cancels the timers, or goes on to the next node |
| `LatencySimulation.Simulation.SendAck` | latency-sim/src/main.rs:283-284 | The acknowledgement enters the network and is counted |
| `LatencySimulation.Simulation.Record` | latency-sim/src/main.rs:287-296 | Pushes the two figures, and under WholeMessage sends the acknowledgement |
| `LatencySimulation.Simulation.OnHandover` | latency-sim/src/main.rs:279-297 | The state becomes what OnHandover of the model says |
| `LatencySimulation.Simulation.SetTimer` | latency-sim/src/main.rs:300-321 | Sets a timer and keeps the message; under WholeMessage only for the first fragment of a set |
| `LatencySimulation.Simulation.OnEgress` | latency-sim/src/main.rs:298-326 | The state becomes what OnEgress of the model says, including the drop decision |
| `LatencySimulation.Simulation.OnSendMessage` | latency-sim/src/main.rs:327-333 | The state becomes what OnSendMessage of the model says |
| `LatencySimulation.Simulation.Resend` | latency-sim/src/main.rs:336-347 | The state becomes what Resend of the model says |
| `LatencySimulation.Simulation.Rebuild` | latency-sim/src/main.rs:353-357 | The state becomes what Rebuild of the model says |
| `LatencySimulation.Simulation.OnAckTimeout` | latency-sim/src/main.rs:334-359 | The state becomes what OnAckTimeout of the model says |
| `LatencySimulation.Simulation.StepNode` | latency-sim/src/main.rs:245-268 | One step of a node, as FireNode of the model says; the error case loses the packet it reports |
| `LatencySimulation.Simulation.StepUser` | latency-sim/src/main.rs:271-363 | One step of a user, as FireUser of the model says |
| `LatencySimulation.Simulation.Step` | latency-sim/src/main.rs:239-366 | One call of `step`: some earliest event fires as the model says; in a run the error about the past never comes up, and the new state is again one of that run |
| `LatencySimulation.Simulation.Run` | latency-sim/src/main.rs:589-601 | From an initial state, stepping until nothing is left never panics, and then there are at least as many delivery times as all users together had messages with fragments to send, and as many figures of the other kind; if the limit is reached first, a run of exactly that many steps has been taken |
| `Bytes.XorCancels` | scylla/src/lib.rs:104-110 | Taking the exclusive or with the same longer string twice changes nothing |
| `Bytes.BERoundTrip` | scylla/src/lib.rs:454-455 | A number that fits is read back from its big-endian bytes |
| `Bytes.BEInverse` | sphinx-benchmarks/src/header/delays.rs:45-53 | Big-endian bytes are written back from the number they stand for |
| `Bytes.LeadingZeros` | scylla/src/lib.rs:314-315 | Zeros in front of big-endian bytes change nothing, so the 8 bytes of an index are read as 16 |
| `LayeredHeader.LayerUndone` | scylla/src/lib.rs:348-389 | The filler invariant: if the inner header ends in the filler of i + 1 hops, the layer around it ends in that of i hops, and its node recovers the routing information and the whole inner header, the block cut off included |
| `LayeredHeader.FrontDecrypts` | scylla/src/lib.rs:428-436 | What was encrypted first can be read by its node whatever follows it |
| `ScyllaPrimitives.ToyIsLawful` | scylla/src/lib.rs:186-246 | The laws assumed of the primitives can be met: residues modulo 251 meet them |
| `ScyllaPrimitives.PiUndone` | scylla/src/lib.rs:228-246 | The payload cipher is a permutation that keeps the length, the identity on the empty payload |
| `ScyllaPaths.AlphaIsPower` | scylla/src/lib.rs:335-346 | The blinded group element is always the base point times the blinding factor of the sender |
| `ScyllaPaths.SecretsAgree` | scylla/src/lib.rs:339-346 | Node and sender compute the same shared secret |
| `ScyllaPaths.HeaderEndsInFiller` | scylla/src/lib.rs:348-389 | At every layer the header ends in the filler string of the hops before |
| `ScyllaPaths.RelaySees` | scylla/src/lib.rs:428-432 | A relay decrypts its routing information followed by the complete next header |
| `ScyllaPaths.ProcessHandles` | scylla/src/lib.rs:411-436 | Every integrity check on the path passes, whatever the payload |
| `ScyllaPaths.RelayPeels` | scylla/src/lib.rs:438-452 | A relay outputs the next address followed by zeros and exactly the onion meant for the next hop, with one payload layer less |
| `ScyllaPaths.LastPeels` | scylla/src/lib.rs:453-468 | The last hop outputs what the sender put in for it |
| `ScyllaPaths.JourneyFrom` | scylla/src/lib.rs:411-471 | From any hop on, with any payload: the onion is relayed along the rest of the path at constant length |
| `ScyllaPaths.ProcessingUndoesWrapping` | scylla/src/lib.rs:324-471 | For every path of length 1 to max_path_length: each hop learns the next address and passes on an onion of constant length, the last gets the final information and the original payload |
| `ScyllaWrap.DeriveSecrets` | scylla/src/lib.rs:333-346 | The loop computes the shared secret of every hop |
| `ScyllaWrap.MakeFiller` | scylla/src/lib.rs:348-357 | The loop computes the filler string |
| `ScyllaWrap.MakeHeader` | scylla/src/lib.rs:359-389 | The loop computes the header of the first hop; its length is right in every round |
| `ScyllaWrap.MakePayload` | scylla/src/lib.rs:393-396 | The loop puts one layer around the payload for each hop, the first hop outermost |
| `ScyllaWrap.Wrap` | scylla/src/lib.rs:324-405 | Returns the shared secrets and the onion that ProcessingUndoesWrapping is about |
| `ScyllaWrap.CreateSurb` | scylla/src/lib.rs:488-499 | Returns the reply block and the payload keys of its hops |
| `ScyllaWrap.UnwrapReply` | scylla/src/lib.rs:501-507 | The loop puts all layers back around the reply |
| `ScyllaWrap.ReplyRoundTrip` | scylla/src/lib.rs:488-507 | Any text appended to a reply block reaches the last node of the path with the chosen meta data, and `unwrap_reply` with the keys of the block gives back the text, for every path length |
| `ScyllaAont.CutLikeFlattens` | scylla/src/lib.rs:141-150 | Cutting a message at the boundaries of fragments loses nothing |
| `ScyllaAont.MaskedPiece` | scylla/src/lib.rs:145-150 | Masking a fragment with the keystream from its running offset on is masking it as part of the whole message |
| `ScyllaAont.TransformUndone` | scylla/src/lib.rs:132-184 | `aont_inv` undoes `aont` and recovers the randomness, for every nonempty list of fragments |
| `ScyllaAont.RestoreUndone` | scylla/src/lib.rs:132-184 | `aont` with the recovered randomness undoes `aont_inv`, so the transform is a permutation |
| `ScyllaAont.Aont` | scylla/src/lib.rs:132-156 | The loop over the fragments equals one Feistel pass over the concatenated message, cut at the same boundaries |
| `ScyllaAont.AontInv` | scylla/src/lib.rs:158-184 | So does the loop of the inverse; it fails exactly on an empty list or a first fragment without room for the randomness |
| `ScyllaFragments.CheckOnions` | scylla/src/lib.rs:270-288 | Which error is reported, and when: wrong number of paths, wrong sizes, paths that end at different nodes |
| `ScyllaFragments.PayloadSizes` | scylla/src/lib.rs:276-303 | Accepted fragments are all of the payload size after the transform, so the assertion about them holds |
| `ScyllaFragments.CreateOnions` | scylla/src/lib.rs:264-322 | Returns one onion per path, the error, or fails as the specification says |
| `ScyllaFragments.Defrag` | scylla/src/lib.rs:473-486 | Returns the destination and the message, MissingFragments if the leading zeros are missing, or fails on lists that are too short |
| `ScyllaFragments.FragmentReceived` | scylla/src/lib.rs:453-461 | The last hop reads back the index and the set identifier |
| `ScyllaFragments.SortedIsUnique` | scylla/src/lib.rs:484-485 | Fragments with different indices can be sorted by index in one way only |
| `ScyllaFragments.OnionArrives` | scylla/src/lib.rs:264-322 | Onion i, routed along its own path, arrives as fragment i of the one set |
| `ScyllaFragments.FragmentsRoundTrip` | scylla/src/lib.rs:473-486 | Sorting the fragments by index, in whatever order they came, and calling `defrag` gives the destination and the concatenation of the original fragments |
| `ScyllaFragments.MessageArrives` | scylla/src/lib.rs:264-486 | End to end: what the last nodes get out of the onions of a message, collected in any order, sorted and put together, is the destination and the message |
| `ScyllaBytes.ProcessExactly` | scylla/src/lib.rs:411-470 | What a node makes of any onion that is long enough and starts with a point: MacMismatch if and only if the tag is not the one of its header, InvalidHeaderFlag for unknown flags, and otherwise every byte of the output in terms of the primitives and their keys |
| `ScyllaBytes.ProcessFails` | scylla/src/lib.rs:412-420 | Shorter onions, and onions that do not start with a point, make it fail |
| `ScyllaBytes.WrappedFront` | scylla/src/lib.rs:333-346 | An onion starts with the base point times the secret drawn for it |
| `ScyllaBytes.LastHeaderBytes` | scylla/src/lib.rs:359-373 | The header for the last hop holds the final information under the keystream of that hop, and the padding as drawn |
| `ScyllaBytes.OnionsDrawn` | scylla/src/lib.rs:305-320 | Onion i is wrapped with secret, padding and index i |
| `ScyllaBytes.TransformedBytes` | scylla/src/lib.rs:132-156 | Byte by byte: the randomness is masked with the hash of everything that follows it, and the message with the keystream of the randomness |
| `ScyllaBytes.RestoredBytes` | scylla/src/lib.rs:158-184 | Byte by byte: the inverse takes both masks off |
| `ScyllaBytes.PayloadBytes` | scylla/src/lib.rs:291-299 | The payloads are 16 zeros, the destination and the message under the transform with the randomness drawn |
| `ScyllaBytes.DefragExactly` | scylla/src/lib.rs:473-486 | MissingFragments is returned if and only if the restored data does not start with 16 zero bytes; a destination and a message if and only if the data is these zeros, 32 bytes of destination and the message |
| `ScyllaBytes.ComplaintExactly` | scylla/src/lib.rs:270-288 | Exactly when each of the three errors is reported |
| `ScyllaBytes.CreatedFails` | scylla/src/lib.rs:264-288 | An error is returned exactly when it is reported |
| `SphinxPrimitives.ToyIsLawful` | sphinx-benchmarks/src/crypto/keys.rs:58-62 | The laws assumed of the primitives can be met: residues modulo 251 meet them |
| `SphinxPrimitives.DeriveParts` | sphinx-benchmarks/src/header/keys.rs:48-79 | The stream key, the integrity key, the payload key and the blinding factor are consecutive and use up the whole output of the key derivation |
| `SphinxHeader.DeriveKeyMaterial` | sphinx-benchmarks/src/header/keys.rs:110-148 | The loop derives the keys of every hop from the blinded accumulator |
| `SphinxHeader.XorWith` | sphinx-benchmarks/src/utils/bytes.rs:25-32 | Replaces the contents of its first argument by the exclusive or |
| `SphinxHeader.StepFiller` | sphinx-benchmarks/src/header/filler.rs:53-77 | One step of the filler, taking the end of the keystream of fixed length |
| `SphinxHeader.NewFiller` | sphinx-benchmarks/src/header/filler.rs:28-51 | The filler after all hops but the last |
| `SphinxHeader.MakeHeader` | sphinx-benchmarks/src/header/mod.rs:52-80 | Returns the header for the first hop and the payload keys of all hops |
| `SphinxHeader.ParseAsForwardHop` | sphinx-benchmarks/src/header/routing/nodes.rs:214-249 | The moving cursor reads the fields of a forward hop |
| `SphinxHeader.ParseAsFinalHop` | sphinx-benchmarks/src/header/routing/nodes.rs:252-269 | The moving cursor reads the fields of the final hop |
| `SphinxPacket.KeysAgree` | sphinx-benchmarks/src/header/mod.rs:142-148 | A node derives the keys that the sender derived for it, and blinds the group element as the sender does |
| `SphinxPacket.NextLayer` | sphinx-benchmarks/src/header/routing/mod.rs:117-150 | The fold over the zipped sequences wraps layer i around layer i + 1, with the address of hop i + 1 and the keys and delay of hop i |
| `SphinxPacket.LayerIsEncrypted` | sphinx-benchmarks/src/header/routing/nodes.rs:67-99 | Truncating before encrypting gives the same layer as cutting off what does not fit |
| `SphinxPacket.LastLayer` | sphinx-benchmarks/src/header/routing/destination.rs:66-147 | The innermost layer is the encrypted and padded destination followed by the filler |
| `SphinxPacket.RoutingEndsInFiller` | sphinx-benchmarks/src/header/routing/nodes.rs:123-185 | At every layer the routing information ends in the filler string of the hops before |
| `SphinxPacket.ForwardSees` | sphinx-benchmarks/src/header/routing/nodes.rs:144-185 | A node decrypts its own routing information followed by the complete next one |
| `SphinxPacket.ForwardParsed` | sphinx-benchmarks/src/header/routing/nodes.rs:197-249 | Every field of a forward hop is parsed where it was written |
| `SphinxPacket.FinalParsed` | sphinx-benchmarks/src/header/routing/nodes.rs:252-269 | Every field of the final hop is parsed where it was written |
| `SphinxPacket.ForwardPeels` | sphinx-benchmarks/src/header/mod.rs:150-187 | Hop k passes its integrity check and returns the header of hop k + 1, the address of node k + 1 and its own delay |
| `SphinxPacket.FinalPeels` | sphinx-benchmarks/src/header/mod.rs:188-194 | The last hop returns the destination and the identifier |
| `SphinxPacket.JourneyFrom` | sphinx-benchmarks/src/packet/mod.rs:96-120 | From any hop on, with any payload: the packet is forwarded along the rest of the route and loses one payload layer per hop |
| `SphinxPacket.MakePacket` | sphinx-benchmarks/src/packet/builder.rs:31-48 | Builds the packet for a route, or reports that the message does not fit |
| `SphinxPacket.WhenBuilt` | sphinx-benchmarks/src/payload/mod.rs:58-86 | A packet is built exactly if the message fits and the payload is long enough for the cipher |
| `SphinxPacket.PacketArrives` | sphinx-benchmarks/src/packet/mod.rs:96-120 | For every route of length 1 to MAX_PATH_LENGTH with matching delays: hop k forwards to node k + 1 after its delay, the last returns destination and identifier, and its payload holds the message |
| `SphinxBytes.ProcessHeaderExactly` | sphinx-benchmarks/src/header/mod.rs:150-196 | What a node makes of any header: InvalidHeader if and only if the tag is not that of the routing information under the derived integrity key, InvalidRouting for unknown flags, and otherwise every byte of the output, the keys being slices of the key derivation |
| `SphinxBytes.ProcessPacketExactly` | sphinx-benchmarks/src/packet/mod.rs:96-120 | The errors of the header come first, then a payload too short for the cipher is refused, and otherwise it is decrypted with the payload key |
| `SphinxBytes.WrongTagRefused` | sphinx-benchmarks/src/header/mod.rs:153-161 | A packet is refused with InvalidHeader if and only if its tag is wrong |
| `SphinxBytes.HeaderStarts` | sphinx-benchmarks/src/header/mod.rs:52-80 | A header starts from the public key of the secret drawn for it |
| `SphinxBytes.ForwardInfoBytes` | sphinx-benchmarks/src/header/routing/nodes.rs:67-99 | Flag, version, address, delay and tag of a forward hop, by position |
| `SphinxBytes.FinalInfoBytes` | sphinx-benchmarks/src/header/routing/destination.rs:66-100 | Flag, version, destination and identifier of the final hop, by position |
| `SphinxPayload.PaddingUndone` | sphinx-benchmarks/src/payload/mod.rs:91-177 | Padding is undone for every message that fits, even one that contains or ends in zeros and ones |
| `SphinxPayload.RecoveredIsPadded` | sphinx-benchmarks/src/payload/mod.rs:138-177 | Conversely a recovered message stood between the leading zeros and the last one |
| `SphinxBytes.RecoveredExactly` | sphinx-benchmarks/src/payload/mod.rs:138-177 | Exactly which payloads a message is recovered from, and the error for all others |
| `SphinxBytes.EncapsulatedExactly` | sphinx-benchmarks/src/payload/mod.rs:39-118 | Exactly when a payload is built, and what it is without keys |
| `SphinxPayload.EncapsulateMessage` | sphinx-benchmarks/src/payload/mod.rs:39-118 | The loop encrypts in reverse order of the keys; which errors are reported, and when |
| `SphinxPayload.EncapsulationUndone` | sphinx-benchmarks/src/payload/mod.rs:39-177 | Taking off all layers in order and the padding gives back the message, for every list of keys |
| `SphinxSurb.HeaderWritten` | sphinx-benchmarks/src/header/mod.rs:198-234 | A header is read back from its bytes, through the nested encoders |
| `SphinxSurb.HeaderRead` | sphinx-benchmarks/src/header/routing/mod.rs:152-192 | Exactly the strings of the header size are accepted, and each is what is written for the header read from it |
| `SphinxSurb.PacketWritten` | sphinx-benchmarks/src/packet/mod.rs:122-151 | A packet is read back from its bytes exactly if its payload has the minimal size |
| `SphinxSurb.PacketRead` | sphinx-benchmarks/src/packet/mod.rs:131-151 | Exactly the strings that are long enough are accepted, and writing undoes reading |
| `SphinxBytes.PacketLayout` | sphinx-benchmarks/src/packet/mod.rs:122-129 | Where the shared secret, the tag, the routing information and the payload are in the bytes of a packet |
| `SphinxBytes.SurbLayout` | sphinx-benchmarks/src/surb/mod.rs:114-121 | Where the header, the first address and the keys are in the bytes of a reply block |
| `SphinxBytes.SurbExactly` | sphinx-benchmarks/src/surb/mod.rs:62-94 | A reply block is made if and only if the route is not empty and has as many delays |
| `SphinxSurb.ReadSurb` | sphinx-benchmarks/src/surb/mod.rs:123-162 | The loop cuts the keys out of the string; which strings are refused |
| `SphinxSurb.SurbWritten` | sphinx-benchmarks/src/surb/mod.rs:114-162 | A reply block with any positive number of keys is read back from its bytes; one without keys is refused |
| `SphinxSurb.SurbRead` | sphinx-benchmarks/src/surb/mod.rs:123-162 | Which strings are accepted, and that writing undoes reading |
| `SphinxSurb.SurbRoundTrip` | sphinx-benchmarks/src/surb/mod.rs:62-112 | A reply block, written to bytes and read back, carries any message that fits along its route to its destination, where the message is recovered |

## Left out

- HaltingMeansDelivered: says nothing about messages of no fragments, which the code never delivers because no fragment of theirs ever arrives.
- Run: takes at most a given number of steps, because with a drop chance the loop in the code may go on for ever; RunsAreBounded says how long a run can be.
- Simulation: unsigned overflow is not modelled; all counters and times are unbounded. There is at least one node, user 1 exists and `num_hops` is at least 1 in all runs, as in `run`.
- The timeout, computed in 32-bit floating point from the total delay, is an arbitrary function of the total delay. Drop chances and drop draws are numbers on a common grid.
- `partition_point` is modelled as the length of the longest prefix that is not later; on the sorted queues of every run a binary search finds the same point.
- The statistics, quantiles, the CSV file, the thread pool, `main`, and the sampling of delays from an exponential distribution.
- The primitives themselves: curve arithmetic and clamping, the stream ciphers, Lioness, the hash functions, HMAC, and HKDF (section 2.3 of RFC 5869). Decompression is only required to undo compression on multiples of the base point.
- Secrecy and authenticity: anonymity, unforgeability of tags, and that `defrag` refuses incomplete or misordered sets. These hold with high probability only.
- Wrap: is not defined for empty paths and paths longer than the maximum, where an index or a subtraction in the code fails; CreateOnions says so explicitly.
- MakeHeader: requires a route of length 1 to MAX_PATH_LENGTH and as many delays, which the code asserts.
- RecoverPlaintext: the debug assertion about the minimal length of a payload is not modelled; the length is not needed for what is proved.
- AddLayer: encrypts a value where the code encrypts a buffer in place; the buffer is owned by the payload, so nothing else sees the difference.
- `header_length` is computed without the overflow of 32-bit numbers.
- `process_with_derived_keys`, base58 addresses, arithmetic on delays, error texts, benchmarks, examples, the notebook and the shell scripts.
