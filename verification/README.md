# Verified models of qpwgraph-rs

This project models the parts of the patchbay whose correctness depends on protocols, arithmetic or
multi-step state rather than on a single function, and proves what they promise for every input, every
run and every reachable state. `dafny verify dfyconfig.toml` checks all of it.

* **Realtime audio plumbing.** `SpscRing` is the lock-free block ring as a two-thread step system with
  stale index loads and wrapping indices. `HushQueue` is the same ring as a sequential object together
  with the reader that overlays finished wet blocks on a request. `DryDelay` is the dry delay ring and
  `HushNoise` the callback that puts the two together.
* **Stream adapters.** `AdaptiveNoise` assembles 480-sample model frames and keeps a lead queued;
  `DriftAdapter` reads the relay's playback queue at a micro-adjusted rate.
* **Layout.** `Layering` is the worklist that assigns graph layers, on any graph; `Layout` turns layers into
  columns, orders the columns by barycentre sweeps (`StableSort` stands for the library sort) and stacks them.
* **Graph store and effects.** `Graph` holds the graph values and the store, `EndpointResolver` the scored
  matching of saved ports, `OwnedNodes` and `DriverState` what driver operations do to a whole state,
  `InsertRemove` when an inserted effect can be taken out without a trace, `DemoDriver` the in-memory driver
  itself, step by step, with its rollback, and `DriverRun` whole runs of it.
* **Resource protocols.** `Lifecycle` is the asynchronous preparation manager as a step system of one control
  thread and any number of loaders; `Requests` joins it to the driver, from the request to the report of its end;
  `MidiDriver` counts the users of shared MIDI handles.

Where the original updates an object, the model is a class whose methods are proved against a specification
function or relation over values, and the promises are lemmas about that specification. Where the original is
a concurrent protocol, the model is a step system and the promises hold for every interleaving. Some predicates
bind their conjunction to a name before returning it (`var sound := A && B; sound`): the verifier then proves and
uses them as one fact instead of one obligation per conjunct.

## What turned out to hold only under a condition

* **Layers.** The layer of a node is not only a longest path on acyclic graphs: on every graph it is the length of
  the longest walk to the node, capped at one less than the number of nodes, and the worklist order cannot change
  it (`Layering.LayersAreLongestWalks`, `Layering.LayeringIsUnique`). Every link leads to a later layer if and only
  if the graph has no cycle. In the final picture no link of an acyclic graph runs to the left, and every link runs
  to the right except exactly one from a node with sources, sinks and no incoming link to a node that no two links
  in a row lead to: both are drawn in column 1 (`Layout.LinksRunRight`; `Layout.DuplexPairShareAColumn` draws one).
* **Dry alignment.** The dry signal lines up with the wet signal exactly while the scheduling allowance is within the
  room the delay ring was prepared for; beyond that the dry delay stays at the ring's length
  (`HushNoise.HushNoiseSuppressor.AlignedIffRoom`). Callback sizes never exceed that room by themselves: after any
  run of callbacks and mask changes the two line up if and only if the stable worker cost plus the callback stayed
  within it every time (`HushNoise.RunHost`). The cost counts only from the third performance window on
  (`hush_worker.rs:482-493`), so nothing can go wrong before the worker has had three windows of input
  (`HushNoise.KeepsUpWhileWarmingUp`). `HushNoise.SlowWorkerMisalignsDry` is a run where it does: the worker first
  measures nothing for as long as one likes, then reports three windows at 160 ms, and fails 17 callbacks later; the
  next callback plays the dry sample 480 frames early.
* **A zero preserved delay.** `set_delay_preserve(0)` rewinds the write position of a delay line. A later delay then
  plays the next block as if nothing had happened if and only if the ring holds the same samples behind the write
  position as behind its start (`DryDelays.ZeroDelayRewinds`; `DryDelays.ZeroDelaySilences` is a run where it does
  not). This is about the component alone: its one caller (`hush_noise.rs:371-372`) never passes zero, as
  `HushNoise.HushNoiseSuppressor.Valid` keeps the delay positive.
* **Lossless pulls.** A pull loses samples exactly when it does not deliver whole frames
  (`DriftAdapters.PullIsLosslessIffWhole`); one sample on two channels is lost (`DriftAdapters.HalfAFrameIsLost`).
* **Insert then remove.** Removing a just inserted effect restores nodes, ports and connected pairs if and only if,
  judged before the insertion, neither port of the new effect would score as high for a saved key as the port it
  resolves to (`InsertRemoves.InsertThenRemove`). Keys that name a kind of node other than an effect always meet
  this (`InsertRemoves.OtherKindsAlwaysRestore`); `InsertRemoves.NamelessKeyIsDisturbed` is a key that does not.
  Removing it at any later time, while its keys lead to two ports, succeeds if and only if these carry the same type
  and are not linked directly (`InsertRemoves.RemoveLater`).
* **MIDI handles.** The comment at `windows_midi.rs:553` says that dropping a connection closes its handles. The
  code forgets the record without releasing them. The uses leaked are exactly those of the dropped connections, and
  users equal connections everywhere if and only if nothing was dropped
  (`MidiDrivers.WindowsMidiDriver.Refresh`, `MidiDrivers.WindowsMidiDriver.ExactUnlessLeaked`,
  `MidiDrivers.LeaksIffDropped`; `MidiDrivers.UnpluggedDeviceLeaks` plugs, connects and unplugs two devices).

## Model

| member | source | states |
|---|---|---|
| `SpscRing.StepKeepsInv` | `crates/pw-graph-effects/src/hush_queue.rs:67-124` | every atomic step of producer or consumer keeps the ring invariant, whichever thread moves and however stale its view of the other index |
| `SpscRing.ConsumedIsPrefixOfPublished` | `crates/pw-graph-effects/src/hush_queue.rs:37-112` | in every run the popped blocks are a prefix of the pushed ones, contents included, occupancy never exceeds capacity, and a block being read is the next one |
| `SpscRing.NoSlotIsShared` | `crates/pw-graph-effects/src/hush_queue.rs:85-95` | in every run the slot being filled lies outside the unread range and is never the slot being read, also after the indices wrap |
| `SpscRing.RunNeverIndexesOutOfRange` | `crates/pw-graph-effects/src/hush_queue.rs:80-88` | no run reaches a state whose next step would index a missing slot |
| `SpscRing.RefusalsAreExact` | `crates/pw-graph-effects/src/hush_queue.rs:82-104` | a push is refused only if the ring is full in the producer's view, a pop only if it is empty in the consumer's |
| `SpscRing.FillSlotIsFree` | `crates/pw-graph-effects/src/hush_queue.rs:85-94` | the wrapped write index addresses the slot of the next block and no unread one |
| `SpscRing.ConsumerOwnsAQueue` | `crates/pw-graph-effects/src/hush_queue.rs:99-124` | between its own steps the consumer has a plain queue: it only grows by blocks published before a load, only shrinks by its own pop, is reported empty exactly when it is, and reads give its front |
| `SpscRing.ReaderHasAQueue` | `crates/pw-graph-effects/src/hush_queue.rs:99-263` | whatever the interleaving, the turns of a reader, each any number of looks at the front and at most one pop, go as on a plain queue to which blocks are added only between turns and which never outgrows the ring |
| `SpscRing.ArrivalsWerePublished` | `crates/pw-graph-effects/src/hush_queue.rs:67-124` | the blocks added between the turns are those published in the meantime, in order, none twice and none missing up to the last load |
| `HushQueue.BlockQueue.TryPushWith` | `crates/pw-graph-effects/src/hush_queue.rs:67-97` | an oversized block or a full ring is refused without change, otherwise the block is appended |
| `HushQueue.BlockQueue.PopWith` | `crates/pw-graph-effects/src/hush_queue.rs:99-112` | pops the front block, or nothing when empty |
| `HushQueue.BlockQueue.PeekWith` | `crates/pw-graph-effects/src/hush_queue.rs:114-124` | shows the front block and changes nothing |
| `HushQueue.ReadTimeline` | `crates/pw-graph-effects/src/hush_queue.rs:142-263` | for any queue, with blocks arriving between the turns of the loop: the blocks looked at are laid over the request in order and only stale blocks and blocks wholly before the end are dropped; if the live blocks are ordered this is the read of the old contents plus the blocks that arrived in time, every covered frame gets its live block's samples, every other sample is untouched, and the result is the exact number of covered frames |
| `HushQueue.CopyOverlap` | `crates/pw-graph-effects/src/hush_queue.rs:246-255` | copies exactly the frames that block and request share, at their place |
| `HushQueue.SplitReadIsOneRead` | `crates/pw-graph-effects/src/hush_queue.rs:142-263` | reading an interval in two parts fills the destination and counts exactly like reading it at once |
| `HushQueue.LaterPositionsSurvive` | `crates/pw-graph-effects/src/hush_queue.rs:240-260` | what a read drops cannot change any later position |
| `HushQueue.CoveringBlockDecides` | `crates/pw-graph-effects/src/hush_queue.rs:160-261` | with ordered live blocks the one that covers a position decides its sample, whatever stale blocks lie between |
| `HushQueue.WetHasSource` | `crates/pw-graph-effects/src/hush_queue.rs:246-255` | a wet sample always comes from a live block that covers its position |
| `DryDelays.DelayedSlot` | `crates/pw-graph-effects/src/hush_delay.rs:52-58` | the slot the delay reads holds the sample written `delay` ago, up to and including a delay equal to the capacity |
| `DryDelays.DryDelay.SetDelay` | `crates/pw-graph-effects/src/hush_delay.rs:27-33` | a changed delay clears the history, an equal one keeps it |
| `DryDelays.DryDelay.SetDelayPreserve` | `crates/pw-graph-effects/src/hush_delay.rs:38-45` | a positive delay keeps the history, a zero delay turns it into the ring in storage order |
| `DryDelays.DryDelay.Process` | `crates/pw-graph-effects/src/hush_delay.rs:47-59` | plays the input delayed by exactly the delay in force, silence before the start |
| `DryDelays.ZeroDelayRewinds` | `crates/pw-graph-effects/src/hush_delay.rs:38-59` | after a zero delay a later one plays the next block unchanged if and only if the ring reads the same from the write position as from its start |
| `DryDelays.ZeroDelaySilences` | `crates/pw-graph-effects/src/hush_delay.rs:38-59` | a run whose recorded sample is lost to a zero delay in between and heard without it |
| `DryDelays.PlayRun` | `crates/pw-graph-effects/src/hush_delay.rs:14-59` | any sequence of blocks and delay changes on a fresh line plays the specified output |
| `DryDelays.DelayLineRefined` | `crates/pw-graph-effects/src/hush_delay.rs:35-59` | over any run, output sample n is input sample n minus the delay then in force |
| `DryDelays.CutsDoNotMatter` | `crates/pw-graph-effects/src/hush_delay.rs:47-59` | how the stream is cut into blocks does not change what is played |
| `HushNoise.WetRequestIsAligned` | `crates/pw-graph-effects/src/hush_noise.rs:36-52` | the wet request ends no later than the callback start and its frames are exactly those due one scheduling latency earlier |
| `HushNoise.HushNoiseSuppressor.Process` | `crates/pw-graph-effects/src/hush_noise.rs:342-453` | bad sizes fail and change nothing; otherwise every connected sample is the wet one read or the dry one one dry latency back, disconnected channels are silent, and dry and wet still line up if and only if they did before and the stable worker cost plus the callback fits the room |
| `HushNoise.HushNoiseSuppressor.GrowLatency` | `crates/pw-graph-effects/src/hush_noise.rs:365-373` | scheduling covers the callback and the dry delay follows it, as far as the ring reaches |
| `HushNoise.HushNoiseSuppressor.ReadWet` | `crates/pw-graph-effects/src/hush_noise.rs:421-437` | reads only the safe part of the wet timeline, into its place of the callback, whatever the order of the blocks and whatever arrives meanwhile |
| `HushNoise.HushNoiseSuppressor.SetChannelMask` | `crates/pw-graph-effects/src/hush_noise.rs:589-614` | a changed mask starts a new generation on an empty timeline, an equal one changes nothing |
| `HushNoise.HushNoiseSuppressor.NextGeneration` | `crates/pw-graph-effects/src/hush_noise.rs:227-242` | the generation wraps forward and the stream restarts at frame zero with the same delay |
| `HushNoise.HushNoiseSuppressor.Prepare` | `crates/pw-graph-effects/src/hush_noise.rs:296-314` | the dry ring is sized by the scheduling room, holds the initial logical delay in full, and dry and wet line up |
| `HushNoise.RoomLastsIffWorkerKeepsUp` | `crates/pw-graph-effects/src/hush_worker.rs:452-523` | scheduling stays within what the dry ring was prepared for if and only if the stable worker cost plus the callback does |
| `HushNoise.DryKeepsFullLatencyIffRoom` | `crates/pw-graph-effects/src/hush_noise.rs:365-373` | cutting the full latency at the ring length changes it if and only if scheduling exceeds the prepared room |
| `HushNoise.HushNoiseSuppressor.AlignedIffRoom` | `crates/pw-graph-effects/src/hush_noise.rs:365-373` | in every valid state the dry path has the full scheduling and synthesis latency if and only if scheduling is within the prepared room |
| `HushNoise.RunHost` | `crates/pw-graph-effects/src/hush_noise.rs:259-614` | after any callbacks and mask changes since `prepare` dry and wet line up if and only if the stable worker cost, which is zero before the third window, plus the callback fitted the room at every accepted callback |
| `HushNoise.KeepsUpWhileWarmingUp` | `crates/pw-graph-effects/src/hush_worker.rs:478-498` | if no callback reports more performance windows than the frames before it fill, every accepted callback fits the room until three windows of frames have come in |
| `HushNoise.SlowWorkerMisalignsDry` | `crates/pw-graph-effects/src/hush_noise.rs:342-453` | a run, any number of silent callbacks long before the first measurement is believed, after which a worker that reported 160 ms fails and the impulse is heard dry 8160 frames after it came in although its full latency is 8640 |
| `HushNoise.WetIsPlayed` | `crates/pw-graph-effects/src/hush_noise.rs:396-453` | overlaying the wet request on the aligned dry signal plays the specified samples, and a request that found nothing leaves the dry ones |
| `HushNoise.PlayedFrame` | `crates/pw-graph-effects/src/hush_noise.rs:365-453` | all connected channels of a frame play one and the same live block's frame one scheduling latency back, or else the dry frame one dry latency back; no other stream position ever appears |
| `HushNoise.WetFrame` | `crates/pw-graph-effects/src/hush_queue.rs:246-255` | one block, the newest live one that covers the frame, supplies all channels of a wet frame |
| `AdaptiveNoise.SampleRing.PushSlice` | `crates/pw-graph-effects/src/adaptive_noise.rs:129-139` | appends all samples, or fails without change exactly when they do not fit |
| `AdaptiveNoise.SampleRing.PopOrZero` | `crates/pw-graph-effects/src/adaptive_noise.rs:141-150` | takes from the front and pads the rest with silence |
| `AdaptiveNoise.SampleRing.PopWithLead` | `crates/pw-graph-effects/src/adaptive_noise.rs:154-164` | pops only while more than the lead is queued |
| `AdaptiveNoise.ChannelState.ProcessPending` | `crates/pw-graph-effects/src/adaptive_noise.rs:197-229` | turns all complete frames into ready samples and keeps the rest, or overflows exactly when they do not fit |
| `AdaptiveNoise.NeuralCore.Process` | `crates/pw-graph-effects/src/adaptive_noise.rs:265-301` | fails exactly for partial frames or an oversized block, without change when the check before feeding finds it; otherwise all channels advance in lockstep and each plays its own next samples |
| `AdaptiveNoise.EmissionAt` | `crates/pw-graph-effects/src/adaptive_noise.rs:293-299` | position k of channel i in the interleaved output is channel i's own sample k: channels are never swapped |
| `AdaptiveNoise.DenoisedIsCausal` | `crates/pw-graph-effects/src/adaptive_noise.rs:197-221` | later input cannot change frames already denoised |
| `AdaptiveNoise.LatencyBounded` | `crates/pw-graph-effects/src/adaptive_noise.rs:152-164` | for any callback size the held-back samples never shrink and never exceed 959 |
| `AdaptiveNoise.CallbackKeepsFaithful` | `crates/pw-graph-effects/src/adaptive_noise.rs:197-301` | one callback of any size extends the denoised output without loss, repetition or reordering |
| `AdaptiveNoise.EveryRunIsFaithful` | `crates/pw-graph-effects/src/adaptive_noise.rs:197-301` | for every sequence of callbacks the denoised output is a prefix of the denoised frames and placeholders equal the samples held back, at most 959 |
| `AdaptiveNoise.CutsAgree` | `crates/pw-graph-effects/src/adaptive_noise.rs:265-301` | two ways of cutting the same input give the same denoised samples as far as both have got |
| `AdaptiveNoise.PlaysItsOwnOutput` | `crates/pw-graph-effects/src/adaptive_noise.rs:293-299` | what the buffer holds for a channel is that channel's own callback output |
| `AdaptiveNoise.NeuralStream.NeverOverflows` | `crates/pw-graph-effects/src/adaptive_noise.rs:317-371` | a callback of at most the prepared size always fits every buffer |
| `AdaptiveNoise.NeuralStream.Process` | `crates/pw-graph-effects/src/adaptive_noise.rs:387-531` | too many frames or a wrong buffer length fail and change nothing; every other callback keeps all channels faithful and plays their own next samples |
| `DriftAdapters.DriftAdapter.Observe` | `crates/pw-graph-backend/src/windows_relay.rs:832-852` | the rate moves only every 128th call, one step towards the middle of the target, inside its limits |
| `DriftAdapters.DriftAdapter.Render` | `crates/pw-graph-backend/src/windows_relay.rs:861-913` | produces the ideal resampling of everything pulled, silence only once the grid ran past it, and no silence when the pull is full and the output fits |
| `DriftAdapters.ResampledStep` | `crates/pw-graph-backend/src/windows_relay.rs:880-897` | one produced frame is the linear interpolation at the grid's end and advances it by exactly the rate |
| `DriftAdapters.IdentityRate` | `crates/pw-graph-backend/src/windows_relay.rs:793-797` | at rate 1.0 the output is the input |
| `DriftAdapters.GridAdvances` | `crates/pw-graph-backend/src/windows_relay.rs:793-797` | squeezing never repeats: at a rate of at least one the next output starts at a later frame; stretching never discards: at a rate of at most one it skips none; at any admissible rates the grid neither runs back nor skips more than one frame |
| `DriftAdapters.PullIsLosslessIffWhole` | `crates/pw-graph-backend/src/windows_relay.rs:872-876` | what a pull delivered enters the stream completely exactly when it is whole frames |
| `DriftAdapters.HalfAFrameIsLost` | `crates/pw-graph-backend/src/windows_relay.rs:872-876` | a pull of one sample on two channels adds nothing to the stream |
| `DriftAdapters.NoStarvation` | `crates/pw-graph-backend/src/windows_relay.rs:867-888` | with the wanted frames on hand the grid never runs past the audio within one output |
| `Layering.BuildAdjacency` | `crates/pw-graph-core/src/layout.rs:33-78` | neighbour lists hold each linked node once and a node's count is zero exactly when nothing links to it |
| `Layering.RelaxTargets` | `crates/pw-graph-core/src/layout.rs:91-99` | raises exactly what can be raised from a node, each raise witnessed by a walk, and queues what it raised |
| `Layering.Drain` | `crates/pw-graph-core/src/layout.rs:90-100` | the worklist ends on every graph and leaves every node relaxed that is not waiting to be seeded |
| `Layering.SeedRemaining` | `crates/pw-graph-core/src/layout.rs:102-121` | seeding what no root reached leaves every node of every graph relaxed |
| `Layering.GraphLayers` | `crates/pw-graph-core/src/layout.rs:80-121` | every node's layer is the longest walk to it, capped at the number of nodes less one |
| `Layering.LayersAreLongestWalks` | `crates/pw-graph-core/src/layout.rs:80-121` | any assignment that no link can raise further and that walks witness is that capped longest walk |
| `Layering.LayeringIsUnique` | `crates/pw-graph-core/src/layout.rs:10-11` | the layers do not depend on the order in which the worklist runs |
| `Layering.AcyclicLayersAreLongestPaths` | `crates/pw-graph-core/src/layout.rs:12-14` | without cycles the layer is the uncapped longest path |
| `Layering.LinksRiseIffAcyclic` | `crates/pw-graph-core/src/layout.rs:12-14` | every link leads to a later layer if and only if the graph has no cycle |
| `Layout.AssignColumns` | `crates/pw-graph-core/src/layout.rs:129-149` | every node is put once into the column of its layer, or of its role in layer 0 |
| `Layout.StaticOrderIsTotal` | `crates/pw-graph-core/src/layout.rs:151-173` | the static comparison is a total order |
| `Layout.SortedColumn` | `crates/pw-graph-core/src/layout.rs:359-397` | sorting a column by centres only permutes it, puts linked nodes first and leaves unlinked ones in their order |
| `Layout.SweepRoundsArrange` | `crates/pw-graph-core/src/layout.rs:305-336` | any number of sweeps only permutes each column and keeps unlinked nodes behind the linked ones in their old order |
| `Layout.OrderColumns` | `crates/pw-graph-core/src/layout.rs:305-336` | the loops perform exactly four rounds of a forward and a backward sweep, and leave every column in the order of the barycentres of its right-hand neighbours |
| `Layout.RoundsSettle` | `crates/pw-graph-core/src/layout.rs:305-397` | after any number of rounds every column is sorted by the barycentre of its right-hand neighbours where these finally stand |
| `Layout.MakePlan` | `crates/pw-graph-core/src/layout.rs:29-175` | columns follow the layers, hold every node once, put linked nodes first, order them by the barycentre of their right-hand neighbours as these finally stand, and keep unlinked ones in static order |
| `Layout.StackColumn` | `crates/pw-graph-core/src/layout.rs:178-199` | each node starts after the previous one's height, the row gap and the lane or disconnection gap between the two |
| `Layout.StackedApart` | `crates/pw-graph-core/src/layout.rs:186-195` | any two nodes of a column keep the row gap, and the disconnection gap lies between any linked and any later unlinked node |
| `Layout.NodesStandApart` | `crates/pw-graph-core/src/layout.rs:177-199` | two nodes are a column step apart or disjoint with 70 units between them |
| `Layout.DisconnectedStandBelow` | `crates/pw-graph-core/src/layout.rs:17-20` | a node without links stands below every connected node of its column, past an explicit gap |
| `Layout.LinksRunRight` | `crates/pw-graph-core/src/layout.rs:131-148` | on an acyclic well-formed graph no link runs left, and one runs straight down exactly from a node with sources, sinks and no incoming link to a node no two links in a row lead to |
| `Layout.DuplexPairShareAColumn` | `crates/pw-graph-core/src/layout.rs:131-148` | two duplex devices joined by one link are drawn in the same column |
| `Layout.DefaultNodePositions` | `crates/pw-graph-core/src/layout.rs:10-201` | exactly one position per node, from columns that `MakePlan` orders; no overlap, disconnected nodes below connected ones |
| `GraphStore.Graph.AddNode` | `crates/pw-graph-core/src/graph.rs:48-54` | a duplicate id is refused without change |
| `GraphStore.Graph.AddPort` | `crates/pw-graph-core/src/graph.rs:56-73` | a missing node or duplicate port is refused without change; the port is listed once even if the node already lists it |
| `GraphStore.Graph.AddLink` | `crates/pw-graph-core/src/graph.rs:245-285` | the first failed check decides the error and nothing changes; otherwise exactly this link is added |
| `GraphStore.Graph.RemoveLink` | `crates/pw-graph-core/src/graph.rs:75-79` | removes exactly that link or reports it missing |
| `GraphStore.Graph.InsertExistingLink` | `crates/pw-graph-core/src/graph.rs:289-301` | checks only ids and presence of the ports |
| `GraphStore.AddPortKeeps` | `crates/pw-graph-core/src/graph.rs:56-73` | a new port keeps the graph well formed |
| `GraphStore.AddLinkKeeps` | `crates/pw-graph-core/src/graph.rs:251-277` | a link that passes the checks keeps the graph well formed |
| `GraphStore.AddLinkPairs` | `crates/pw-graph-core/src/graph.rs:271-284` | adds exactly one new connected pair |
| `GraphStore.RemoveLinkPairs` | `crates/pw-graph-core/src/graph.rs:75-79` | removes exactly the link's own pair |
| `GraphStore.RemoveThenAddRestores` | `crates/pw-graph-core/src/graph.rs:75-285` | a removed link can always be put back under its own id, which restores the graph exactly |
| `EndpointResolver.ResolutionIsTopSet` | `crates/pw-graph-core/src/graph.rs:141-230` | resolution reports missing, ambiguous or one port exactly by the set of best-scoring candidates, and exact exactly from 800 points |
| `EndpointResolver.ExactMeansIdentity` | `crates/pw-graph-core/src/matching.rs:10-34` | an exact result always rests on a matching effect instance or application id |
| `EndpointResolver.OwnNodeScoresHighest` | `crates/pw-graph-core/src/matching.rs:6-90` | no other node outscores the one a key was taken from |
| `EndpointResolver.SavedKeyFindsItsPort` | `crates/pw-graph-core/src/graph.rs:89-113` | in the graph it was taken from, a key resolves to its own port or to an ambiguity that includes it |
| `EndpointResolver.SavedKeysFindTheirLink` | `crates/pw-graph-core/src/graph.rs:232-239` | the keys saved for a link's two ends never find another link, and find this one exactly when both still resolve |
| `EndpointResolver.ResolutionIgnoresIds` | `crates/pw-graph-core/src/graph.rs:141-143` | resolution commutes with every one-to-one renaming of node and port ids |
| `OwnedNodes.GrownKeeps` | `crates/pw-graph-core/src/graph.rs:48-73` | a new node with its ports keeps the graph well formed |
| `OwnedNodes.PrunedKeeps` | `crates/pw-graph-backend/src/demo.rs:661-673` | removing an owned node with its ports and every link on them keeps the graph well formed |
| `OwnedNodes.GrowThenPrune` | `crates/pw-graph-backend/src/demo.rs:382-402` | taking a new node out again restores the graph exactly |
| `OwnedNodes.SourcesHaveNoInputLinks` | `crates/pw-graph-backend/src/demo.rs:1431-1448` | looking for capture links in both roles finds only those in its own role |
| `DriverStates.LinkEndpoints` | `crates/pw-graph-backend/src/api.rs:1028-1048` | success means both keys resolve and the returned link joins the two ports |
| `DriverStates.CreateKeepsInv` | `crates/pw-graph-backend/src/demo.rs:351-429` | creating an effect keeps the invariant; a refusal uses up ids and nothing else |
| `DriverStates.FirstHop` | `crates/pw-graph-backend/src/demo.rs:615-625` | the first link of an insertion is refused exactly when the source is not audio |
| `DriverStates.SecondHop` | `crates/pw-graph-backend/src/demo.rs:626-635` | after the first link the second one always fits |
| `DriverStates.DetourReplacesPair` | `crates/pw-graph-backend/src/demo.rs:606-641` | an insertion replaces exactly the direct pair by source to effect and effect to destination |
| `DriverStates.InsertKeepsInv` | `crates/pw-graph-backend/src/demo.rs:597-642` | an insertion keeps the invariant on every path; on a refusal nodes, ports, links, effects and processors are as before |
| `DriverStates.RestoreKeepsInv` | `crates/pw-graph-backend/src/demo.rs:1634-1662` | removing an inserted effect and joining its endpoints keeps the invariant, and a refused join changes only a counter |
| `DriverStates.RemoveKeepsInv` | `crates/pw-graph-backend/src/demo.rs:1620-1663` | removing an effect keeps the invariant; a refusal leaves graph, effects and processors alone |
| `InsertRemoves.RemoveRestores` | `crates/pw-graph-backend/src/demo.rs:1634-1662` | removing a just inserted effect restores the topology exactly when it joins the original two ports, and then it succeeds |
| `InsertRemoves.InsertThenRemove` | `crates/pw-graph-backend/src/demo.rs:1528-1663` | insert then remove restores nodes, ports and pairs if and only if, on the state before, neither new port reaches the score with which a saved key resolves; equivalently both keys still lead to the same ports |
| `InsertRemoves.KeepsMeaning` | `crates/pw-graph-core/src/graph.rs:141-230` | a key that resolved to a port still does after two ports of a new node joined the graph if and only if neither reaches its score |
| `InsertRemoves.OtherKindsAlwaysRestore` | `crates/pw-graph-backend/src/demo.rs:1528-1663` | keys that name a kind of node other than an effect always restore everything |
| `InsertRemoves.NamelessKeyIsDisturbed` | `crates/pw-graph-backend/src/demo.rs:1528-1663` | a key without node name or kind that ties with the new effect's own port, so that the removal does not restore the link |
| `InsertRemoves.DirectLinkFitsAgain` | `crates/pw-graph-backend/src/demo.rs:1651-1653` | once the original link is cut its two ports can be joined again |
| `InsertRemoves.RemoveLater` | `crates/pw-graph-backend/src/demo.rs:1620-1663` | from any state that keeps the invariant in which both saved keys lead to ports, the removal succeeds if and only if these have the same type and are not linked directly; then exactly the pairs of the effect give way to the direct one |
| `DemoDrivers.DemoDriver.constructor` | `crates/pw-graph-backend/src/demo.rs:106-127` | starts from any well-formed graph with link ids above all existing ones |
| `DemoDrivers.DemoDriver.Connect` | `crates/pw-graph-backend/src/demo.rs:743-754` | adds the checked link under a fresh id, or uses up the id and changes nothing else |
| `DemoDrivers.DemoDriver.Disconnect` | `crates/pw-graph-backend/src/demo.rs:756-771` | removes exactly that link |
| `DemoDrivers.DemoDriver.CreateEffectNode` | `crates/pw-graph-backend/src/demo.rs:301-429` | follows the creation outcome and keeps the invariant |
| `DemoDrivers.DemoDriver.AddOwned` | `crates/pw-graph-backend/src/demo.rs:382-402` | a duplicate id anywhere takes back everything already added |
| `DemoDrivers.DemoDriver.InsertEffect` | `crates/pw-graph-backend/src/demo.rs:1528-1581` | the step-by-step insertion with rollback equals the all-or-nothing outcome and keeps the invariant |
| `DemoDrivers.DemoDriver.InsertIntoLink` | `crates/pw-graph-backend/src/demo.rs:597-642` | the same for a prepared processor, original link id included |
| `DemoDrivers.DemoDriver.RollBack` | `crates/pw-graph-backend/src/demo.rs:615-625` | removing the new node and putting the original link back under its id restores the state before the insertion |
| `DemoDrivers.DemoDriver.RemoveEffectNode` | `crates/pw-graph-backend/src/demo.rs:646-681` | takes out the node, its two ports, every link on them, the instance and its processor |
| `DemoDrivers.DemoDriver.RemoveEffect` | `crates/pw-graph-backend/src/demo.rs:1620-1663` | the step-by-step removal equals the specified outcome; a refusal leaves graph and effects unchanged |
| `DemoDrivers.DemoDriver.RemoveRouted` | `crates/pw-graph-backend/src/demo.rs:1634-1662` | a refused direct link puts every cut link back under its own id |
| `DemoDrivers.DemoDriver.ReinsertLinks` | `crates/pw-graph-backend/src/demo.rs:1654-1658` | reinserting the cut links always succeeds and restores the graph |
| `DemoDrivers.DemoDriver.CreateRecorder` | `crates/pw-graph-backend/src/demo.rs:874-931` | adds the recorder at the first free node id, or leaves the graph alone when its port id is taken |
| `DemoDrivers.DemoDriver.RemoveRecorder` | `crates/pw-graph-backend/src/demo.rs:933-963` | refuses while recording or with an unsaved file, otherwise removes node, port and links |
| `DemoDrivers.DemoDriver.CreateVideoFilter` | `crates/pw-graph-backend/src/demo.rs:1224-1302` | adds the filter at the first free node id; a blank id, a known id, an unknown kind and taken ids each have their own refusal, which leaves the graph alone |
| `DemoDrivers.DemoDriver.RemoveVideoFilter` | `crates/pw-graph-backend/src/demo.rs:1304-1325` | removes the filter's node, ports and links and nothing else |
| `DemoDrivers.DemoDriver.StartScreenCast` | `crates/pw-graph-backend/src/demo.rs:1389-1429` | starting twice changes nothing; a refused start leaves the graph alone |
| `DemoDrivers.DemoDriver.StopScreenCast` | `crates/pw-graph-backend/src/demo.rs:1431-1448` | removes the capture's node, port and links; stopping when stopped changes nothing |
| `DriverRuns.ChangesConserve` | `crates/pw-graph-backend/src/demo.rs:301-1663` | an operation that changes no holdings, brings one owner with a new node or takes one away with its node leaves the initial nodes and ports alone and every other node owned |
| `DriverRuns.NothingIsLeftBehind` | `crates/pw-graph-backend/src/demo.rs:646-681` | once every effect, recorder, filter and capture is gone, nodes and ports are those of the start |
| `DriverRuns.RunDriver` | `crates/pw-graph-backend/src/demo.rs:106-1663` | after any sequence of operations on a new driver, refused or not, the invariant holds, the initial nodes and ports are as they were, every other node has an owner, and nothing is left behind once all owners are gone |
| `Lifecycle.StepKeepsInv` | `crates/pw-graph-effects/src/lifecycle.rs:224-390` | every step of the control thread and of any loader keeps the protocol invariant |
| `Lifecycle.AdvanceKeepsPool` | `crates/pw-graph-effects/src/lifecycle.rs:343-390` | a loader sends each ticket's events in stage order and ends it at most once |
| `Lifecycle.NextIsOpen` | `crates/pw-graph-effects/src/lifecycle.rs:275-304` | an event about to be polled belongs to a registered ticket whose end was not polled yet |
| `Lifecycle.OneTerminalAfterLoading` | `crates/pw-graph-effects/src/lifecycle.rs:278-326` | in every run a ticket is delivered at most one terminal event, after all its loading events in stage order |
| `Lifecycle.CancellationWins` | `crates/pw-graph-effects/src/lifecycle.rs:261-304` | once a cancellation is granted only `Cancelled` is delivered for the ticket, even if its result was already published |
| `Lifecycle.PendingIsAcceptedUnfinished` | `crates/pw-graph-backend/src/demo.rs:431-595` | between operations the manager's registry and the driver's pending requests are the accepted tickets without a delivered end |
| `Lifecycle.QuietMeansFinished` | `crates/pw-graph-effects/src/lifecycle.rs:306-331` | when nothing is queued, working or unread, no ticket is left pending |
| `Requests.PendingApart` | `crates/pw-graph-backend/src/demo.rs:431-500` | in every run the unfinished requests are the tickets of the manager not yet ended, and no two of them are for the same effect instance |
| `Requests.ReadyIffEntered` | `crates/pw-graph-backend/src/demo.rs:525-595` | every delivered event is reported once, and the report is `Ready` if and only if a new effect entered the graph, namely the one requested under this ticket; otherwise at most numbers are used up |
| `Requests.OneEndPerTicket` | `crates/pw-graph-backend/src/demo.rs:525-595` | in every run a ticket is reported at most one end, after its loading stages |
| `Requests.CancelledNeverEnters` | `crates/pw-graph-effects/src/lifecycle.rs:261-304` | after a granted cancellation the driver reports nothing but `Cancelled` for the ticket; with `ReadyIffEntered`, its effect does not enter the graph |
| `Requests.QuietMeansAnswered` | `crates/pw-graph-backend/src/demo.rs:525-595` | when the manager has come to rest every accepted request has been reported its end and none is pending |
| `MidiDrivers.TakeThenRelease` | `crates/pw-graph-backend/src/windows_midi.rs:280-358` | giving back a use just taken restores the handle table exactly, opened or shared |
| `MidiDrivers.ReleaseBalances` | `crates/pw-graph-backend/src/windows_midi.rs:329-358` | releasing a live connection never underflows and keeps users equal to uses plus leaks |
| `MidiDrivers.WindowsMidiDriver.OpenPair` | `crates/pw-graph-backend/src/windows_midi.rs:586-610` | every failure of opening, pairing or starting is reported in that order and leaves both handle tables as they were |
| `MidiDrivers.WindowsMidiDriver.Connect` | `crates/pw-graph-backend/src/windows_midi.rs:576-628` | succeeds exactly when request, handles, pairing and start are accepted, as the link then always fits; otherwise the first refusal is reported and nothing changes |
| `MidiDrivers.DevicesFit` | `crates/pw-graph-backend/src/windows_midi.rs:612-620` | an input device can always be linked to an output device it is not connected to, so undoing a refused link is never needed |
| `MidiDrivers.WindowsMidiDriver.Disconnect` | `crates/pw-graph-backend/src/windows_midi.rs:630-652` | removes one connection and its link and gives back one use of each end |
| `MidiDrivers.WindowsMidiDriver.Refresh` | `crates/pw-graph-backend/src/windows_midi.rs:516-566` | fails exactly on a clash of ids, without change; otherwise shows every reported device under its own id, keeps surviving connections and redraws their links, and the uses of dropped connections leak |
| `MidiDrivers.WindowsMidiDriver.LiveConnectionsAreOpen` | `crates/pw-graph-backend/src/windows_midi.rs:79-87` | both handles of a live connection are open with at least as many users as connections naming them |
| `MidiDrivers.WindowsMidiDriver.ExactUnlessLeaked` | `crates/pw-graph-backend/src/windows_midi.rs:543-557` | users equal the connections naming a port, for all ports, if and only if no refresh dropped a connection |
| `MidiDrivers.LinksRebuilt` | `crates/pw-graph-backend/src/windows_midi.rs:539-557` | after a refresh live connections and links still correspond one to one |
| `MidiDrivers.UnpluggedDeviceLeaks` | `crates/pw-graph-backend/src/windows_midi.rs:543-556` | any keyboard and synthesizer found, connected and the synthesizer unplugged leave no connection and both handles open with one user each |
| `MidiDrivers.LeaksIffDropped` | `crates/pw-graph-backend/src/windows_midi.rs:539-557` | a refresh leaks nothing if and only if all devices of all connections are still there |

## Left out

- Floating point: samples, rates and positions are reals, so NaN, infinities, rounding and the replacement of
  non-finite samples are not modelled; positions are pairs of reals.
- Identifiers, ticket numbers, link numbers and frame counters are unbounded numbers; the wrapping of tickets and
  the saturation of id and frame counters at the 64-bit limit are not modelled. Ring indices and generations do wrap.
- HushQueue.ReadTimeline: one turn of the loop looks at the front once, and blocks become visible to it between turns;
  `SpscRing.ReaderHasAQueue` shows that every interleaving can be told that way. Drop-reason counters are not modelled.
- HushNoise.HushNoiseSuppressor.Process: the worker, its resampler and model, the gain stage and the diagnostics
  counters are outside; what the callback loads from them are parameters.
- AdaptiveNoise.NeuralStream.Process: only the 48 kHz path; the denoiser is an arbitrary function of the frames so far.
- AdaptiveNoise.NeuralCore.Process: the state after a ready ring overflowed is not described, as some channels have
  moved on and others have not; `AdaptiveNoise.NeuralStream.NeverOverflows` shows that no prepared callback gets there.
- DriftAdapters.DriftAdapter.Render: the relay engine behind `pull` is a sequence of offered samples.
- InsertRemoves.InsertThenRemove: speaks about a removal right after the insertion; for a later one
  `InsertRemoves.RemoveLater` starts from what the keys lead to then.
- DemoDrivers.DemoDriver.InsertEffect: preparing the processor is a parameter; names, positions, parameters and
  channel policies that do not reach the graph are dropped.
- DemoDrivers.DemoDriver.constructor: the graph a driver starts from is one the store's operations can build, that is,
  a well-formed one.
- DemoDrivers.DemoDriver.NoteRecording: starting, stopping, saving and discarding a recording are one arbitrary status
  change; files and writer threads are not modelled.
- Requests that fail before a ticket is drawn, manager shutdown, `replace_graph`, the forced failures for tests,
  suppressed connections, audio controls, meters and virtual displays.
- Lifecycle.Next: only takes a finished ticket off the pending map; `Requests` adds the driver's own work on it.
- Requests.Acceptable: the negotiation of channels and the look-up of the provider, which come after these checks, are
  left out; a synchronous operation in between is any change of the driver that keeps its invariant.
- Layout: the sum over neighbours is a recursive function, positions stored by a backend are not consulted.
- MidiDrivers.WindowsMidiDriver.Refresh: device enumeration and identity hashing are a reported list of devices with
  arbitrary ids; closing everything on drop is not modelled.
- Appearance, endpoint explanations, persistence, configuration, the patchbay, the router, the
  relay engine and all PipeWire, ALSA, WASAPI and WinMM calls beyond their success or failure.
