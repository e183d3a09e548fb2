# A capability kernel and its ring pipeline, verified

The modelled system is a small kernel in which authority is explicit. Objects live on epochs; a
capability names an object, an epoch and a set of rights; a process holds capabilities under handles
in a table of its own. Batches of grants (`Transfer`, `Derive`, `Move`) carry capabilities to a child at
a spawn or inside a message on a channel. Every process keeps a Lamport and a vector clock. Memory is a
registry of byte regions guarded by capabilities.

Two programs run on top of it. The *ring pipeline* passes batches of bytes from a producer through
transformers to a sink and back, moving one region capability per hop; a twin does the same over plain
queues and boxed slices. The *chaos harness* keeps a second, simpler description of the kernel (the
shadow model), predicts every operation from it, and audits the whole kernel against it.

## How the project is organised

- The kernel: `Rights`, `Capabilities`, `Processes`, `Transfers`, `Channels`, `Scheduling`, `Regions`,
  `Clocks`. Each operation is a function on values (`KernelState`, `ProcState`, `Queues`, ...) and, where
  the source mutates an object, a method of a class proved to leave exactly the state that function gives.
  The theorems are about the functions.
- The whole kernel as one step system: `Machine` (20 operations), `Authority` and `MachineAuthority`
  (every capability ever minted), `Causality` and `MachineCausality` (the true event graph),
  `MachineStorage` (the write history of every byte), `MachineConservation` and `RunsConserve` (how many
  places hold a capability), `Runs` (the theorems over every run from boot). Capabilities cannot be
  forged, so an operation may use any capability that was ever minted, stale copies included, and no other.
- The pipelines: `Data` (bytes and checksums), `DataMeans` (nothing on the way from a batch number to its
  checksum is forgotten), `Vectors` (published values, digit by digit), `Ring` (the pipeline with its data stripped away, as
  counters), `Schedule` and `IdleTurns` (closed forms for every counter at every turn), `Workload` (the
  outcome every run must have), `Baseline` (the twin), `RingState`, `RingTurns`, `StageTurns`, `Tracing`,
  `Boot`, `Pipeline` (the kernel version), `Ownership` (who holds what between turns), `Refinement`
  (both side by side).
- The chaos harness: `Chaos` (the world, the model and every operation), `ChaosMatch`, `ChaosWorld`,
  `ChaosEvents`, `ChaosOps`, `ChaosTransfer`, `ChaosSpawn` (the simulation, operation by operation),
  `Checker` (the ground-truth causality check), `ChaosRun` (whole runs), `ChaosSteps` (an operation is exactly
  the kernel calls it stands for), `ChaosSweep` (exactly which wrong models the audit reports), `ChaosAudit`
  (what the audit covers), `ChaosHistory` (harness runs are kernel runs from boot).

The class methods that change objects are specified by `old`, and their contracts give the whole new
state. `InBounds` (pipeline), `Feasible` (harness) and `Roomy` (step system) are one assumption in three
settings: no process is ever granted 2^32 capabilities, because handles are 32-bit and then wrap.

## Model

| member | source | states |
|---|---|---|
| Refinement.RunBoth | crates/workload/tests/differential.rs:43-76 | on every configuration inside the handle bound, with the twin's clocks on or off, both pipelines complete with the reference results in order and equal statistics, or both stall after `stages + 4` turns, which happens exactly when there is work and no region |
| Pipeline.RunKernelPipeline | crates/workload/src/pipeline.rs:418-420 | building the pipeline never fails, no `expect` fires, and the run ends with exactly the expected results and statistics or the expected stall; a traced run's trace holds every event it must, each once and no other, and orders them causally; an untraced one's is empty |
| Baseline.RunBaseline | crates/workload/src/baseline.rs:62-165 | the twin ends with the same expected outcome, clocks on or off |
| Workload.FinishedMeansExpected | crates/workload/src/pipeline.rs:284-314 | when the run loop stops, the results are the direct computation's for every batch in order, messages are `batches * (stages + 2)`, bytes are messages times the region size, and turns and idle turns have their closed forms |
| Workload.StalledMeansExpected | crates/workload/src/pipeline.rs:302-311 | an idle streak longer than a round happens only with an empty pool and work to do, and then at turn `stages + 4` |
| Workload.TracksStep | crates/workload/src/pipeline.rs:293-312 | one turn of an unfinished run keeps the report equal to what the counters account for, or stalls exactly as expected; the turn limit shows the loop ends |
| Ring.NeverIdleForARound | crates/workload/src/pipeline.rs:300-311 | deadlock freedom: with a region in the pool and work left, the idle streak never reaches a full round |
| Ring.IdleBounded | crates/workload/src/pipeline.rs:300-311 | while work is left some process can act, and its turn comes before a full round of idle turns is up |
| Ring.EmptyPoolNeverMoves | crates/workload/src/pipeline.rs:342-375 | with no region nothing ever happens, and every turn is idle |
| Ring.TurnAtIsRemainder | crates/workload/src/baseline.rs:92-95 | the rotated ready queue gives the turn to the process numbered by the turn count modulo the number of processes |
| Schedule.SupplyClosedForm | crates/workload/src/pipeline.rs:342-375 | the producer sends `min(pool, stages + 1)` batches in each lap of `stages + 1` rounds, in the lap's first rounds |
| Schedule.ScheduleIsExact | crates/workload/src/pipeline.rs:317-414 | at every turn of every round, each hop has passed on exactly what was sent so many rounds before |
| Schedule.DoneExactlyAt | crates/workload/src/pipeline.rs:284-314 | the sink is done exactly from turn `(((B-1) div w)(n+1) + (B-1) mod w + n + 1)(n+3) + 2` on, for `w = min(pool, n+1)` |
| Schedule.AtMostOneMessage | crates/workload/src/pipeline.rs:317-414 | at every turn, for every channel and the return channel, the counters on its two sides differ by at most one |
| IdleTurns.IdleTurnsAre | crates/workload/src/pipeline.rs:300-305 | of all turns, `Turns - batches * (stages + 2) + 1 - min(batches, w)` make no progress |
| Ownership.OneOwner | crates/workload/src/pipeline.rs:172-238 | between turns each region has exactly one capability in all tables and all queued messages; it is live with every right, and in the producer's table or in a message |
| Ownership.TableSizes | crates/workload/src/pipeline.rs:172-238 | between turns the sink and the transformers hold two handles, the supervisor one per channel, the producer two more than its free regions |
| Ownership.QueuesStayShort | crates/workload/src/pipeline.rs:317-414 | at every turn boundary no queue holds more than one message |
| Ownership.RegionEndsAt | crates/capability/src/lib.rs:141-148 | when the run is over, a region's epoch is one plus `stages + 2` for every batch that used it |
| Ownership.UsesCount | crates/workload/src/pipeline.rs:342-375 | the batches that use region `j` are exactly those whose number is `j` modulo the pool size |
| Boot.BootedShows | crates/workload/src/pipeline.rs:156-248 | what construction leaves is the state the zero counters stand for, with the ready queue in spawn order |
| Boot.SpawnProducer | crates/workload/src/pipeline.rs:218-238 | the producer's spawn is accepted and moves every region to it on a new epoch, leaving the supervisor the channels only |
| Boot.SpawnConsumer | crates/workload/src/pipeline.rs:186-217 | each other stage's spawn is accepted, gives it a receive-only and a send-only view, and costs the supervisor nothing |
| StageTurns.TurnMeans | crates/workload/src/pipeline.rs:317-414 | from any state the counters stand for, every call of the next turn succeeds, the state left is the one the next counters stand for, and progress, message and result are as the counters say |
| StageTurns.FindsOne | crates/workload/src/pipeline.rs:377-412 | a stage with a message takes it, may work on its region and move it on, and the sink's result is the batch's reference checksum, whatever bytes the region held before |
| StageTurns.DrainMeans | crates/workload/src/pipeline.rs:344-352 | the producer takes back everything the sink has returned, and its free list is then what the counters say |
| RingTurns.TurnAllowed | crates/workload/src/pipeline.rs:377-412 | a received region is live with every right and holds the bytes its batch should have at that hop, and the stage may send on its output |
| RingTurns.SendMeans | crates/workload/src/pipeline.rs:353-370 | after the producer's fill and send everything is as the next counters say |
| RingTurns.SignedRoundTrip | crates/workload/src/pipeline.rs:367-384 | a batch number sent as a signed word comes back unchanged |
| Pipeline.KernelPipeline.New | crates/workload/src/pipeline.rs:156-248 | construction succeeds and leaves kernel, queues, regions, tables and stages as the zero counters say |
| Pipeline.KernelPipeline.TakeTurn | crates/workload/src/pipeline.rs:317-414 | one turn of one stage on the real objects leaves exactly the state, stage record and report its value-level description gives |
| Pipeline.KernelPipeline.Run | crates/workload/src/pipeline.rs:284-314 | from a freshly built pipeline the run ends with the expected outcome, and leaves the state its last turn's counters stand for |
| Tracing.HopsAreCausal | crates/workload/src/pipeline.rs:377-412 | in a traced run every batch's sends and receives further round the ring happened after those before, by their stamps |
| Tracing.ReuseFollowsReturn | crates/workload/src/pipeline.rs:342-375 | the sink's send of batch `b` happened before the producer's send of batch `b + pool` |
| Tracing.TurnTraced | crates/workload/src/pipeline.rs:317-341 | whatever turn comes next, the trace stays complete and causal |
| Data.SplitMix64.Fill | crates/workload/src/rng.rs:37-42 | the loop over chunks overwrites every byte of the buffer with the generator's stream, whatever was there |
| DataMeans.FillIsStream | crates/workload/src/rng.rs:37-42 | the bytes of a buffer, eight by eight and lowest first, spell the words of the stream in order |
| DataMeans.FillIsPrefix | crates/workload/src/rng.rs:37-42 | a shorter buffer is the beginning of a longer one: its last word is cut short |
| Data.SplitMix64.NextU64 | crates/workload/src/rng.rs:16-22 | the state advances by the generator's step and the result is its mix |
| Data.FillBatch | crates/workload/src/data.rs:9-11 | the bytes depend only on seed, batch and length |
| Data.Transform | crates/workload/src/data.rs:16-23 | the in-place pass with its running accumulator computes the stage's transformation of the old bytes |
| Data.ComputeChecksum | crates/workload/src/data.rs:26-30 | the loop computes the fold whose every byte shows in the result (`DataMeans.OneByteShows`, `Vectors.ChecksumVectors`) |
| Data.ComputeReferenceChecksum | crates/workload/src/data.rs:35-42 | the direct computation gives the reference checksum the pipelines are compared with |
| DataMeans.OneByteShows | crates/workload/src/data.rs:26-30 | changing any one byte of any buffer changes its checksum |
| DataMeans.StepForgetsNothing | crates/workload/src/data.rs:26-30 | a step of the checksum can be undone: from its result the byte tells the state and the state the byte |
| DataMeans.StageForgetsNothing | crates/workload/src/data.rs:16-23 | a stage maps different buffers to different buffers |
| DataMeans.MixForgetsNothing | crates/workload/src/rng.rs:16-22 | the generator's output mix is injective on 64-bit states |
| DataMeans.WorkKeepsBatchesApart | crates/workload/src/data.rs:35-42 | different batches of at least one word have different bytes, freshly filled and after any number of stages |
| DataMeans.XorBit | crates/workload/src/data.rs:28-28 | bit by bit, exclusive or is set exactly where its arguments differ |
| Vectors.ChecksumVectors | crates/workload/src/data.rs:49-52 | the known checksums of the empty input and of the letter a |
| Vectors.StreamVector | crates/workload/src/rng.rs:59-64 | the published first output of the stream of seed zero |
| Vectors.StageOrderMatters | crates/workload/src/data.rs:55-65 | stages applied in the wrong order give other bytes: a zero byte becomes 0xAA one way and 0x82 the other |
| Rights.ContainsIsMaskTest | crates/capability/src/rights.rs:27-29 | containment of rights as sets is the mask test on their words, and equal words mean equal rights |
| Rights.UnionAndIntersectionAreBitwise | crates/capability/src/rights.rs:36-48 | the two operators on words are union and intersection of rights |
| Capabilities.Kernel.New | crates/capability/src/lib.rs:82-91 | a new object gets an id never used before, epoch zero, and a capability with the given rights |
| Capabilities.Kernel.Check | crates/capability/src/lib.rs:95-111 | existence, then epoch, then rights, each with its own error; nothing changes |
| Capabilities.Kernel.Revoke | crates/capability/src/lib.rs:124-131 | with authority the epoch rises by one; otherwise nothing changes |
| Capabilities.Kernel.Reissue | crates/capability/src/lib.rs:141-148 | a revoke that also returns the same capability on the new epoch |
| Capabilities.Kernel.Derive | crates/capability/src/lib.rs:167-181 | never more rights than held, and only with the grant right |
| Capabilities.Kernel.Destroy | crates/capability/src/lib.rs:186-190 | with authority the object is gone and its id stays used; otherwise nothing changes |
| Capabilities.CheckMeans | crates/capability/src/lib.rs:95-111 | a check passes exactly with live authority; an unknown object, a revoked capability and missing rights each have their own error, in that order, with its fields |
| Capabilities.DeriveMeans | crates/capability/src/lib.rs:167-181 | a derivation keeps object and epoch and has exactly the requested rights; without the grant right it fails as the check does, and too large a request fails naming the rights held and requested |
| Processes.Process.Grant | crates/process/src/process.rs:53-58 | the capability goes under the next handle, and the 32-bit counter advances |
| Processes.HandlesWrap | crates/process/src/process.rs:53-58 | the handle after the last 32-bit number is zero again, and a grant under it overwrites what was there |
| Processes.Process.Take | crates/process/src/process.rs:73-75 | what the handle named is returned and the handle resolves to nothing |
| Processes.GrantAllEffect | crates/process/src/process.rs:53-58 | while the counter does not wrap, granting a list adds each capability under the next handle in order and overwrites nothing |
| Processes.SortedHandles | crates/workload/src/pipeline.rs:139-143 | the handles of a table, each once, in ascending order |
| Transfers.ResolveGrants | crates/process/src/transfer.rs:65-113 | the two loops return exactly the specified capabilities or error, and succeed exactly when the batch is admissible; nothing changes |
| Transfers.ResolveIffAdmissible | crates/process/src/transfer.rs:65-113 | resolving succeeds exactly when every handle exists, no handle leaves twice, derives and moves are authorised, and no moved object is named by another grant |
| Transfers.ResolveRefused | crates/process/src/transfer.rs:65-113 | which error a refused batch gets: the first grant that cannot be resolved decides, and a moved object named twice only if all resolve |
| Transfers.ApplyGrants | crates/process/src/transfer.rs:122-143 | on a resolved batch the `expect` never fires, and kernel, table and deliveries are what the batch's effect says |
| Transfers.BatchEffect | crates/process/src/transfer.rs:65-143 | a batch runs exactly when admissible; then each moved object's epoch is one higher, taken handles are gone, and each grant delivers what it names |
| Transfers.BatchDelivers | crates/process/src/transfer.rs:122-143 | moves and derives arrive live with their rights, the capability a move leaves behind is dead, and a transferred one is exactly as live as before |
| Transfers.MoveIsExclusive | crates/process/src/transfer.rs:122-143 | after a move no capability on an epoch reached before is live for the object; the delivered one is |
| Transfers.BatchOrderIrrelevant | crates/process/src/transfer.rs:65-143 | permuting a batch permutes what it delivers and leaves the same kernel and table |
| Channels.ChannelRegistry.Send | crates/ipc/src/lib.rs:96-119 | a rejected send changes nothing; an accepted one changes kernel, queue, table and clock as specified |
| Channels.ChannelRegistry.Receive | crates/ipc/src/lib.rs:128-155 | the oldest message goes to the receiver, an empty queue is no event, and a refusal changes nothing |
| Channels.SendMeans | crates/ipc/src/lib.rs:96-119 | a send succeeds exactly with authority, a queue and an admissible batch, and appends one message carrying what the batch delivers |
| Channels.ReceiveDelivers | crates/ipc/src/lib.rs:128-155 | the delivered handles resolve to the message's capabilities in grant order, and the queue is that message followed by what is left |
| Channels.ReceiveMeans | crates/ipc/src/lib.rs:128-155 | a receive succeeds exactly with live READ authority and a registered queue, with nothing exactly when the queue is empty; otherwise the check's error or the unknown channel |
| Channels.SendRefused | crates/ipc/src/lib.rs:96-119 | why a send is refused: authority before the queue, the queue before the batch |
| Channels.NewChannelMeans | crates/ipc/src/lib.rs:74-78 | a new channel is a new object with an empty queue, held with every right but execute; no other queue changes |
| Scheduling.Scheduler.SpawnChild | crates/process/src/scheduler.rs:81-112 | a rejected spawn changes nothing; an accepted one is the parent's send followed by the child's birth |
| Scheduling.Scheduler.ScheduleNext | crates/process/src/scheduler.rs:135-139 | the front of the queue runs and goes to the back |
| Scheduling.SpawnMeans | crates/process/src/scheduler.rs:81-112 | a spawn succeeds exactly with a parent and an admissible batch; the child has a new id, what the batch delivers under the handles 0, 1, ..., and a first event that receives the parent's; nobody else changes |
| Scheduling.RootMeans | crates/process/src/scheduler.rs:61-70 | a root process holds exactly what it is given, in order, and has had no event |
| Scheduling.BoundedWaiting | crates/process/src/scheduler.rs:61-139 | the process at position `i` gets exactly the `(i + 1)`-th following turn, however many spawns come between |
| Scheduling.RunKeepsFair | crates/process/src/scheduler.rs:61-139 | after any operations the ready queue lists exactly the existing processes, each once |
| Regions.RegionRegistry.Write | crates/memory/src/lib.rs:106-119 | a write happens whole inside the region or not at all, with the specified error |
| Regions.RegionRegistry.Update | crates/memory/src/lib.rs:141-153 | with read and write authority the closure's result replaces the bytes; otherwise nothing changes |
| Regions.RegionRegistry.ReclaimAll | crates/memory/src/lib.rs:185-190 | exactly the regions whose object is gone are dropped and counted |
| Regions.ReadMeans | crates/memory/src/lib.rs:65-101 | a read succeeds exactly with authority and a range inside the region, one whose end overflows a machine word excluded, and returns those bytes; authority is checked before bounds |
| Regions.WriteMeans | crates/memory/src/lib.rs:65-119 | a write reads back, changes no byte outside its range and no other region |
| Regions.UpdateMeans | crates/memory/src/lib.rs:141-153 | an update succeeds exactly with live READ and WRITE authority and an existing region, and then only that region is what the closure made of it |
| Regions.InspectMeans | crates/memory/src/lib.rs:124-136 | inspecting succeeds exactly with live READ authority and an existing region, and shows its bytes |
| Regions.DestroyMeans | crates/memory/src/lib.rs:166-178 | destroying succeeds exactly with live DESTROY authority and an existing region, and removes region and object and no other |
| Regions.RangeRefused | crates/memory/src/lib.rs:65-89 | a ranged access fails for authority before existence before bounds, with the request and the size |
| Regions.NewRegionMeans | crates/memory/src/lib.rs:55-60 | a new region is a new object with the given number of zero bytes, held with every right but execute; no other region changes |
| Clocks.LamportClock.Observe | crates/clock/src/lamport.rs:34-37 | the time becomes one more than the later of the two |
| Clocks.VectorClock.Merge | crates/clock/src/vector.rs:58-63 | the in-place loop computes the pointwise maximum |
| Clocks.CompareEntries | crates/clock/src/vector.rs:70-86 | the two-flag loop over the chained keys decides the pointwise order |
| Clocks.MergeIsLeastUpperBound | crates/clock/src/vector.rs:58-63 | the merge is above both arguments and below everything above both |
| Clocks.MergeIsSemilattice | crates/clock/src/vector.rs:58-63 | merging is commutative, associative and idempotent up to explicit zeros |
| Clocks.CompareDecidesOrder | crates/clock/src/vector.rs:70-114 | equal exactly when every entry agrees, before exactly when strictly below, and antisymmetric |
| Clocks.CompareIsTransitive | crates/clock/src/vector.rs:70-114 | comparing is transitive and blind to explicit zeros |
| Clocks.EventClock.Receive | crates/clock/src/lib.rs:103-108 | the vectors merge, the Lamport time passes both, and the process's own entry rises by one |
| Clocks.TiesGoByProcess | crates/clock/src/lib.rs:46-51 | at equal Lamport times the key order is the order of process ids |
| Clocks.KeysAreOrdered | crates/clock/src/lib.rs:46-51 | the key order is a strict total order on distinct keys |
| Causality.StampsAreExact | crates/clock/src/lib.rs:53-59 | for distinct events, one stamp happened before the other exactly when program order, messages and births lead from one to the other |
| Causality.EntryCountsPast | crates/clock/src/lib.rs:90-108 | entry `q` of an event's vector is the number of events of `q` in its causal past, itself included |
| Causality.PastIsGroundTruth | crates/workload/src/chaos.rs:983-1013 | the computed past of an event is exactly what has a path to it |
| Causality.TotalOrderExtendsCausality | crates/clock/src/lib.rs:46-51 | keys are distinct on distinct events and strictly increase along every causal path; at equal times the lower process comes first |
| Causality.LamportGrows | crates/clock/src/lamport.rs:25-37 | Lamport time strictly grows along every path |
| Causality.LamportIsDepth | crates/clock/src/lamport.rs:25-37 | an event's Lamport time is the number of events on the longest causal path that ends in it |
| Checker.Closure | crates/workload/src/chaos.rs:983-1000 | one forward pass over backward predecessor lists fills the matrix with exactly the transitive closure |
| Checker.CheckCausality | crates/workload/src/chaos.rs:983-1013 | the check passes exactly when every pair of distinct events is stamped as the graph says |
| Checker.RecordedRunsPass | crates/workload/src/chaos.rs:983-1013 | the check passes on every log a run can record |
| Authority.RunsAreSound | crates/capability/src/lib.rs:82-190 | after any kernel calls every minted capability is on a reached epoch, with at most its epoch's opening rights and its object's creation rights |
| Authority.DeadForever | crates/capability/src/lib.rs:95-148 | a capability that has failed as revoked or unknown fails after any further calls |
| Authority.BarrenForever | crates/capability/src/lib.rs:124-131 | once no minted capability for an object is live, none ever is again |
| Authority.MoveLeavesSole | crates/process/src/transfer.rs:122-143 | what a move delivers is the only member of all capabilities ever minted that passes a check for its object |
| Authority.BatchIsActs | crates/process/src/transfer.rs:65-143 | a batch is nothing but derivations and reissues of capabilities its source holds |
| MachineAuthority.StepAccounted | crates/ipc/src/lib.rs:96-155 | no operation ever puts into a table or a message a capability that was not minted |
| MachineAuthority.SendMovesExclusively | crates/ipc/src/lib.rs:96-119 | what a send moves is owned by the message alone: the only live one of all minted, and in no table |
| MachineAuthority.SpawnMovesExclusively | crates/process/src/scheduler.rs:81-112 | what a spawn moves is the child's alone, under the handle of its place in the batch |
| Runs.DeadInEveryRun | crates/capability/src/lib.rs:95-148 | permanent death in every later state of every run, whoever uses the capability |
| Runs.RevokeIsForever | crates/capability/src/lib.rs:124-131 | after a bare revoke no capability for the object, old or new, ever passes a check again |
| Runs.SoleInEveryRun | crates/capability/src/lib.rs:141-148 | the sole live capability for an object stays so until an operation names the object |
| Runs.SentStaysSole | crates/ipc/src/lib.rs:96-119 | what a send moved stays the sole live capability through any run that does not name its object |
| Runs.BornStaysSole | crates/process/src/scheduler.rs:81-112 | the same for what a spawn moved to the child |
| Runs.ReissuedStaysSole | crates/capability/src/lib.rs:141-148 | the same for a bare reissue |
| Runs.AttenuatedInEveryRun | crates/capability/src/lib.rs:141-181 | global attenuation: in every reachable state every minted capability has at most its epoch's opening rights and at most its object's creation rights |
| Runs.MintedInEveryRun | crates/ipc/src/lib.rs:110-117 | in every reachable state whatever a process holds or a queued message carries was minted |
| Runs.CausalityInEveryRun | crates/clock/src/lib.rs:90-108 | over every run of the step system stamps are exact for the true event graph and the total order extends it |
| Runs.MemoryInEveryRun | crates/memory/src/lib.rs:55-190 | in every run each byte of a region is what the last authorised write or update left there, else zero, and no channel is a region |
| Runs.FairInEveryRun | crates/process/src/scheduler.rs:61-139 | in every run the ready queue lists exactly the existing processes, each once |
| Runs.WaitingInEveryRun | crates/process/src/scheduler.rs:135-139 | in every run the process at position `i` of the ready queue gets the `(i + 1)`-th following turn, whatever else the kernel does in between |
| MachineStorage.PatchesAreAuthorised | crates/memory/src/lib.rs:106-153 | only a live capability with write authority ever changes bytes, only inside the region, and never its size |
| MachineStorage.ReclaimIsExact | crates/memory/src/lib.rs:185-190 | reclaiming removes exactly the regions whose object is gone, which no capability could reach |
| MachineConservation.SendConserves | crates/ipc/src/lib.rs:96-119 | over all tables and queues a send replaces each moved capability by its reissue and adds each derived one, and nothing else |
| MachineConservation.SpawnConserves | crates/process/src/scheduler.rs:81-112 | so does a spawn, with the child's table in the place of the message |
| MachineConservation.ReceiveConserves | crates/ipc/src/lib.rs:128-155 | a receive neither adds nor loses a capability |
| MachineConservation.RefusedChangesNothing | crates/ipc/src/lib.rs:88-119 | a refused send or spawn changes no table, queue, epoch or clock |
| RunsConserve.ConservedInEveryRun | crates/process/src/process.rs:53-75 | in every run that wraps no handle counter, handles are issued in order and the number of places holding a capability is exactly what the run put in less what it took out |
| ChaosMatch.ChecksAreExact | crates/workload/src/chaos.rs:348-367 | in a matching world the model predicts every check, its error included |
| ChaosMatch.GrantsAlike | crates/workload/src/chaos.rs:450-508 | the model accepts exactly the batches the kernel accepts and then has the same deliveries, table and epochs |
| ChaosOps.AccessesAreExact | crates/workload/src/chaos.rs:890-912 | the model predicts every region access, the error and its fields included |
| ChaosOps.AccessMatches | crates/workload/src/chaos.rs:777-884 | every read, write, revoke and destroy, live or stale, passes the comparison and leaves the worlds matching; what it did is `ChaosSteps.ExecuteIsCalls`, what it compared `ChaosSteps.AccessCompares` |
| ChaosSteps.ExecuteIsCalls | crates/workload/src/chaos.rs:611-886 | whenever an operation passes, the kernel's whole state is the one the step system reaches by the calls the operation stands for: a region made and given away, a spawn, a send, a receive, a local event, a write, a revoke, a destroy, or for a read nothing |
| ChaosSteps.AccessCompares | crates/workload/src/chaos.rs:777-884 | in any world an access passes exactly if the kernel's answer, bytes and errors included, equals the model's; then the kernel has made the one call and only the region's model has changed, as that call says; else it is a mismatch |
| ChaosSteps.AnswersAgree | crates/workload/src/chaos.rs:777-884 | in a matching world the kernel answers every access as the model says: a read returns the model's bytes, a refusal the predicted error |
| ChaosSteps.SendCompares | crates/workload/src/chaos.rs:701-731 | in any world a send passes exactly if kernel and model agree on accepting the batch |
| ChaosSteps.SpawnCompares | crates/workload/src/chaos.rs:628-700 | in any world a spawn that only one of the two accepts is a mismatch |
| ChaosSteps.ReceiveCompares | crates/workload/src/chaos.rs:732-776 | in any world a receive that is refused, or differs from what the model holds in flight in presence, send stamp or number of capabilities, is a mismatch |
| ChaosSteps.TablePickMeans | crates/workload/src/chaos.rs:389-412 | a pick from a table takes the handle with exactly `n mod count` smaller ones of the wanted kind, the kernel's capability and its model; nothing exactly if there is none |
| ChaosSteps.StashPickMeans | crates/workload/src/chaos.rs:413-425 | a pick from everything ever held takes the entry with exactly `n mod count` earlier ones of the wanted kind; nothing exactly if there is none |
| ChaosSteps.GrantPicksMean | crates/workload/src/chaos.rs:431-445 | each grant names the process's region handle so counted off, with the kind it was picked with; a process without regions grants nothing |
| ChaosSteps.ChannelCapMeans | crates/workload/src/chaos.rs:597-609 | the channel capability is the one under the process's least handle for the channel |
| ChaosTransfer.SendMatches | crates/workload/src/chaos.rs:701-731 | every send is accepted or rejected as predicted and leaves the worlds matching |
| ChaosTransfer.ReceiveMatches | crates/workload/src/chaos.rs:732-776 | every receive delivers what the model holds in flight, mirrored under the same handles |
| ChaosTransfer.NewRegionMatches | crates/workload/src/chaos.rs:320-338 | a new region keeps the worlds matching |
| ChaosSpawn.SpawnMatches | crates/workload/src/chaos.rs:628-700 | every spawn is accepted or rejected as predicted, and the child's table is mirrored in handle order |
| ChaosSpawn.ChannelsChangeNothing | crates/workload/src/chaos.rs:635-646 | the channel views given to every child never make a batch invalid nor save an invalid one |
| ChaosWorld.MatchingIsSwept | crates/workload/src/chaos.rs:933-973 | the full-state audit passes in every matching world |
| ChaosSweep.TablesAreWatched | crates/workload/src/chaos.rs:934-951 | from a matching world, a model with another table for a process passes the audit exactly if the table has the same handles with the same objects and rights |
| ChaosSweep.EpochsAreWatched | crates/workload/src/chaos.rs:952-958 | from a matching world, a model with another epoch for a region passes exactly if the region is dead or each capability ever seen for it is live under both epochs or neither |
| ChaosSweep.LifeIsWatched | crates/workload/src/chaos.rs:959-965 | from a matching world, a model that takes a dead region for alive, or a live one for dead, always fails the audit |
| ChaosSweep.BytesAreWatched | crates/workload/src/chaos.rs:966-981 | from a matching world, a model with other bytes for a region passes exactly if no capability ever seen can read the region |
| ChaosAudit.ReadableIsAudited | crates/workload/src/chaos.rs:966-981 | the audit looks at every region some process can read |
| ChaosAudit.StaysSeen | crates/workload/src/chaos.rs:309-318 | after every operation everything any process holds is on the harness's list of capabilities ever held, with its model |
| ChaosEvents.CheckPasses | crates/workload/src/chaos.rs:369-378 | the recorded predecessor lists are the true graph's, so the end-of-run check passes |
| ChaosRun.NewWorldMatches | crates/workload/src/chaos.rs:258-298 | the world the harness starts in matches |
| ChaosRun.ExecuteMatches | crates/workload/src/chaos.rs:611-886 | shadow-model simulation: from a matching world every operation runs as predicted and leaves the worlds matching; with `ChaosSteps.ExecuteIsCalls` the kernel has then taken exactly the steps the operation stands for |
| ChaosRun.CorruptionIsCaught | crates/workload/src/chaos.rs:933-981 | the sweep fails on one flipped byte in the model of any region it can audit |
| ChaosRun.TargetIsFound | crates/workload/src/chaos.rs:1062-1072 | a region to corrupt is found exactly if some region has bytes and a capability that can read it |
| ChaosRun.RunSteps | crates/workload/src/chaos.rs:1041-1089 | every run without a fault passes; with the model to be corrupted from a step on, it fails at exactly the first step from there with an auditable non-empty region, and passes if there is none |
| ChaosRun.NewWorldHas | crates/workload/src/chaos.rs:258-298 | the harness starts with the root, three channels and two regions of eight zero bytes |
| ChaosRun.AimedMeans | crates/workload/src/chaos.rs:611-886 | an operation whose process and channel exist runs as it is |
| ChaosHistory.StashGrows | crates/workload/src/chaos.rs:309-318 | nothing ever seen is forgotten, and only what a process holds is added |
| ChaosHistory.HarnessRunsAreRuns | crates/workload/src/chaos.rs:1041-1089 | after any operations the harness's kernel is one the step system reaches from boot by calls with minted capabilities only, so all theorems about runs hold of it; and everything held has been seen |
| ChaosHistory.ReadableIsAlwaysAudited | crates/workload/src/chaos.rs:933-981 | in every world of every run the audit looks at every region some process can read |

## Left out

- Kernel ids, epochs, clock counters, turn counts and statistics are unbounded naturals, where the source counts in 64 bits.
- Pipeline.KernelPipeline.Run: takes a freshly built pipeline; a second `run` on the same object is not modelled.
- Pipeline.RunKernelPipeline: assumes `batches + pool + 2` and `stages + pool + 2` below 2^32, beyond which handles wrap.
- ChaosRun.RunSteps: assumes batches short enough and a run short enough that no handle counter wraps; `g` bounds the handles one batch names.
- RunsConserve.ConservedInEveryRun: assumes no operation of the run wraps a handle counter, since a wrapped handle would overwrite a live entry.
- Regions.RegionRegistry.Update: takes the closure as a pure function on byte sequences that keeps their length, as a slice's length is fixed; `inspect` likewise.
- Data.Transform: bytes and 64-bit words are numbers with explicit wrap-around and a recursive bitwise xor; the statistical quality of generator and checksum is not modelled, and different buffers may still share a checksum unless they differ in one byte only.
- The bytes of regions are values in a map inside the registry object, not arrays of their own, so in-place writing of one byte is not modelled there; the twin's boxed slices are values too.
- The chaos world's kernel is the value-level kernel of the step system, not the objects; each object method is proved equal to the value operation it stands for.
- Hash map iteration order: the harness and the pipeline sort handles first, and the model starts from the sorted listing.
- Operation generation, the log hash, outcome counters, `catch_unwind` and the printed summaries of the harness: runs are quantified over all operation sequences instead, and an impossible operation is a violation value.
- In a run of the harness the indices of an operation are reduced to existing processes and channels, as the generator does when it draws them.
- Capabilities of one kernel presented to another are not modelled; there is one kernel.
- The step system lets a closure, a clock observation or a capability come only from something that exists; forging them is impossible in the source by privacy.
- The clock a process keeps is part of its record, so sharing of clock objects is not modelled.
- In construction the sink is spawned by the same loop as the transformers, since it differs only in its role.
- Command-line programs, benchmarks, formatting of errors and traces, and plain accessors.
