# SimpleScalar: a verified model of its timing core, cache and target predictors

SimpleScalar's `sim-outorder` executes a program functionally, one instruction at a time, while it
models the timing of an out-of-order machine around it. This project models three of its stateful parts
and proves what they promise.

**The out-of-order core** (`sim-outorder.c`). Two circular buffers of reservation stations (RUU and
LSQ), tagged links recycled from a pool, a sorted event queue, a ready queue, a create vector with a
speculative shadow, a fetch queue, and a trace generator that keeps executing down wrong paths.
`OooTypes` and `OooStages` give the state and the pipeline stages as functions; every internal
consistency check of the simulator is kept and yields a `Panic`. `OooInv` states the invariants, the
other `Ooo` modules prove stage by stage that they are kept, and `OooTheorems` states what follows for
every run. `OooMeaning` ties stations to the instructions of the program; `OooWidths`, `OooResolve` and
`OooSupply` say exactly what each stage does and why it stops, and `OooCycle` puts them together.
`OooPolicy` is about the order of the ready queue. `OooTrack`, `OooPotential` and `OooProgress` prove
liveness: in a run that grants store ports and functional units every right-path instruction retires.
`OooExample` is a concrete run of four instructions that shows two failures of the simulator.
`OooProcessor` is the simulator as an object with arrays, lists and loops; each method does to its state
what its stage function says, and `Simulate` reaches exactly the states the theorems are about. The
instruction set, the branch predictor, cache latencies and the answers of the functional-unit pool are
arbitrary inputs.

**The speculative overlay** (`SpecOverlay`): copy-on-write registers and the hash table of speculative
memory words, with move-to-front chains and recycled entries. The object stands for the precise and
speculative values of the core's front end.

**The cache** (`cache.c`). `CacheModel` gives the operations as functions, `CacheProofs`, `CacheRuns`
and `CacheLru` prove that the cache is transparent with respect to byte-addressed memory, that LRU keeps
the most recently used tags and FIFO the most recently filled ones, and that a larger LRU associativity
includes a smaller one. `CacheCounts` is about random replacement, dirty blocks and statistics.
`CacheLinks`, `CacheSets` and `CacheImpl` are the cache as objects with doubly linked way lists and hash
chains, updated in place.

**The branch target buffer and return stack** (`bpred.c`), driven as `sim-bpred.c` drives them:
`BpredModel`, `BpredProofs`, `BpredStack`, and the objects of `BpredImpl`.

Where code and comments disagree the model follows the code. In `lsq_refresh` a store that has its data
is meant to hide earlier stores to the address that do not; the code does this by writing the address
zero over their records, and a load from address zero is then held back although no store can affect it
(`ZeroAddressIsHeldBack` is a run in which it happens; `ReleasedIsClear` says exactly when it does). A
store that names an output register stops the simulator (`StoreResultStops` is such a run; `RunOk` shows
that a program without such stores never does). An access to cache block zero when no block was the last
to hit dereferences a null pointer, because zero marks an empty fast path (`FirstZeroCrashes` shows it;
`FastPathIsExact` and `RunStops` say exactly when). The ready queue is meant to hold loads, stores, long
operations and branches first and all others oldest first; an operation queued by its age goes before a
younger one that has priority (`PolicyFails`; `PolicyIsKept` says exactly when). The driver of the
branch predictor takes a predicted target of zero for no prediction (`PredictionIsExact`).

The loops of the stages, of the cache and of the predictor that update state are loops of methods here.
Four kinds are not: the loops that fill the link pool, the create vectors and the BTB chains are array
or sequence initialisers, and the loops over the two outputs and three inputs of a station are unrolled.
Two independent groups of statements are in another order than in the source: dispatch fills the LSQ
station of a load or store after it has named the registers of the RUU half, and a cache miss writes the
victim back before it relinks the victim's block.

## Model

| member | source | states |
|---|---|---|
| `OooTheorems.RunOk` | sim-outorder.c:4210-4292 | in every run of every program the core invariant holds after every cycle; of all internal panics only an empty link pool, a store with a register result in a program that has one, and an overflow with an LSQ of more than 64 entries can occur |
| `OooTheorems.SequentialRefinement` | sim-outorder.c:3500-3932 | precise registers and memory always equal those of a sequential machine after as many instructions as were dispatched on the right path; fetch or recovery resumes where that machine is; the retired PCs are a prefix of its trace, NOPs apart |
| `OooTheorems.InTextAgrees` | sim-safe.c:283-351 | the sequential machine is the plain fetch-execute loop as long as the program stays in its text segment |
| `OooTheorems.OnlyRightPathCommits` | sim-outorder.c:2061-2191 | right-path instructions are retired or in the RUU in program order; none is lost and nothing else retires |
| `OooTheorems.RunExtends` | sim-outorder.c:4210-4292 | extending a run only extends the executed, dispatched and retired histories |
| `OooTheorems.SpeculationIsExact` | sim-outorder.c:3877-3885 | spec_mode is on iff a mispredicted branch is unresolved, there is never more than one, and the speculative operations are exactly those younger than it |
| `OooTheorems.OperationsAreInstructions` | sim-outorder.c:3713-3852 | every operation in the window, of either path, is the instruction the program has at its PC: its kind, inputs, outputs, flags, next PC and effective address are those of decoding and executing that instruction |
| `OooTheorems.RightPathIsExecuted` | sim-outorder.c:3544-3691 | an operation of the right path is one of exactly one instruction of the sequential machine, executed on that machine's values; mis-speculation is marked at it iff its prediction was wrong and decode did not redirect fetch |
| `OooTheorems.TrapsAreAlone` | sim-outorder.c:3553-3568 | nothing in the window is ever older than a trap, and no trap is speculative |
| `OooTheorems.WakeupIsExact` | sim-outorder.c:2358-2429 | an operand is ready iff its instruction reads no register there or the latest older instruction in the window that writes the register has completed, in terms of the registers the program names |
| `OooTheorems.ChainsAreExact` | sim-outorder.c:3196-3232 | only a live, uncompleted creator has links on an output chain, and a chain holds exactly one valid link for each operand that waits for it |
| `OooTheorems.CreateVectorIsExact` | sim-outorder.c:1972-1995 | both shadows together name an output iff it is the youngest creation of the register in the window and has not completed |
| `OooTheorems.LifeCycle` | sim-outorder.c:1774-1945 | an operation has one valid ready node iff queued and one valid event iff executing, and the phases exclude each other |
| `OooTheorems.SquashedIsForgotten` | sim-outorder.c:1655-1690 | a slot outside the window has no valid ready node, event or dependence link anywhere, although stale ones stay in the lists |
| `OooTheorems.HalvesArePaired` | sim-outorder.c:2079-2180 | the k-th LSQ entry and the k-th address computation of the RUU are halves of the same instruction |
| `OooTheorems.LinksAreConserved` | sim-outorder.c:1661-1708 | each link record is always in exactly one of the free list, the two queues and the output chains |
| `OooCycle.CycleIsExact` | sim-outorder.c:4228-4290 | a cycle is six steps, each of which does exactly what its width, its inputs and the state before it allow |
| `OooCycle.CommitsInOrder` | sim-outorder.c:2061-2191 | the instructions a cycle retires are the oldest ones, at most the commit width, each completed in both halves and each store with a port; the next one fails one of these, unless the width is used up |
| `OooCycle.MispredictionCosts` | sim-outorder.c:2312-2342 | speculation ends in the cycle in which the mispredicted branch's event is due and in no other; for as many cycles as the penalty nothing is then fetched or dispatched, and fetch resumes where the sequential machine is |
| `OooWidths.CommitIsExact` | sim-outorder.c:2061-2191 | commit retires the longest run of oldest instructions that may retire, within its width |
| `OooResolve.WritebackIsExact` | sim-outorder.c:2298-2437 | exactly the operations with an event in this cycle complete; if the mispredicted branch is one of them, exactly the speculative operations leave the window and fetch resumes on the right path after the penalty, and otherwise nothing leaves it |
| `OooWidths.IssueIsExact` | sim-outorder.c:2531-2768 | an operation in the ready queue starts iff fewer than the width have started before it and it gets a unit or needs none |
| `OooWidths.IssueIsOnTime` | sim-outorder.c:2594-2690 | what starts takes one cycle if it needs no unit and else the latency of the very unit it was given |
| `OooPolicy.PolicyIsKept` | sim-outorder.c:1891-1945 | queueing an operation keeps the stated scheduling policy iff it has priority itself or no younger operation with priority is queued |
| `OooPolicy.PolicyFails` | sim-outorder.c:1891-1945 | a state in which it does not |
| `OooSupply.DispatchIsExact` | sim-outorder.c:3500-3932 | how many instructions dispatch takes, which of them are on the right path, and that it stops only at its width, an empty queue, a full RUU or LSQ, a trap before the window has drained, or a wrong path that is not to be dispatched |
| `OooSupply.DispatchOneIsExact` | sim-outorder.c:3526-3918 | the entries one instruction takes in RUU and LSQ, where its writes go, and when fetch is redirected, with which delay, or mis-speculation starts |
| `OooSupply.FetchIsExact` | sim-outorder.c:3993-4126 | each fetched instruction is the one at the prediction of the one before, its prediction is the predictor's target for a transfer of control and the next instruction otherwise, and fetch stops exactly at its width, a full queue, the limit of predicted-taken branches or a miss in the text, which alone delays it |
| `OooTheorems.NoDependenceDeadlock` | sim-outorder.c:2449-2768 | in every cycle, something in a non-empty window can commit or the oldest uncompleted operation has its operands and is queued or executing |
| `OooTheorems.LoadsSeeTheRightStore` | sim-outorder.c:2616-2641 | when issue begins, a queued or issued load has all older store addresses known, and the forwarding scan finds exactly the youngest older store to its address, which has its data |
| `OooTheorems.ForwardedLoadsAreFast` | sim-outorder.c:2616-2680 | a load that issues gets one event, due after one cycle if an older store to its address is in the window and after the cache's latency if none is, but no sooner than its translation |
| `OooTiming.IssueTimed` | sim-outorder.c:2594-2690 | whatever starts was queued, and its event is due after the latency of the unit it was given, although the window changes while the queue is served |
| `OooProgress.HeadRetires` | sim-outorder.c:4228-4290 | with ports and units granted and latencies of at most n, the oldest instruction of a non-empty window retires within (n + 1) * 4^(RUU size + LSQ size) cycles |
| `OooProgress.EveryInstructionRetires` | sim-outorder.c:4210-4292 | in such a run every instruction dispatched on the right path retires, whatever the predictor, the caches and the issue width |
| `OooPotential.WritebackFalls` | sim-outorder.c:2298-2437 | writeback leaves the window alone or lowers the potential, even when a recovery squashes everything behind a branch |
| `OooPotential.NodesFall` | sim-outorder.c:2531-2768 | if some node of the ready queue is valid, issue lowers the potential; otherwise it changes no operation and no event |
| `OooTrack.WritebackLater` | sim-outorder.c:2298-2437 | writeback loses only the youngest operations, never the oldest, and only events that are due |
| `OooTrack.DispatchFuller` | sim-outorder.c:3500-3932 | dispatch leaves every operation of the window and every event as it was |
| `OooMeaning.DispatchOneMeant` | sim-outorder.c:3713-3852 | after dispatch too every operation in the window is the instruction at its PC, also the one or two halves it has just filled |
| `OooExample.ZeroAddressIsHeldBack` | sim-outorder.c:2472-2494 | a run of three cycles after which lsq_refresh does not release a load from address zero that has its operands and that no store can affect |
| `OooExample.StoreResultStops` | sim-outorder.c:2572-2583 | a run of four cycles that a store with an output register stops |
| `OooRefresh.ReleasedIsClear` | sim-outorder.c:2450-2516 | a released load cannot be affected by any older store; a load that cannot be affected is held back iff it is to address zero and a cancelled record is left |
| `OooRefresh.RefreshOk` | sim-outorder.c:2450-2516 | the scan queues exactly the released waiting loads, changes nothing else, keeps the core invariant, and overflows only with more than 64 LSQ entries |
| `OooRefresh.ForwardingIsExact` | sim-outorder.c:2616-2641 | the backward LSQ scan finds a store iff it is the youngest older one to the address |
| `OooCommit.CommitOk` | sim-outorder.c:2061-2191 | commit never panics, keeps the core invariant and only appends to the retired history; `CommitIsExact` says what it appends |
| `OooRecover.RecoverWindowOk` | sim-outorder.c:2201-2282 | squashing from the tail never panics, ends with the branch as the youngest entry of the RUU, and keeps pairing, histories, dependences and life cycles right |
| `OooComplete.RecoverOk` | sim-outorder.c:2312-2342 | recovery at a mispredicted branch never panics and leaves only the right path, with precise state unchanged |
| `OooComplete.PopOk` | sim-outorder.c:1810-1845 | a popped event is valid, its operation is executing, and it fires in the very cycle it was scheduled for |
| `OooWake.WakeAllOk` | sim-outorder.c:2397-2429 | following a chain readies exactly the operands whose valid links it holds, none of which was ready, and whatever then has its operands is queued |
| `OooWriteback.BroadcastOk` | sim-outorder.c:2358-2429 | delivering one output keeps the dependence, vector and life-cycle invariants |
| `OooComplete.WritebackOk` | sim-outorder.c:2298-2437 | writeback serves every event due this cycle, keeps the core invariant and panics only for want of links |
| `OooIssue.IssueOk` | sim-outorder.c:2531-2768 | issue keeps the core invariant for any answers of the resource pool, and stops only for want of links or, if some station holds one, at a store with a result |
| `OooNames.LinkOk` | sim-outorder.c:3196-3232 | linking an input keeps the invariants: the operand is ready or waits on the chain of its youngest older creator |
| `OooInstall.ConnectOk` | sim-outorder.c:3196-3260 | naming all inputs, then all outputs, of a new operation keeps the invariants |
| `OooDispatch.AllocateOk` | sim-outorder.c:3713-3852 | dispatching an instruction, in one or two halves, keeps every window invariant and conserves links; `DispatchOneMeant` says what its stations hold |
| `OooFrontEnd.RightPathStep` | sim-outorder.c:3544-3691 | a right-path dispatch is one step of the sequential machine, and a wrong prediction records where it goes on |
| `OooFrontEnd.WrongPathStep` | sim-outorder.c:3544-3691 | a wrong-path dispatch changes neither precise state nor the recovery address |
| `OooFollow.DispatchOk` | sim-outorder.c:3500-3932 | dispatch keeps the core invariant; "drained and speculative" and a mispredicted NOP cannot happen |
| `OooFrontEnd.FetchKeeps` | sim-outorder.c:3993-4126 | fetch extends a chain of predictions and never changes what dispatch sees next, whatever the predictor and the instruction cache answer; `FetchIsExact` says what it appends |
| `OooRun.CycleOk` | sim-outorder.c:4228-4290 | one cycle of the five stages keeps the core invariant, makes no store with a result unless the program has one, and rewrites no history |
| `OooProcessor.InsertSorted` | sim-outorder.c:1784-1804 | the list walk inserts before the first node that is not smaller |
| `OooProcessor.Processor.constructor` | sim-outorder.c:1325-1375 | the new object is the initial state of the theorems |
| `OooProcessor.Processor.ReadyEnqueue` | sim-outorder.c:1905-1945 | new state and panics of readyq_enqueue |
| `OooProcessor.Processor.QueueEvent` | sim-outorder.c:1774-1805 | new state and panics of eventq_queue_event |
| `OooProcessor.Processor.NextEvent` | sim-outorder.c:1810-1845 | pops the next due valid event and drops stale ones |
| `OooProcessor.Processor.CommitOne` | sim-outorder.c:2068-2190 | one commit iteration agrees with the model, including when it stops, so with `CommitIsExact` |
| `OooProcessor.Processor.Commit` | sim-outorder.c:2061-2191 | the commit loop agrees with the model |
| `OooProcessor.Processor.SquashOne` | sim-outorder.c:2215-2275 | one squash of the youngest instruction agrees with the model |
| `OooProcessor.Processor.RecoverWindow` | sim-outorder.c:2201-2282 | the recovery loop agrees with the model |
| `OooProcessor.Processor.TracerRecover` | sim-outorder.c:2884-2935 | speculative state is dropped and fetch resumes at the recovery address |
| `OooProcessor.Processor.WakeAll` | sim-outorder.c:2397-2429 | the loop over an output chain agrees with the model |
| `OooProcessor.Processor.Broadcast` | sim-outorder.c:2358-2429 | clears the creator entry if it is still the latest and wakes the dependents |
| `OooProcessor.Processor.Writeback` | sim-outorder.c:2298-2437 | the writeback loop agrees with the model |
| `OooProcessor.Processor.ScanOne` | sim-outorder.c:2461-2514 | one LSQ entry of the refresh scan agrees with the model, over a fixed table of 64 addresses |
| `OooProcessor.Processor.Refresh` | sim-outorder.c:2450-2516 | the refresh loop agrees with the model |
| `OooProcessor.Processor.Forward` | sim-outorder.c:2616-2641 | the backward scan agrees with the model |
| `OooProcessor.Processor.Issue` | sim-outorder.c:2531-2768 | both issue loops together agree with the model |
| `OooProcessor.Processor.LinkIdep` | sim-outorder.c:3196-3232 | agrees with the model, so with `OooNames.LinkOk` |
| `OooProcessor.Processor.InstallOdep` | sim-outorder.c:3236-3260 | agrees with the model |
| `OooProcessor.Processor.DispatchOne` | sim-outorder.c:3526-3918 | one dispatch iteration agrees with the model, including when it stops, so with `DispatchOneIsExact` |
| `OooProcessor.Processor.Dispatch` | sim-outorder.c:3500-3932 | the dispatch loop agrees with the model |
| `OooProcessor.Processor.Fetch` | sim-outorder.c:3993-4126 | the fetch loop agrees with the model, so with `FetchIsExact` |
| `OooProcessor.Processor.Cycle` | sim-outorder.c:4228-4290 | the stages run from last to first as in the model |
| `OooProcessor.Processor.Simulate` | sim-outorder.c:4210-4292 | the object reaches exactly the state of the run, which is reachable in the sense of the theorems, and stops early only for an excused panic |
| `SpecOverlay.MoveToFrontKeeps` | sim-outorder.c:2999-3015 | reordering a hash chain changes no word it holds |
| `SpecOverlay.AllEntriesFree` | sim-outorder.c:2905-2917 | with an empty table every entry ever allocated is on the free list exactly once |
| `SpecOverlay.Tracer.ReadReg` | sim-outorder.c:3303-3353 | a read gives the latest speculative write, or else the precise value |
| `SpecOverlay.Tracer.WriteReg` | sim-outorder.c:3303-3353 | a write in speculative mode leaves precise registers alone |
| `SpecOverlay.Tracer.ReadWord` | sim-outorder.c:2973-3082 | an allowed aligned read gives the latest speculative write, or else the precise word; a disallowed one gives nothing |
| `SpecOverlay.Tracer.WriteWord` | sim-outorder.c:2973-3104 | a speculative write changes that one word of the overlay and nothing precise |
| `SpecOverlay.Tracer.Recover` | sim-outorder.c:2884-2917 | afterwards every read is precise and all entries are free |
| `SpecOverlay.Tracer.Misspeculate` | sim-outorder.c:2884-2917 | whatever a wrong path reads and writes, recovery restores every visible value |
| `SpecOverlay.Tracer.Get` | sim-outorder.c:2973-3353 | a read gives the value the front end of the core shows |
| `SpecOverlay.Tracer.Execute` | sim-outorder.c:2973-3353 | the writes of an instruction do to the registers and the table what they do to the front end's precise or speculative values |
| `SpecOverlay.Tracer.Rollback` | sim-outorder.c:2884-2917 | recovery succeeds iff the front end's does and leaves its values |
| `CacheProofs.FastPathIsExact` | cache.c:546-577 | the one-entry fast path never changes the result of an access, except for the null dereference on block zero, iff no block was the last to hit |
| `CacheProofs.AccessOk` | cache.c:513-738 | an access reads and writes what cache and memory together hold, changes no other block, and keeps way lists, tags, fast path, clean blocks and counters consistent |
| `CacheProofs.FlushAddrOk` | cache.c:822-878 | the block leaves the cache and what the cache shows is unchanged |
| `CacheProofs.FlushOk` | cache.c:784-817 | nothing stays valid and memory holds what the cache showed |
| `CacheRuns.StepOk` | cache.c:513-878 | every operation that does not fail keeps the cache invariant |
| `CacheRuns.CacheIsTransparent` | cache.c:513-878 | any sequence of reads, writes and flushes that runs to its end, under any policy, reads what byte-addressed memory would |
| `CacheRuns.FlushLeavesMemory` | cache.c:784-817 | a flush after any run leaves every byte of memory as byte-addressed memory has it |
| `CacheRuns.ChecksAreExact` | cache.c:536-543 | an access is refused for its size or alignment iff its size is not a power of two that divides the address, size zero being taken only at address zero; and of the others for spanning blocks iff a byte of it is in another block |
| `CacheRuns.RunStops` | cache.c:536-577 | a run stops iff one of its operations, after those before it, is misaligned, leaves its block, or is to block zero with no block the last to hit; and with which error |
| `CacheRuns.EveryRunEnds` | cache.c:513-878 | every sequence of operations that are aligned, stay in their block and keep off block zero runs to its end |
| `CacheRuns.FirstZeroCrashes` | cache.c:546-552 | a first access to block zero of a new cache dereferences the null block |
| `CacheRuns.ZeroNeedsAHit` | cache.c:546-577 | after any access, an access to block zero works iff the one before hit |
| `CacheRuns.ProbePredicts` | cache.c:744-780 | cache_probe is true iff the next access hits |
| `CacheRuns.BlocksBalance` | cache.c:579-648 | valid blocks = misses - replacements - invalidations, in every run |
| `CacheLru.AccessKeepsOrder` | cache.c:546-738 | under LRU and FIFO an access hits iff its tag is on the set's list and replaces the last tag of a full list; its tag moves to the front, except on a hit under FIFO |
| `CacheLru.CacheKeepsOrder` | cache.c:513-878 | in every run each set's valid tags in way-list order are, truncated to the associativity, the reference list of tags last used under LRU and last filled under FIFO |
| `CacheLru.LruInclusion` | cache.c:513-878 | with equal sets and block size, the smaller LRU cache's lists are prefixes of the larger one's and its hits are hits there |
| `CacheCounts.AccessDraws` | cache.c:583-668 | under random replacement a miss replaces the block that was drawn, reports the address of what it held, and leaves every other block |
| `CacheCounts.CacheIsDrawn` | cache.c:513-878 | in every run under random replacement each block holds the tag of the last miss of its set that drew it, unless it was flushed |
| `CacheCounts.DirtyIsExact` | cache.c:648-737 | after any operation a block is dirty iff it is resident and was dirty before or has just been written |
| `CacheCounts.CountsAreExact` | cache.c:579-878 | what every operation adds to hits, misses, replacements, writebacks and invalidations: a write-back is counted iff the replaced block was dirty |
| `CacheCounts.AccessesAreCounted` | cache.c:513-878 | in every run hits and misses together are the accesses, and write-backs <= replacements <= misses |
| `CacheLinks.UnlinkSpells` | cache.c:207-254 | unlinking leaves the doubly linked list without the block |
| `CacheLinks.UnlinkTabled` | cache.c:159-188 | unlinking a block leaves every other block in the bucket of its tag |
| `CacheLinks.LinkTabled` | cache.c:192-201 | linking files the block under its new tag |
| `CacheSets.CacheSet.constructor` | cache.c:369-413 | all indexes of a new set agree |
| `CacheSets.CacheSet.UpdateWayList` | cache.c:208-272 | the block moves to the head or tail and the links still spell the way list |
| `CacheSets.CacheSet.UnlinkHash` | cache.c:159-188 | the block is always found, so the assertion holds, and is in no bucket afterwards |
| `CacheSets.CacheSet.Search` | cache.c:554-577 | hash chain and way list searches both find the one valid block with the tag |
| `CacheSets.CacheSet.Hit` | cache.c:675-737 | data, dirty bit and way list after a hit |
| `CacheSets.CacheSet.Replace` | cache.c:583-668 | way list, tag and hash chains after a replacement |
| `CacheImpl.Cache.constructor` | cache.c:276-415 | the new object is the initial cache of the theorems |
| `CacheImpl.Cache.Access` | cache.c:513-738 | agrees with the model in state, data, hit and replaced address, with every index kept right, so with `ChecksAreExact`, `AccessOk` and `CountsAreExact` |
| `CacheImpl.Cache.Probe` | cache.c:744-780 | agrees with the model |
| `CacheImpl.Cache.Flush` | cache.c:784-817 | both flush loops together agree with the model |
| `CacheImpl.Cache.FlushAddr` | cache.c:822-878 | agrees with the model |
| `CacheImpl.Cache.Perform` | cache.c:513-878 | a series of operations on the object reads what the run of the model reads, leaves its state, and stops where it stops |
| `CacheImpl.Replay` | cache.c:276-878 | a new object that performs any series of operations without failing reads what byte-addressed memory would |
| `BpredProofs.EnteredIsLru` | bpred.c:820-883 | a taken branch becomes most recently used and pushes out the least recently used when the set is full |
| `BpredProofs.RightIsStored` | bpred.c:943-961 | a right prediction of a taken branch in the BTB is its stored target, so leaving it unwritten loses nothing |
| `BpredProofs.BtbIsLruMap` | bpred.c:664-961 | in every run a BTB set tracks exactly its most recently taken branches, each with its latest taken target |
| `BpredProofs.PredictionIsExact` | bpred.c:637-711 | after any run the predicted next PC of a branch the stack does not serve is its latest taken target if its set tracks it and it is unconditional or predicted taken, one if it is not tracked, and the next instruction if it is predicted not taken or that target is zero |
| `BpredProofs.RightIff` | sim-bpred.c:490-527 | a branch of a run is predicted right iff it goes where the branches before it make expect |
| `BpredProofs.ZeroFallsThrough` | bpred.c:664-711 | a branch at address zero matches an unused entry, so it is predicted to fall through until its set is full |
| `BpredStack.ReturnIsPredicted` | bpred.c:646-804 | a return goes to the instruction after its call as long as the calls between never nested as deep as the stack, and otherwise to the one after some deeper call |
| `BpredStack.SurvivorIs` | bpred.c:792-804 | which call's return address a stack slot holds after any nested run |
| `BpredImpl.BtbSet.constructor` | bpred.c:176-199 | the chaining of a new set spells one list through all entries |
| `BpredImpl.BtbSet.Scan` | bpred.c:832-861 | one scan finds the matching entry, which is unique, and both ends of the list |
| `BpredImpl.BtbSet.Enter` | bpred.c:820-961 | agrees with the model, with the links still spelling the LRU list |
| `BpredImpl.Bpred.Lookup` | bpred.c:637-711 | agrees with the model, so with `PredictionIsExact` |
| `BpredImpl.Bpred.Update` | bpred.c:784-961 | agrees with the model |
| `BpredImpl.Bpred.Predict` | sim-bpred.c:490-527 | one lookup then update, and whether the prediction was right, so with `RightIff` |
| `BpredImpl.Bpred.Drive` | sim-bpred.c:463-540 | the loop over a series of branches leaves the state of the run the theorems are about and reports which branches were predicted right |

## Left out

- Instruction semantics, syscalls and register r0: one abstract function gives each instruction's next PC, address and writes; program text does not change.
- Issue priority: any operation may get a unit; `PolicyIsKept` is about one insertion, and no run that breaks the policy is given. In-order issue mode is not modelled.
- BpredImpl.Bpred.Drive: takes branches at non-zero addresses, as `BtbIsLruMap` does.
- Latencies of caches and TLBs, the bus, functional-unit release, statistics other than the cache's counters, pipetracing and the debugger.
- The compatibility mode that keeps old bugs (`bugcompat_mode`).
- 32-bit wrap-around of tags and sequence numbers, and of BTB addresses.
- RunOk: an empty link pool is an allowed panic, because the pool size is a constant that no check relates to the window size; no pool size that makes it impossible is derived.
- EveryInstructionRetires: its bound on the number of cycles is exponential in the window size, and nothing is claimed when a request for a unit or port is never granted.
- Speculative accesses of one, two and eight bytes and single floating-point registers: the overlay models aligned words, general registers, HI, LO and FCC.
- Bitmaps are sets: the packing of `bitmap.h` is not modelled.
- Cache user data, the copying of data word by word, and block sizes that are not powers of two being refused.
- BtbIsLruMap: is about branches at non-zero addresses, because the source marks unused entries by address zero.
- Direction predictors: the predicted direction of a conditional branch is an input; static predictors and bpred_recover are not modelled.
- SpecOverlay.Tracer.Perform: promises only that a speculative access changes nothing precise; it is the loop body of `Misspeculate`.
- Options, loader, statistics and expression packages, `resource.c`, `eventq.c` and the other simulators.
