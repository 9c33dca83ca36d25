# Verified models of spvirit

Dafny models of the parts of spvirit that are hardest to get right, with proofs of what each of
them promises. `dafny verify dfyconfig.toml` checks everything.

**The CALC compiler and machine** (`Calc*.dfy`). Tokens go through a shunting-yard compiler with
back-patched conditionals, a store that un-emits its fetch and is hoisted out of then-branches,
and variadic calls; a static checker and an operand summary follow; an instruction-pointer
machine runs the result. Numbers are NaN, the infinities and reals; arithmetic and functions are
an arbitrary environment and the draws of RNDM a supplied sequence. Proved: printing any
well-formed program with only the parentheses the precedence table needs and compiling it gives
code that runs to the program's value, final operands, draws and stores; whatever tokens come in,
code that reaches the checker nests like brackets and keeps stores outside conditionals; accepted
code halts with one value and no panic; the operand summary is a sound non-interference claim;
MIN, MAX, ISNAN and FINITE are Base's loops; the number scanner and operator lexer take the
longest match.

**PVA framing** (`PvaFrame.dfy`, `Segments.dfy`, `FrameReader.dfy`, `Awaiting.dfy`,
`ReadUntil.dfy`). A reference splitter cuts a byte stream into frames. The resumable reader, under
any chunking, dropped read futures, timeouts and buffer donations, hands the reassembler exactly
the splitter's frames; the reassembler gives back any payload cut into segments with control frames
anywhere between; every message delivered is itself a frame. The request-reply read built on them
is a reference wait over the frames it takes, and a reply it accepts leaves the connection at a
frame boundary with nothing half-assembled.

**The resolution cache** (`SlotMap.dfy`, `ResolutionCache.dfy`, `CacheStore.dfy`). A state machine
of concurrent callers, failures, cancellations, invalidations and sweeps, with single flight,
freshness, generation and bound guarantees over every interleaving. A caller whose name finds the
map full of others in use is given a slot of its own and resolves apart; single flight is proved for
all the rest, and being turned away is proved to happen only then. `CacheStore.dfy` is the same data
updated in place, with the reference counts and the set of live slots computed by loops.

**The search engine** (`Packing.dfy`, `SearchEngine.dfy`, `SearchSafety.dfy`, `SearchRuns.dfy`,
`SearchTask.dfy`). Optimal order-preserving packing; conservation and soundness of requests over
whole runs; the retry schedule; no spinning. The engine is also written as a class whose loops are
proved against the step functions.

**The connection pool and retries** (`ConnPool.dfy`, `PooledOps.dfy`, `PooledCalls.dfy`,
`PooledBoundary.dfy`, `PooledClient.dfy`). Concurrent pooled operations as interleaved steps over a
scripted network. Checkout, dial, channel and operation are separate steps; a caller may drop its
operation between them or at any await inside them. Every wait is the reference wait over the frames
that come, so a frame over the limit, a segmentation error, a stall inside a frame and a dead socket
all leave the connection as the reader would. The two-attempt loop is a method whose every run is a
run of those steps, so what holds of all interleavings holds of it.

Two promises about idle connections turn out to have exceptions, and the model follows the code.
The opening reads of the handshake (`spvirit-client/src/client.rs:97-117`) pass over their errors
and then drop their buffer. A server that stalls inside a frame past both of them leaves a
validated connection that is no longer at a frame boundary: `StalledHandshakeLosesBytes` is such an
input, and `PoolIsAlignedIff` says that the pooled connection is at a boundary exactly if the
opening reads were. And a refusal is told by text (`spvirit-client/src/pva_client.rs:176-188`). Two
texts that end a PUT quote words that are not the client's: the server's, after a data frame, and a
key of the value or a field name of the structure, when the value cannot be encoded
(`spvirit-client/src/put_encode.rs:73`). If those words contain a refusal marker, the connection is
kept even when the frame that frees the request could not be written. `MisreadPutLeavesRequest` and
`MisnamedPutLeavesRequest` are such inputs, `RequestStaysOpenIff` is the exact condition on an
operation and `PoolHasRequestIff` on a run. `FairRunsStayAligned` proves both promises for every run
without either.

**Pipelined monitor credit** (`Pipeline.dfy`). Client, both directions of the wire and server
window. Two server behaviours are modelled. One adds an acknowledged count to its credit; with it
credit is conserved. The other is this repository's registry (`spvirit-server/src/monitor.rs:760-766`),
which sets its credit to the acknowledged count. Conservation over runs is then false in general:
`SettingLosesCredit` shows a run that loses credit, and `SettingConservesIff` proves that it holds
over all runs exactly when the granted window is at most the client's threshold, which with the
registry's ceiling of 4096 means a queue size of 1, or of 8192 and up. "Never stalls" is proved for
both servers, exactly when half the queue size fits the ceiling: for queue sizes up to 8193. The
client's documentation of `queueSize` mentions neither the ceiling nor the overwrite; the model
follows the code.

**PUT bits** (`PutBits.dfy`, with `Encoding.dfy`). The PUT encoder and the monitor's path table
number fields the same way.

Fields and values called history in the models (when a resolve began, whether a caller was turned
away, which datagrams carried a name, who dialled a connection, which bytes were read off it and
dropped) are not read by any modelled decision.

## Model

| member | source | states |
|---|---|---|
| CalcChecker.CheckSegment | spvirit-calc/src/parse.rs:923-1010 | the recursive checking loop returns the verdict of the reference stack-depth function |
| CalcChecker.CheckArity | spvirit-calc/src/parse.rs:890-898 | accepts exactly the programs that end at depth one, or are empty |
| CalcChecker.RunReaches | spvirit-calc/src/eval.rs:225-345 | over an accepted stretch the instruction-pointer machine arrives, without panic or backward jump, in the state of the big-step reading that runs only the arm taken |
| CalcChecker.AcceptedProgramsHalt | spvirit-calc/src/eval.rs:225-345 | any accepted program halts on any operands with one value on the stack (none if empty) and the pointer at the end |
| CalcParser.TokenNeverShrinks | spvirit-calc/src/parse.rs:152-529 | no token shortens the program that the output and the pending frames will finish as |
| CalcParser.OverLimitStaysOver | spvirit-calc/src/parse.rs:152-619 | the in-loop length guard is only an early exit: once over the limit, every finished program is over it |
| CalcPrinted.PendFlushes | spvirit-calc/src/parse.rs:653-705 | unwinding the frames an expression leaves pending turns what it has emitted into its code, with both conditional targets patched |
| CalcPrinted.PrintFeeds | spvirit-calc/src/parse.rs:127-705 | feeding a tree printed with only the needed parentheses takes the parser to the state that holds exactly that tree's emitted code and pending frames |
| CalcPrograms.TargetFeeds | spvirit-calc/src/parse.rs:340-490 | a store written in a then-branch, at any depth, reads as a store of the whole conditional |
| CalcPrograms.ProgramFeeds | spvirit-calc/src/parse.rs:395-418 | terminated statements, stores included, are read one after the other into the code of each |
| CalcPrograms.EmitsCode | spvirit-calc/src/parse.rs:127-619 | what the compiler emits for a printed program is the program's code |
| CalcMeaning.CodeDepth | spvirit-calc/src/parse.rs:923-1010 | to the checker, an expression's code adds exactly one value whatever surrounds it |
| CalcMeaning.CompilesToCode | spvirit-calc/src/parse.rs:127-619 | a printed program is accepted exactly when it leaves one value and fits MAX_OPS, and then compiles to its code |
| CalcMeaning.ProgramRuns | spvirit-calc/src/eval.rs:225-734 | running a program's code anywhere pushes its values, updates its operands, takes its draws and performs its stores |
| CalcMeaning.CompilationPreservesMeaning | spvirit-calc/src/eval.rs:225-734 | compile then run gives the tree's value, final operands, draws and stores |
| CalcMeaning.EmptyExpression | spvirit-calc/src/parse.rs:122-127 | the empty expression compiles to no code and evaluates to NaN |
| CalcShape.TokenKeeps | spvirit-calc/src/parse.rs:152-529 | every token keeps the invariant that emitted code nests and open conditionals sit where their frames say |
| CalcShape.EmittedNests | spvirit-calc/src/parse.rs:653-661 | for every token list, code that reaches the checker nests like brackets with its own targets, holds no store inside a conditional, and uses only existing slots |
| CalcShape.NestedNeverMalformed | spvirit-calc/src/parse.rs:923-1010 | the checker's structural errors are unreachable from the compiler |
| CalcShape.CompiledProgramsHalt | spvirit-calc/src/eval.rs:225-345 | any accepted expression halts on any operands with one value, or none if empty |
| CalcUsage.ArgUsage | spvirit-calc/src/parse.rs:99-119 | the flat walk computes the slots fetched before any store to them and the slots stored |
| CalcUsage.ExecAlike | spvirit-calc/src/parse.rs:99-119 | machines that agree on the inputs and earlier stores stay alike over any nested stretch |
| CalcUsage.ExecStores | spvirit-calc/src/eval.rs:725-728 | every store of a nested stretch runs, once and in order, and nothing else is assigned |
| CalcUsage.UsageIsSound | spvirit-calc/src/parse.rs:99-119 | for any accepted expression, operand arrays that agree on the inputs give the same answer, draws and stored values, and exactly the stored slots change |
| CalcFolds.MinMaxIsChampion | spvirit-calc/src/eval.rs:472-539 | "any NaN, else fold" equals the pairwise champion loop for every argument list, and is the extreme element when there is no NaN |
| CalcFolds.PredicatesAreFolds | spvirit-calc/src/eval.rs:472-539 | ISNAN is the or-fold and FINITE the and-fold of its arguments |
| CalcFolds.VariadicCall | spvirit-calc/src/eval.rs:472-539 | a variadic call replaces exactly its arguments and leaves the stack below them unchanged |
| CalcEval.FoldTail | spvirit-calc/src/eval.rs:472-539 | the loops over the tail of the stack, with the NaN test first, compute the reference fold of MIN, MAX, ISNAN and FINITE |
| CalcEval.Evaluate | spvirit-calc/src/eval.rs:225-734 | the loop over the stack, the pointer and the operand array ends with the reference run's operands, answer and draws |
| CalcCompile.Finalize | spvirit-calc/src/parse.rs:653-661 | patching in place is the reference patch of both targets |
| CalcCompile.PopOperators | spvirit-calc/src/parse.rs:690-705 | the pop loop is the reference unwinding by precedence and associativity |
| CalcCompile.CloseToParen | spvirit-calc/src/parse.rs:231-252 | the loop of a closing parenthesis or comma is the reference unwinding to the parenthesis |
| CalcCompile.CloseToHead | spvirit-calc/src/parse.rs:419-490 | the loop of a colon, which sets stores aside and restores them, is the reference unwinding to the conditional's head |
| CalcCompile.UnwindAll | spvirit-calc/src/parse.rs:548-588 | the final unwinding loop is the reference flush of every frame |
| CalcCompile.Compile | spvirit-calc/src/parse.rs:127-619 | the token loop with its early length guard accepts and produces exactly what the guard-free specification does |
| CalcLexer.ScanDecimal | spvirit-calc/src/lex.rs:102-143 | on every input the forward scan consumes the longest prefix in the float grammar, or reports that no prefix is in it |
| CalcLexer.FirstMatchIsLongest | spvirit-calc/src/lex.rs:27-31 | in a table where no spelling comes before a longer one it starts, the first match is the longest |
| CalcLexer.OpsAreOrdered | spvirit-calc/src/lex.rs:27-31 | the table of operator spellings is ordered that way |
| CalcLexer.LexOperator | spvirit-calc/src/lex.rs:70-74 | operator lexing takes the longest spelling in the table, and none only when none matches |
| PvaFrame.SplitJoin | spvirit-client/src/transport.rs:282-365 | cutting concatenated frames gives those frames back, whatever incomplete tail follows |
| PvaFrame.JoinSplit | spvirit-client/src/transport.rs:282-365 | the frames cut from any stream and the rest are that stream, and no further frame can be cut |
| PvaFrame.BytesRoundTrip | spvirit-codec/src/segment.rs:156-173 | a length written in either byte order reads back |
| Segments.PushKeepsCap | spvirit-codec/src/segment.rs:77-147 | held bytes never exceed the cap, an error leaves the reassembler as new, a control frame leaves it unchanged |
| Segments.Finish | spvirit-codec/src/segment.rs:156-173 | the rebuilt message is the first header with its segment bits cleared and length rewritten, then all payloads |
| Segments.SegmentReassembler.Push | spvirit-codec/src/segment.rs:77-147 | the in-place push is the reference step, and the frames fed are recorded |
| Segments.CutReassembles | spvirit-codec/src/segment.rs:77-173 | any payload cut into two or more segments, with control frames anywhere between, comes back under its own header with the length rewritten |
| Segments.DeliveriesAreFrames | spvirit-client/src/transport.rs:312-364 | for any frame limit and any cap, every message delivered for frames within the limit is itself a whole frame, within the limit or the cap |
| Segments.FrameReadsBackIff | spvirit-client/src/transport.rs:321-327 | a whole frame reads back as itself exactly when its payload is within the frame limit, whatever the cap |
| Segments.DeliveriesReadBack | spvirit-client/src/transport.rs:312-364 | every message delivered in any replay reads back as itself under any frame limit at least the limit and the cap it came through |
| FrameReader.FrameBuf.Recycle | spvirit-client/src/transport.rs:140-154 | a donated buffer never changes the bytes held, and is refused mid-frame, over the retention limits or when smaller |
| FrameReader.Fill | spvirit-client/src/transport.rs:211-276 | whatever arrives is kept in order after what was there; it is done exactly when the buffer is full; any other result is what the last read met; it times out only where allowed |
| FrameReader.ReadHeader | spvirit-client/src/transport.rs:293-333 | a stop in the middle of a header loses nothing |
| FrameReader.ReadPayload | spvirit-client/src/transport.rs:335-354 | a stop in the middle of a payload loses nothing |
| FrameReader.HandOver | spvirit-client/src/transport.rs:356-364 | a complete frame is pushed once and the buffer is empty after it |
| FrameReader.ReadFrameInto | spvirit-client/src/transport.rs:282-365 | the read loop feeds the reassembler whole frames only and reports just what their replay delivers |
| FrameReader.ReadFrameResumable | spvirit-client/src/transport.rs:404-414 | after every call, however it ended, the bytes consumed split into exactly the frames fed and the bytes held, and each call takes something off the stream until it ends or a frame is over the limit |
| FrameReader.ReadFrame | spvirit-client/src/transport.rs:380-390 | with a fresh buffer, a timeout is reported only between frames |
| FrameReader.NothingMissing | spvirit-client/src/transport.rs:282-365 | once the stream has ended, or a frame over the limit is next, the frames fed are all the frames of the whole stream |
| FrameReader.Drive | spvirit-client/src/transport.rs:404-414 | over any sequence of reads, drops, timeouts and donations the frames fed are the reference split and the messages delivered are their replay, each a whole frame within the frame limit or the cap; after enough reads they are all the frames of the stream |
| Awaiting.AcceptedLeavesNothing | spvirit-client/src/transport.rs:437-462 | a wait that ends with an accepted application message leaves no part of a frame held and nothing half-assembled, whatever was being assembled before |
| ReadUntil.Next | spvirit-client/src/transport.rs:452-460 | one message taken off the socket is one step of the reference wait over the frames fed |
| ReadUntil.Until | spvirit-client/src/transport.rs:437-462 | the loop with its own buffer is the reference wait over the frames it fed, the bytes consumed are those frames and the part held, and an accepted application message leaves the socket at a frame boundary |
| SlotMaps.PruneBounded | spvirit-client/src/cache.rs:196-218 | a sweep keeps the bounds and, below the cap, leaves room |
| SlotMaps.GetOrInsertBounded | spvirit-client/src/cache.rs:176-190 | every lookup keeps size at most next_prune at most the cap, and the sweep accounting |
| SlotMaps.GetOrInsertMaps | spvirit-client/src/cache.rs:176-218 | a lookup drops only names whose slot is not live and adds at most the name asked for |
| SlotMaps.GetOrInsertFull | spvirit-client/src/cache.rs:176-190 | the name asked for is left out exactly when it was not mapped and other names fill the map |
| SlotMaps.RemoveBounded | spvirit-client/src/cache.rs:255-266 | forgetting a name keeps the bounds |
| SlotMaps.CapSweepsApart | spvirit-client/src/cache.rs:196-206 | sweeps at the cap are whole intervals apart |
| SlotMaps.Retain | spvirit-client/src/cache.rs:207-216 | the retain loop keeps exactly the names with live slots |
| SlotMaps.SlotStore.Sweep | spvirit-client/src/cache.rs:196-218 | the in-place sweep is the reference sweep, for any set of live slots |
| SlotMaps.SlotStore.Lookup | spvirit-client/src/cache.rs:176-190 | the in-place lookup is the reference lookup, for any set of live slots |
| ResolutionCache.HitsAreGood | spvirit-client/src/cache.rs:314-324 | a returned entry is younger than the TTL and its resolve began after the invalidations before the generation was read |
| ResolutionCache.BumpOutdates | spvirit-client/src/cache.rs:268-273 | an invalidation outdates the entry and every resolve in flight for the name |
| ResolutionCache.InvalidateOutdates | spvirit-client/src/cache.rs:268-273 | in every state of the invariant, after an invalidation the name's entry is unusable at any time under any TTL, and every caller that had read the generation read an older one, so what it stores is unusable too |
| ResolutionCache.ForgetKeeps | spvirit-client/src/cache.rs:255-266 | dropping a failed name keeps the invariant, in which every caller not turned away holds the slot mapped for its name |
| ResolutionCache.ArriveKeeps | spvirit-client/src/cache.rs:176-218 | a lookup, sweep included, keeps the invariant, in which every caller not turned away holds the slot mapped for its name |
| ResolutionCache.StepKeeps | spvirit-client/src/cache.rs:299-344 | every step of every caller keeps the whole invariant |
| ResolutionCache.OverflowOnlyWhenFull | spvirit-client/src/cache.rs:176-190 | a caller is turned away exactly when its name is not mapped and other names fill the map after the sweep; otherwise it holds the slot mapped for its name |
| ResolutionCache.CacheIsSafe | spvirit-client/src/cache.rs:128-344 | over every interleaving: every caller not turned away from a full map holds the slot mapped for its name, and two of them resolving the same name are the same caller; hits are fresh and from resolves begun after earlier invalidations; the map is within its cap, sweeping is paid for by insertions, cap sweeps are an interval apart |
| CacheStore.CountHolders | spvirit-client/src/cache.rs:173-175 | the reference count of a slot is positive exactly when some caller holds it |
| CacheStore.LiveSlots | spvirit-client/src/cache.rs:207-216 | the loop computes the slots in use and those whose entry is of the current generation and within the TTL |
| CacheStore.Store.Fetch | spvirit-client/src/cache.rs:176-218 | fetching a slot in place, with the live set computed from counts, entries and the TTL, is the state machine's arrival |
| CacheStore.Store.ForgetFailed | spvirit-client/src/cache.rs:255-266 | the name goes exactly when only the map and the caller hold its slot, as the state machine's step says |
| CacheStore.Store.Invalidate | spvirit-client/src/cache.rs:268-273 | nothing known about the name before is usable any more, no other slot or caller is touched, and the step keeps the state machine's invariant |
| Encoding.SizeReadsBack | spvirit-codec/src/error.rs:116-144 | an encoded size reads back exactly when it fits in 32 bits, which is where the encoder cuts it |
| Encoding.StringReadsBack | spvirit-codec/src/error.rs:153-177 | an encoded string reads back and the reader stops just past it |
| Encoding.PushSize | spvirit-codec/src/encode_common.rs:12-23 | the size prefix is appended to the buffer |
| Packing.GreedyStaysAhead | spvirit-client/src/search_engine.rs:80-90 | after as many runs, greedy packing has covered at least as much as any packing |
| Packing.GreedyIsOptimal | spvirit-client/src/search_engine.rs:80-90 | no order-preserving packing uses fewer runs |
| Packing.PackNextFit | spvirit-client/src/search_engine.rs:91-107 | the runs partition the input in order, each fits or is a single item, and no such packing has fewer |
| Packing.DatagramsFit | spvirit-client/src/search_engine.rs:444-449 | the size arithmetic equals the encoded length, so a datagram of two or more names is within its limit |
| SearchSafety.TakeKeeps | spvirit-client/src/search_engine.rs:344-381 | adding a request keeps the index, the places of all requests, the schedule and the send budget |
| SearchSafety.ExpireKeeps | spvirit-client/src/search_engine.rs:392-412 | expiry keeps them, and times out only overdue waiters |
| SearchSafety.SendRunsKeeps | spvirit-client/src/search_engine.rs:449-482 | sending the datagrams of a batch keeps the invariant and the send budget |
| SearchSafety.BatchCarriedOnce | spvirit-client/src/search_engine.rs:449-482 | the datagrams of a batch carry every entry of it exactly once more, and no other entry |
| SearchSafety.SendKeeps | spvirit-client/src/search_engine.rs:427-494 | a send keeps the whole invariant |
| SearchSafety.AnswerKeeps | spvirit-client/src/search_engine.rs:534-550 | answering an entry keeps the whole invariant |
| SearchRuns.EngineIsSound | spvirit-client/src/search_engine.rs:344-551 | in every reachable state: index and table are inverse; every request waits in one place, was abandoned, timed out at or after its deadline, or was answered by a positive response echoing its cid and one of the last sixteen datagrams that carried it; sends at most five and scheduled exactly while fewer; at most five datagrams per accepted request |
| SearchRuns.EachEndsOnce | spvirit-client/src/search_engine.rs:392-412 | a request that was answered, timed out or abandoned is never sent anything else |
| SearchRuns.JitterBounds | spvirit-client/src/search_engine.rs:496-501 | a jittered gap is within a quarter of the scheduled one and positive |
| SearchRuns.NextWakeIsLater | spvirit-client/src/search_engine.rs:383-388 | after expiring and sending at an instant, nothing is due at or before it |
| SearchTask.FreeCid | spvirit-client/src/search_engine.rs:363-366 | the wrapping search finds the first free cid and terminates because not all are taken |
| SearchTask.ExpireWaiters | spvirit-client/src/search_engine.rs:395-404 | one pass keeps the waiters still owed an answer and times out the overdue |
| SearchTask.ExpireTable | spvirit-client/src/search_engine.rs:392-412 | one pass over the table gives the surviving entries, index and replies |
| SearchTask.Collect | spvirit-client/src/search_engine.rs:435-442 | the batch is every entry due within the window, each once, oldest first |
| SearchTask.NextWake | spvirit-client/src/search_engine.rs:383-388 | the earliest next send or deadline, if there is any |
| SearchTask.SendAll | spvirit-client/src/search_engine.rs:547-549 | every waiter whose channel is open gets the result, others are untouched |
| SearchTask.Engine.Add | spvirit-client/src/search_engine.rs:344-381 | taking a request is the reference step and keeps the invariant |
| SearchTask.Engine.ExpireAll | spvirit-client/src/search_engine.rs:392-412 | expiry in place is the reference step and keeps the invariant |
| SearchTask.Engine.Send | spvirit-client/src/search_engine.rs:427-494 | nothing happens unless something is due; otherwise the batch goes out in the fewest datagrams and the state is the reference step's |
| SearchTask.Engine.Receive | spvirit-client/src/search_engine.rs:509-551 | handling a datagram is the reference step and keeps the invariant |
| SearchTask.Engine.Turn | spvirit-client/src/search_engine.rs:338-340 | after each turn of the loop the engine has nothing to wake for at or before now |
| ConnPools.ConnPool.Take | spvirit-client/src/cache.rs:661-707 | checkout pops stale connections then the newest fresh one, counts one hit or miss per call and one eviction per connection closed, and keeps no empty stack |
| ConnPools.ConnPool.Give | spvirit-client/src/cache.rs:711-732 | checkin sweeps the stack, then keeps the connection unless the address is full |
| ConnPools.SweepStack | spvirit-client/src/cache.rs:725-727 | the sweep keeps exactly the connections within the idle TTL |
| PooledOps.ListenLeaves | spvirit-client/src/transport.rs:437-462 | a reply read whole leaves nothing half-assembled and loses no byte, and no failed wait reads like a refusal |
| PooledOps.HandshakeIsQuiet | spvirit-client/src/client.rs:83-187 | a validated connection has nothing half-assembled and no request, and is at a frame boundary exactly if the second opening read ended with a message or an error of the reassembler, or held nothing and either took a frame or followed a read that held nothing |
| PooledOps.StalledHandshakeLosesBytes | spvirit-client/src/client.rs:97-117 | a server that stalls after one byte of its first frame gets a validated connection that has lost that byte |
| PooledOps.SidIsTidy | spvirit-client/src/cache.rs:625-639 | a channel that is opened, or refused by the server, leaves the connection quiet |
| PooledOps.OpIsTidy | spvirit-client/src/pva_client.rs:769-838 | whatever the network does at each await, a connection kept after an operation has nothing half-assembled, has lost no byte since its handshake and has no request open unless the frame to free it could not be written; at most one data frame is written and only by a committed PUT, and a retried operation has written none |
| PooledOps.RequestStaysOpenIff | spvirit-client/src/pva_client.rs:797-833 | an operation leaves a kept connection with a request open exactly when it is a PUT whose INIT is accepted, whose encode error or data-reply status reads like a refused INIT and not like a stale sid, and whose request could not be freed |
| PooledOps.MisreadPutLeavesRequest | spvirit-client/src/pva_client.rs:826-833 | such a PUT on any quiet connection: the server refuses the data frame in words that contain a marker |
| PooledOps.MisnamedPutLeavesRequest | spvirit-client/src/pva_client.rs:797-804 | such a PUT on any quiet connection: the value has a key that contains a marker, and no data frame is written |
| PooledCalls.DrawKeeps | spvirit-client/src/cache.rs:410-437 | a draw moves one connection from the pool to its caller and closes only stale ones, or leaves the call to dial; the second attempt never draws |
| PooledCalls.DialKeeps | spvirit-client/src/pva_client.rs:620-628 | a dial, with any steps of others since the draw, gives the call a connection of its own or closes the address's idle ones |
| PooledCalls.ConcludeKeeps | spvirit-client/src/pva_client.rs:631-686 | however an attempt ends, the connection is put in one place and the retry rules hold |
| PooledCalls.PerformKeeps | spvirit-client/src/pva_client.rs:654-686 | the operation step, whether it ends or is dropped at any of its awaits, keeps the whole invariant |
| PooledCalls.PoolIsSafe | spvirit-client/src/cache.rs:661-738 | over every interleaving each connection is idle, held or closed and only one of these, idle stacks are within the cap, and idle connections have nothing half-assembled, have lost no byte since their handshake, and have no open request unless the frame to free it could not be written |
| PooledCalls.RetriesAreSafe | spvirit-client/src/pva_client.rs:604-690 | over every interleaving: at most two tries, the second only after a reused connection failed uncommitted and on one dialled for it; at most one data frame per call; the dead-retry counter counts the second attempts |
| PooledBoundary.FairRunsStayAligned | spvirit-client/src/cache.rs:711-732 | over every interleaving in which no handshake loses bytes and no operation is misread, every idle connection is at a frame boundary with nothing half-assembled and no request open |
| PooledBoundary.PoolIsAlignedIff | spvirit-client/src/client.rs:83-187 | for every dial that succeeds, the connection pooled after the next operation is at a frame boundary exactly if the opening reads ended at one |
| PooledBoundary.PoolHasRequestIff | spvirit-client/src/pva_client.rs:673-684 | for every dial that succeeds and every operation on it, whatever the network does, the pool is left with a connection that has a request open exactly if the operation is misread |
| PooledClient.Client.Connect | spvirit-client/src/cache.rs:410-437 | only the first attempt draws from the pool; every attempt counts one hit or one miss and every dial a miss; the pool, the numbering and the call are those of the steps taken |
| PooledClient.Client.Attempt | spvirit-client/src/pva_client.rs:631-686 | opening the channel and performing the operation are the concurrent model's steps: same pool, error, retry request and dead-retry count |
| PooledClient.Client.Perform | spvirit-client/src/pva_client.rs:654-686 | the branches after an operation leave exactly the pool, error, retry request and dead-retry count of the concurrent model's step |
| PooledClient.Client.Round | spvirit-client/src/pva_client.rs:612-686 | one attempt is a run of the concurrent model's steps with what the network did to it, and asks for another only as the first |
| PooledClient.Client.WithPooledChannel | spvirit-client/src/pva_client.rs:604-690 | the loop returns within two attempts without reaching its end; its steps are a run of the concurrent model, so the call is tried at most twice, the second time on a connection dialled for it after a reused one failed uncommitted, and writes at most one data frame; it counts one dead retry per second attempt and one hit or miss per attempt |
| Pipeline.CreditIsConserved | spvirit-client/src/pva_client.rs:1142-1147 | with an adding server, credit always sums to the window, whatever fails to decode |
| Pipeline.WindowIsKept | spvirit-client/src/pva_client.rs:217-221 | updates under way never exceed the window, with either server |
| Pipeline.SettingConservesIffSpent | spvirit-server/src/monitor.rs:744-774 | one overwriting acknowledgement keeps the credit exactly when the server had none left, otherwise what it had is lost |
| Pipeline.SettingConservesIff | spvirit-server/src/monitor.rs:744-774 | with the registry's overwriting acknowledgement, credit sums to the window in every reachable state exactly when the window granted is at most the client's threshold |
| Pipeline.RegistryConservesIff | spvirit-server/src/handler.rs:45-49 | for this repository's server that is a queue size of one, or of 8192 and up |
| Pipeline.SettingLosesCredit | spvirit-server/src/monitor.rs:760-766 | a run in which two of four credits are lost |
| Pipeline.SmallWindowStalls | spvirit-server/src/handler.rs:2158-2180 | when the acknowledgement threshold exceeds the granted window, a state with no possible step is reachable |
| Pipeline.NeverStallsIff | spvirit-client/src/pva_client.rs:1199-1245 | with either server the drained monitor always has credit exactly when half the queue size is within the server's ceiling |
| Pipeline.RegistryNeverStallsIff | spvirit-server/src/handler.rs:45-49 | for this repository's server that is every queue size up to 8193 |
| Pipeline.AckCounter.Consumed | spvirit-client/src/pva_client.rs:1579-1600 | the counter is the reference accounting, and an ACK body reads back as the credit it returns |
| Pipeline.DataBodyIff | spvirit-client/src/pva_client.rs:66-94 | the fixed offsets accept exactly the application MONITOR messages with the ioid and a zero subcommand, and give their update |
| PutBits.SetBitIs | spvirit-client/src/put_encode.rs:43-50 | setting a bit sets that bit, growing the set, and no other |
| PutBits.FieldsAdvance | spvirit-client/src/put_encode.rs:63-105 | the offset moves by the structure's field count whichever fields are present, and exactly the supplied plain fields' bits are added |
| PutBits.SelectSupplied | spvirit-codec/src/monitor.rs:89-120 | the path table selects the supplied paths from such a bitset, in order |
| PutBits.PutSelectsSupplied | spvirit-client/src/put_encode.rs:7-26 | the bitset read back from a built body selects exactly the supplied plain paths in order, and their values follow in that order |
| PutBits.PutBuiltIff | spvirit-client/src/put_encode.rs:7-41 | a body is built exactly for a non-empty input whose keys are all fields, whose nested values are non-empty objects that fit, and whose plain values can be written |
| PutBits.BodyReadsBack | spvirit-codec/src/monitor.rs:251-268 | the sized bitset reads back with the offset just past it |
| PutBits.CountFields | spvirit-client/src/put_encode.rs:52-61 | the loop counts nested fields too |
| PutBits.FlattenPaths | spvirit-codec/src/monitor.rs:106-120 | the loop appends the depth-first paths |
| PutBits.EncodeStructure | spvirit-client/src/put_encode.rs:63-105 | the loop, stopping at the first error, is the reference encoder |

## Left out

- CALC arithmetic is an arbitrary environment: IEEE rounding, signed zero, transcendental functions, the integer conversions and the RNDM generator are not modelled.
- CALC identifier and symbol spellings, hexadecimal literals and error variants: tokens arrive classified, and only acceptance and the accepted program are modelled.
- CalcLexer.ScanDecimal: covers the decimal branch of the number lexer only.
- CalcUsage.ArgUsage: the two masks are sets of slots rather than 32-bit words.
- Juxtaposed operands that the token loop does not reject (as in `ATAN2(A B)`) are outside the printed-program theorems and inside the accepted-program ones.
- Sockets, task scheduling and clocks: reads are arbitrary chunks, a dropped future is a step, time is a counter.
- Segments.SegmentReassembler.Push: does not model buffer capacities or allocation.
- SlotMaps.SlotStore.Sweep: which slots are live is a parameter here; `CacheStore` computes it from counts, entries and the TTL.
- SlotMaps.SlotStore.Lookup: the live slots are a parameter here too; `CacheStore.Store.Fetch` supplies them.
- Encoding.StringReadsBack: strings are byte sequences; the decoder's policies on invalid UTF-8 are not modelled.
- The resolution cache with no TTL, its counters, and wrap-around of the 64-bit generation.
- SearchTask.FreeCid: requires fewer than 2^32 names pending; with all cids taken the source does not return.
- SearchTask.Engine.Send: what happens to a datagram after it is built (groups, sockets, failed sends) is not modelled.
- The search engine's task start-up, target changes, the one-shot fallback and the wait after all receivers exit.
- PooledOps.OpIsTidy: error texts are tagged cases; the client's texts other than those that quote a status or an encode error are fixed words and numbers without a marker; a DESTROY_REQUEST that was written frees its request and a refused INIT opens none.
- PooledOps.HandshakeIsQuiet: does not require that the second opening read's first frame begins with what the first read left of it, so it covers more than can happen.
- PooledClient.Client.WithPooledChannel: runs one call at a time, from the resolved address on; interleavings are in `PooledCalls`, and the forgetting of resolutions after failures is not modelled.
- Persistent PUT channels, monitors other than their credit, and list operations do not use the pool and are not modelled.
- The registry's connection-side copy of a monitor's credit, which gates nothing, and its start, stop and filter handling.
- PutBits.PutSelectsSupplied: requires fewer than 8 * (2^32 - 1) fields, beyond which the bitset's length no longer fits its prefix.
- The encodings of plain PUT values are an arbitrary partial function; the order of keys, which only decides which error is reported, is not modelled.
- Lenient monitor decoding, formatting, gateways, command-line tools and bindings.
