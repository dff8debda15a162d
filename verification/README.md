# Verified models of the strangeio framework core

This project models five parts of the framework in Dafny and proves what they are for.

* **The event loop** (`EventLoop`, `EventLoopBound`). Producers append messages to a hand-built linked list under a
  tail mutex; the producer that finds the list empty posts a drain task, which walks the list, calls the listeners and
  deletes the nodes, and looks at the tail pointer without the mutex first. The model takes every access to shared
  memory as one step, so that any number of producers and drain tasks interleave freely, and addresses of deleted nodes
  may be handed out again. Messages are delivered exactly once, in the order of the tail mutex, and no deleted node is
  touched.
  Every step of the loop uses up work that an accepted message has brought in, so that every schedule delivers.
* **The rack's sync protocol** (`UnitSync`, `LineProfiles`, `GlobalSync`, `GlobalFields`, `SyncCycles`, `LineTotals`,
  `Activation`, `Requests`, `RackMachine`). One profile travels by reference down an acyclic graph of units and is
  copied on the way back; line syncs, upstream syncs and global syncs share the walk. `UnitSync` holds it as functions,
  `RackMachine` as a class whose fields the methods overwrite, each method proved equal to its function. The lemmas say
  what the walks leave behind: totals over paths and the settings of the last unit that has any, the dispatch unit's
  period and state everywhere, synced lines after every sync, and when one rack iteration restores agreement between
  the lines and the rack.
* **The block cache** (`CacheManager`, `CachePtr`, `PtrCounts`). A first-fit allocator whose handle table holds the run
  lengths in place, and the owning pointer on top of it. The table is a function of the live extents; every pointer
  operation keeps exactly one owner for every extent, and the count of its blocks, exactly when a guard holds that the
  caller can test.
* **The JSON reader and printer** (`JsonValue`, `Utf8`, `JsonGrammar`, `JsonRoundTrip`, `JsonTexts`, `JsonPrinted`,
  `JsonReader`, `JsonWriter`). The cursor with one character of pushback, the recursive-descent parser and the compact
  and pretty printer of picojson. The parser reads exactly the texts that can be written out as trees of JSON syntax, with the
  meaning of the tree; parsing what was printed gives the value back, at any depth and in both modes.
* **The worker pool and the stream buffers** (`WorkerPool`, `Progress`, `Ring`, `Circular`, `NormalisedSizeBuffer`,
  `Sound`, `Streams`). The start of the queue, its dispatcher and its workers as interleaved steps, with what every run
  keeps and when a package can still be given to a worker; the two ring buffers and the interleaving routines as code
  on arrays.

`Wrappers`, `Seqs` and `Sums` hold an option type, facts about sequences and sums over maps. `dafny verify
dfyconfig.toml` checks everything.

## Results where the code does less than its comments or callers expect

* An upstream round does not always end with the rack agreeing with its lines. `Activation.IterationRestoresAgreement`
  gives the exact condition: it fails when some line was on, some line is on now, and the mainlines that were on are
  all walked before the ones that are on now. Then the combine unit switches the rack off and the lines that come on
  find the rack-wide state still active. `Activation.HandOverIsLost` is a concrete case with two mainlines, and
  `Activation.RoundsKeepAgreement` says that any number of rounds keep agreement when none of them does this.
* `cache_ptr::operator=` forgets what its target held, `swap` can hand a block to a pointer without a cache, and
  `reset` and `free_raw` trust their argument. `CachePtr.KeptExactlyWhenSafe` states the guard of each operation, and
  `CachePtr.RuleIsBroken` is a program, on any cache of two or more blocks, after which each of them breaks the rule.
* A pointer's count of blocks, by which `copy_to` copies, can be wrong: `free` keeps it, `reset` takes what its caller
  says (1 by default, also for null), and `swap` hands on 0 when its arguments are evaluated in one of the two orders
  that are allowed. `PtrCounts.CountsKeptExactlyWhen` states the guards.
* A sync cycle sets state, period and drift of a line profile back before it profiles the line, but not jumps and
  latency. `LineTotals.IterationGrows` says what an iteration adds to them: they grow with every resync, and tell how
  often a line has been profiled rather than how long it is.
* A duration sync returns early, and the flags are cleared behind it: a global request that waits beside a duration
  request is forgotten. `SyncCycles.GlobalIterationAgrees` is the case without, `SyncCycles.DurationForgetsGlobal` the
  case with a duration request.
* `free_raw` checks only the bounds of its pointer. `CacheManager.FreeNeedsStart` shows that the table and the total
  stay in order exactly when the pointer lies in the first block of a live extent.
* A package can be left behind although workers wait. The dispatcher waits when the load is zero, without looking at
  what it holds and without a predicate. It can miss the notification of a package that is queued while it goes to sleep
  (`Progress.LeftInQueue`), and it can go to sleep with a package that it has taken but could give to nobody, because
  `try_lock` failed on a worker that was about to wait (`Progress.LeftInHand`; no notification is missed there). Nothing
  goes on until something else is submitted. `Progress.DispatchesExactlyWhen` says in every reachable state whether a
  package can still be given to a worker without a submission: for a dispatcher that sleeps or is about to, exactly when
  a submitter is inside `add_package` or a worker has not gone back to waiting. `Progress.StuckExactlyWhen` says when no
  thread can take a step, and that all is finished then unless a package is queued or in the dispatcher's hand.
* `queue::start` sets `m_running` after it has created the dispatcher's thread. A dispatcher that looks before that ends,
  and never gives anything to a worker, whatever is submitted (`Progress.EndsExactlyWhen`, `Progress.EndedForGood`).
* `supply` returns OVERFLOW only when the write cursor is behind the read cursor, as
  `NormalisedSizeBuffer.RefusedExactlyWhenBehind` states. Otherwise a period without room replaces the oldest samples
  that have not been flushed, exactly as many as there is no room for (`NormalisedSizeBuffer.OldestAreReplaced`);
  `NormalisedSizeBuffer.LosesTheOldest` is a run on a ring of four.
* `push_back` on a full circular buffer puts the newest item where the oldest was without moving the start, so the
  newest item comes out first. `Circular.Circular.PushBack` states both cases.
* The position that `parse` returns behind a number that does not end the text is one past the character after the
  number, because the pushed-back character has been fetched. `JsonReader.ParseText` states the position exactly.

## Model

| member | source | states |
|---|---|---|
| EventLoop.InvRun | framework/events/loop.cpp:43-148 | an invariant over list links, thread positions, message ownership and deliveries holds in every state of every interleaving |
| EventLoop.NoDeadNodeTouched | framework/events/loop.cpp:90-148 | no step of any run reads or deletes a node that is not alive |
| EventLoop.DeliveredInOrder | framework/events/loop.cpp:72-102 | the listener calls made so far are all calls, in registration order, for a prefix of the messages in tail-mutex order, and the first calls for the next one |
| EventLoop.NothingDeliveredTwice | framework/events/loop.cpp:97-102 | no listener is called twice with one message, in any run |
| EventLoop.AcceptedByRun | framework/events/loop.cpp:43-53 | the accepted messages of a run are exactly those handed over with a listener for their type; null and unheard messages are dropped |
| EventLoop.AtRestAllDelivered | framework/events/loop.cpp:43-148 | when no thread is inside the loop, everything accepted has been delivered to all its listeners, the three pointers are null and no node is left allocated |
| EventLoop.NeverStuck | framework/events/loop.cpp:70-147 | in every reachable state with work left, some thread inside the loop can take a step |
| EventLoop.StuckMeansDelivered | framework/events/loop.cpp:43-148 | when no step is left to run, all accepted messages have been delivered to all listeners |
| EventLoopBound.StepsAreBounded | framework/events/loop.cpp:43-148 | in every run, the threads inside the loop take at most 19 steps for each accepted message and one more for each of its listeners |
| EventLoopBound.EveryScheduleDelivers | framework/events/loop.cpp:43-148 | once no more events are added, every schedule of the threads inside the loop ends within that bound, and when it cannot go on, all accepted messages have been delivered to all listeners |
| EventLoop.OneServerPerList | framework/events/loop.cpp:72-87 | a non-empty list is served by exactly one of a producer about to post, one posted task, or one drain task before its reset; an empty list by none |
| EventLoop.TaskPostedForFirst | framework/events/loop.cpp:72-87 | a producer sets out to post the drain task exactly when it turns an empty list into a non-empty one |
| EventLoop.UnlockedTestIsSound | framework/events/loop.cpp:104-141 | when the unlocked test sees another tail than the node, the node's next pointer is already set and leads to a live node |
| EventLoop.DeletedNodeIsUnreachable | framework/events/loop.cpp:120-142 | a node about to be deleted is alive, is neither tail nor tail pointer, no live node links to it, no producer reads or writes it, and no other drain task stands on it or has it as its next node |
| LineProfiles.VisitsFollowPaths | framework/component/unit.cpp:227-234 | a walk without flags makes one visit for every path, to the unit the path leads to |
| LineProfiles.PathsAreComplete | framework/component/unit.cpp:227-234 | the paths the walk takes are all paths of the graph, each once |
| LineProfiles.LineProfileTotals | framework/component/backend.cpp:73-80 | profiling a line adds one jump for every path and the latencies of the units the paths lead to, takes the largest period and the folded drift, the channels, rate and tempo of the last unit visited that sets them and the largest fill, keeps what no unit sets, and changes no unit |
| LineProfiles.DriftScales | framework/component/unit.cpp:259-271 | from a non-zero drift, later drifts inside (-1, 1) scale it by the product of 1 + s * d, s being its sign |
| LineProfiles.DriftClosedForm | framework/component/unit.cpp:259-271 | from zero, the drift of a chain is its first non-zero drift times the product of 1 + s * d over the later ones |
| LineProfiles.ProfileLineSyncs | framework/component/unit.cpp:152-157 | the line walk from one unit sets only that unit's line profile: largest strictly downstream period from zero, flushing if a downstream unit is, else the dispatch's state, and the channels, rate and tempo of the last unit downstream that sets them |
| LineProfiles.CycleLineSyncs | framework/component/unit.cpp:140-178 | a sync cycle from a unit does so for every unit reached from it, and undoes none already synced |
| LineProfiles.CycleSyncs | framework/component/backend.cpp:21-28 | after the backend's sync cycle this holds of every unit reached from any mainline, and nothing but line profiles has changed |
| LineProfiles.FlushingByPaths | framework/component/unit.cpp:254-255 | a unit visited downstream is flushing exactly when some non-empty path leads to a flushing unit |
| LineProfiles.SkipsExactlyWhenFlushing | framework/component/unit.cpp:145-150 | after a sync cycle the AC cycle of a visited unit is left out exactly when some unit strictly downstream of it is flushing, or it is the dispatch and is flushing itself |
| GlobalSync.GlobalWalk | framework/component/unit.cpp:181-196 | a global walk from any unit leaves every unit reached with the dispatch's period and state, and comes back with them |
| GlobalSync.SharedWalk | framework/component/backend.cpp:57-61 | one shared profile walked through all mainlines does so for all of them, and later walks do not undo earlier ones |
| GlobalSync.GlobalSyncAgrees | framework/component/backend.cpp:31-55 | after a global sync the backend and every unit reached from a mainline hold the dispatch's own period and state, whatever the graph, order or starting profile |
| GlobalFields.GlobalSyncFields | framework/component/unit.cpp:181-196 | on any acyclic graph, a global sync leaves in every unit reached the channels, rate and tempo of the last unit, itself or behind it, that sets them, and no smaller fill than theirs; other units stay, as do latency, jumps and drift in all; the backend's profile gathers the visits from all mainlines: jumps, latencies, drift, settings and fill |
| GlobalFields.FirstSyncSizesBlocks | framework/component/rack.cpp:81-86 | the first global sync makes the cache's blocks two of the dispatch's own periods long for every channel, with the channels of the last unit on the way that sets them |
| GlobalSync.CycleKeepsAgreement | framework/component/backend.cpp:21-28 | a sync cycle leaves that agreement alone |
| GlobalSync.WalkIsClean | framework/component/unit.cpp:179-234 | no walk makes a global state flushing or asks for anything but a global sync, with any flags that do not hold global and upstream together; the rack never passes those |
| GlobalSync.IterationNeverFlushing | framework/component/rack.cpp:143-165 | over every rack iteration with any requests on any acyclic graph, neither a unit's nor the backend's global state becomes flushing |
| SyncCycles.WalkKeeps | framework/component/unit.cpp:179-234 | a walk with any flags on any acyclic graph changes only units it visits; no kind, no line profile, nothing of a unit's own profile but its state, and of the requests at most the global one; an upstream walk hands on nothing but a state |
| SyncCycles.CycleProfilesAll | framework/component/unit.cpp:152-178 | the sync cycle over the mainlines profiles the line of every unit once for every path to it, in the order of the walk |
| SyncCycles.SyncSyncsLines | framework/component/backend.cpp:31-71 | a sync with any flags leaves the line profiles of all units reached synced with what the units are then; a duration sync changes nothing else |
| SyncCycles.IterationSyncsLines | framework/component/rack.cpp:143-164 | an iteration with a resync pending, whatever is asked for, leaves all line profiles synced and nothing pending |
| SyncCycles.SkipsAfterIteration | framework/component/unit.cpp:145-150 | after such an iteration a unit is left out of the AC cycles exactly when a unit strictly downstream is flushing then, or it is the dispatch and flushing |
| SyncCycles.GlobalIterationAgrees | framework/component/rack.cpp:143-165 | an iteration with a global request, alone or behind an upstream one, ends with the backend and every unit reached agreeing with the dispatch |
| SyncCycles.DurationForgetsGlobal | framework/component/backend.cpp:36-38 | with a duration request beside it, nothing is pending afterwards either, and there is agreement exactly if there was before, or behind the upstream part |
| SyncCycles.TriggersAddUp | framework/component/rack.cpp:65-69 | after any requests in any order, what waits is what waited and what any of them asked for, bit by bit |
| LineTotals.CycleGrows | framework/component/unit.cpp:152-157 | a sync cycle adds the units behind a unit to the jumps and latency of its line profile once for every path to it, and keeps the settings that none of them has |
| LineTotals.IterationGrows | framework/component/rack.cpp:143-165 | an iteration adds that as many times as it makes sync cycles: one for the closing cycle, one more for an upstream and for a downstream request, none without a resync |
| Activation.ChainWalk | framework/component/unit.cpp:198-213 | an upstream walk through a chain of step units gives each unit behind the first the walk's state and arrives at the chain's end with the profile unchanged |
| Activation.CombineReports | framework/spec/combine.cpp:11-48 | what a line's report does to the combine's inputs, the dispatch's state and the waiting global sync, as one transition of a small machine |
| Activation.MainlineReports | framework/spec/mainline.cpp:13-29 | the walk from a mainline through its chain makes exactly that report, in its own input |
| Activation.RoundReports | framework/component/backend.cpp:44-51 | an upstream round makes the reports of all mainlines in order and leaves global profiles alone |
| Activation.InputsAfter | framework/spec/combine.cpp:17-32 | after the first n reports the inputs of those lines are up to date and the others unchanged |
| Activation.OffRackRound | framework/spec/combine.cpp:17-28 | with the rack off, a round changes the rack's state and asks for a global sync exactly when some line is on, and triggers one cycle for each line that is on |
| Activation.OnRackRound | framework/spec/combine.cpp:29-48 | with the rack on, exactly when some report of an off line leaves all inputs off |
| Activation.RoundEnds | framework/spec/dispatch.cpp:14-39 | the state in which a whole round leaves the dispatch and the combine, and the cycles it triggers, from the line states before and after |
| Activation.IterationEnds | framework/component/rack.cpp:143-165 | one iteration brings the global state everywhere to that state, the requested global sync included, and leaves no flag set, no unit with a request and no resync pending; the cycles waiting are one less, and one more for every line that is on if the rack was off |
| Activation.IterationCycles | framework/spec/dispatch.cpp:26-39 | from agreement, a rack that comes on has no fewer cycles waiting after the iteration than before: it goes on cycling |
| Activation.IterationRestoresAgreement | framework/component/rack.cpp:143-165 | from agreement, after any switching of lines, one iteration restores agreement if and only if the lines that were on are not all walked before the ones now on (or none was, or none is) |
| Activation.SameDirectionRestores | framework/component/rack.cpp:143-165 | any set of same-direction activations or deactivations restores agreement within one iteration: input i on iff mainline i is, rack active iff some mainline is |
| Activation.RoundsKeepAgreement | framework/component/rack.cpp:143-165 | after any number of rounds of switching and iterating, none of which hands over as above, the rack agrees with its lines; rounds without a change included |
| Activation.OneWayRoundsKeepAgreement | framework/component/rack.cpp:143-165 | so it does after any rounds each of which only switches lines on or only switches lines off |
| Activation.HandOverIsLost | framework/spec/combine.cpp:34-46 | a two-line rack that agrees, then hands over from line 0 to line 1 in one round, ends up disagreeing |
| Requests.RequestWalk | framework/component/unit.cpp:198-207 | an upstream walk into a unit with a request of its own forgets the request, hands down the unit's own profile, which stays as it is, and gives the caller's back |
| Requests.ChainHandsDown | framework/component/unit.cpp:198-213 | along a chain of step units with and without requests each takes the state of the last one before it that asked, or that of the walk; the chain's end gets the last |
| Requests.TriggeredHandsDown | framework/component/unit.cpp:198-213 | the state of a step unit that triggers an upstream sync is what reaches the end of its chain, unless a later unit has asked too; the request is forgotten |
| RackMachine.Rack.SyncLine | framework/component/unit.cpp:179-225 | the walk with its per-kind overrides changes the rack's fields as the function does, on every acyclic graph |
| RackMachine.Rack.UnitSyncLine | framework/component/unit.cpp:179-225 | the base class's four cases change the fields and the profile as the function does |
| RackMachine.Rack.ContinueSync | framework/component/unit.cpp:227-234 | the loop over outputs is the recursion over them |
| RackMachine.Rack.CombineUpstream | framework/spec/combine.cpp:11-48 | the combine's upstream case changes inputs and state as the function does |
| RackMachine.Rack.AllInactiveLoop | framework/spec/combine.cpp:75-81 | true exactly when no input is on |
| RackMachine.Rack.CycleLine | framework/component/unit.cpp:152-178 | the sync cycle of a unit and its outputs is the function's |
| RackMachine.Rack.Sync | framework/component/backend.cpp:31-61 | the backend's sync, with a shared profile or with a copy for each mainline, is the function's |
| RackMachine.Rack.TriggerSync | framework/component/rack.cpp:65-69 | requests accumulate and the rack is marked for a resync |
| RackMachine.Rack.Iterate | framework/component/rack.cpp:143-165 | the loop body of the rack thread is the function's: upstream first, then the flags that are left |
| CacheManager.FreeCountIsExact | framework/memory/cache_manager.cpp:46-105 | a free slot's count is the exact length of the maximal free run that starts there |
| CacheManager.UsedCountIsRest | framework/memory/cache_manager.cpp:54-64 | a used slot's count is the remaining length of its own extent |
| CacheManager.ExtentOf | framework/memory/cache_manager.cpp:46-72 | every used slot lies in a live extent |
| CacheManager.ExtentsDisjoint | framework/memory/cache_manager.cpp:46-72 | live extents are inside the table and do not overlap |
| CacheManager.UsedIsLive | framework/memory/cache_manager.cpp:70-101 | the used slots are the lengths of the live extents added up |
| CacheManager.TableFromExtents | framework/memory/cache_manager.cpp:46-105 | the handle table is a function of the live extents alone |
| CacheManager.TakenLive | framework/memory/cache_manager.cpp:50-66 | taking blocks where first fit finds them adds that one extent and leaves the others |
| CacheManager.FreedOk | framework/memory/cache_manager.cpp:74-100 | freeing a live extent joins the free blocks on both sides into one properly counted run |
| CacheManager.FreedLive | framework/memory/cache_manager.cpp:74-100 | freeing a live extent removes it and no other |
| CacheManager.FreeNeedsStart | framework/memory/cache_manager.cpp:74-101 | freeing a slot keeps the table and the total in order if and only if the slot starts a live extent |
| CacheManager.InBoundsExactly | framework/memory/cache_manager.cpp:74-76 | a pointer is looked at exactly when it lies in a block but the last, or is the first sample of the last |
| CacheManager.FreesCommute | framework/memory/cache_manager.cpp:74-105 | frees of two extents give the same table in either order |
| CacheManager.FreeUndoesAlloc | framework/memory/cache_manager.cpp:46-105 | allocating and freeing that block restores the table exactly |
| CacheManager.ReachableOk | framework/memory/cache_manager.cpp:46-141 | in every state reached by allocations and frees of live extents the counts are exact and the total is the number of used slots |
| CacheManager.HistoryDoesNotMatter | framework/memory/cache_manager.cpp:46-141 | two histories that leave the same extents live leave equal tables and totals |
| CacheManager.AllFreedIsBuilt | framework/memory/cache_manager.cpp:119-141 | once everything is freed the table is the one `build_cache` made |
| CacheManager.Fit | framework/memory/cache_manager.cpp:50-66 | first fit: the lowest start of a long enough free run, or none exists |
| CacheManager.Manager.BuildCache | framework/memory/cache_manager.cpp:119-141 | a second build changes nothing; the first makes one free run of all blocks |
| CacheManager.Manager.Allocate | framework/memory/cache_manager.cpp:46-72 | succeeds exactly when a contiguous run of that many free slots exists, returns the lowest, marks just those slots; a drained cache leaves table and total unchanged |
| CacheManager.Manager.AllocRaw | framework/memory/cache_manager.cpp:36-41 | null without a cache, cache_drain without a fit, otherwise the lowest fitting block |
| CacheManager.Manager.FreeRaw | framework/memory/cache_manager.cpp:74-105 | in a built cache, pointers outside it and null change nothing; any other frees its slot, and the cache stays in order exactly when that slot starts a live extent |
| CacheManager.Manager.LinkUp | framework/memory/cache_manager.cpp:96-100 | the free slots before the freed one count the whole new run |
| CachePtr.KeptExactlyWhenSafe | framework/memory/cache_ptr.cpp:42-167 | each operation keeps exactly one owner for every live extent, and nothing else held, if and only if its guard holds |
| CachePtr.AssignLeaks | framework/memory/cache_ptr.cpp:115-131 | a move assignment, also to itself, leaves the extent its target held without any owner |
| CachePtr.SwapStrands | framework/memory/cache_ptr.cpp:99-105 | a swap that hands a block to a pointer without a cache breaks ownership |
| CachePtr.ResetBreaks | framework/memory/cache_ptr.cpp:90-97 | a reset to anything but null or a released pointer of a pointer that knows the cache breaks ownership |
| CachePtr.RuleIsBroken | framework/memory/cache_ptr.cpp:42-131 | on every cache of two or more blocks there is a guarded program after which each of the unguarded assignments, swaps, resets and raw frees breaks the rule |
| CachePtr.OneOwnerThroughout | framework/memory/cache_ptr.cpp:42-167 | throughout every guarded program each live extent has one owner, and each extent has been returned as often as taken except the live ones, which were taken once more |
| CachePtr.NothingLost | framework/memory/cache_ptr.cpp:58-68 | a guarded program that ends its pointers and frees what they released leaves the cache as built and has returned all it took |
| PtrCounts.CountsKeptExactlyWhen | framework/memory/cache_ptr.cpp:42-167 | an operation that keeps one owner for every extent keeps every pointer's count the length of its extent, and 0 without one, if and only if a second guard holds |
| PtrCounts.CountedThroughout | framework/memory/cache_ptr.cpp:42-167 | throughout every program that meets both guards all counts are right |
| PtrCounts.CopiesOwnExtent | framework/memory/cache_ptr.cpp:143-147 | with right counts, `copy_to` copies exactly the samples of the pointer's own extent, and no sample of another pointer's |
| CachePtr.ReturnedEnds | framework/memory/cache_manager.cpp:74-105 | giving back a live extent's pointer ends that extent and no other |
| CachePtr.ReturnedNeedsExtent | framework/memory/cache_manager.cpp:76-81 | a pointer into the cache that leaves it in order ends the extent of its block |
| CachePtr.CachePtr.MoveFrom | framework/memory/cache_ptr.cpp:42-56 | the new pointer is what the other was, and the other keeps only its cache |
| CachePtr.CachePtr.Release | framework/memory/cache_ptr.cpp:79-84 | hands the block out and forgets it |
| CachePtr.CachePtr.Reset | framework/memory/cache_ptr.cpp:90-97 | gives the old block back to the cache and holds the new one |
| CachePtr.CachePtr.Swap | framework/memory/cache_ptr.cpp:99-105 | the blocks change places, also with itself; the other's count depends on the order of the two arguments |
| CachePtr.CachePtr.Assign | framework/memory/cache_ptr.cpp:115-131 | takes over the other's cache, block and count, and empties the other |
| CachePtr.CachePtr.Free | framework/memory/cache_ptr.cpp:154-167 | gives the block back and keeps the count; without a cache nothing happens |
| CachePtr.CachePtr.Destroy | framework/memory/cache_ptr.cpp:58-68 | the destructor gives the block back when there is one and a cache for it |
| CachePtr.CacheAlloc | framework/memory/cptr_utility.cpp:30-42 | an empty pointer without a cache, an exception when drained, otherwise a pointer owning the lowest fit |
| JsonValue.InsertSorted | framework/include/framework/picojson/picojson.h:862-866 | inserting into an object keeps its members in map order |
| JsonValue.FindInserted | framework/include/framework/picojson/picojson.h:862-866 | an inserted member replaces the one with its key and no other |
| JsonValue.LessIsLexicographic | framework/include/framework/picojson/picojson.h:112 | keys are ordered by the first byte in which they differ, a proper prefix first |
| JsonValue.EqualIsEquality | framework/include/framework/picojson/picojson.h:959-976 | `operator ==` is equality of values at any depth; numbers that are no plain integers below 2^53 in magnitude are compared by their text, where the source compares doubles |
| Utf8.EncodingDecodes | framework/include/framework/picojson/picojson.h:629-644 | the bytes written for a scalar value decode to it under section 3 of RFC 3629, whatever follows |
| Utf8.DecodingEncodes | framework/include/framework/picojson/picojson.h:629-644 | every well-formed UTF-8 sequence is the encoding of what it decodes to, so the encodings are exactly these |
| Utf8.EncodingsDiffer | framework/include/framework/picojson/picojson.h:629-644 | distinct scalar values give distinct bytes, neither a prefix of the other |
| Utf8.PairOf | framework/include/framework/picojson/picojson.h:618-627 | each code point from 0x10000 to 0x10FFFF has exactly one surrogate pair |
| Utf8.BitsAreSums | framework/include/framework/picojson/picojson.h:629-644 | the shifts and masks of the source equal the quotients and sums used in the model, on 32-bit words |
| JsonGrammar.CodepointIsScalar | framework/include/framework/picojson/picojson.h:607-628 | every accepted `\u` escape or surrogate pair denotes a Unicode scalar value |
| JsonRoundTrip.HexBothCases | framework/include/framework/picojson/picojson.h:592-601 | hexadecimal digits are read in both cases, and nothing else is |
| JsonGrammar.StrtodSplits | framework/include/framework/picojson/picojson.h:787-792 | a number text that is accepted consists of a sign, digits, a fraction and an exponent, each optional as `strtod` has it |
| JsonGrammar.StrtodReadsDecimals | framework/include/framework/picojson/picojson.h:787-792 | every text made of such parts is accepted |
| JsonRoundTrip.EveryScalarHasEscape | framework/include/framework/picojson/picojson.h:607-628 | every scalar value has an escape that is accepted and denotes it |
| JsonRoundTrip.StringReads | framework/include/framework/picojson/picojson.h:406-432 | every printed byte string reads back |
| JsonRoundTrip.IntTextReads | framework/include/framework/picojson/picojson.h:374-389 | the decimal text of every integer below 2^53 in magnitude reads back |
| JsonRoundTrip.TextReads | framework/include/framework/picojson/picojson.h:449-516 | the text of a value at any indent, in front of anything that does not go on with a number, parses to the value and leaves the rest |
| JsonRoundTrip.RoundTrip | framework/include/framework/picojson/picojson.h:434-440 | parsing the serialised text gives an equal value, compact and pretty-printed, at any depth |
| JsonRoundTrip.TextsDiffer | framework/include/framework/picojson/picojson.h:434-440 | different values never print the same text, also when one is printed compact and the other pretty |
| JsonRoundTrip.ParsedIsSound | framework/include/framework/picojson/picojson.h:703-722 | parsed objects are in map order at any depth, however their members were written, also with repeated keys and whatever numbers the text holds |
| JsonRoundTrip.ReprintedIsSame | framework/include/framework/picojson/picojson.h:434-440 | what was parsed from any text prints and parses again without change when all its numbers are plain integers below 2^53 in magnitude |
| JsonGrammar.ParseValue | framework/include/framework/picojson/picojson.h:745-798 | a value that is found takes at least one character |
| JsonTexts.BlanksAreSkipped | framework/include/framework/picojson/picojson.h:556-572 | blanks, tabs and both line ends, and nothing else, are skipped in front of a value and of an expected character |
| JsonTexts.TreeReads | framework/include/framework/picojson/picojson.h:686-798 | every tree of JSON syntax, with any blanks around items, keys, colons, commas and brackets and any way to write a character, is read and means what it says, in front of anything that does not go on with a number |
| JsonTexts.TreeOf | framework/include/framework/picojson/picojson.h:686-798 | whatever is read is the text of some blanks and such a tree |
| JsonTexts.ParsesExactly | framework/include/framework/picojson/picojson.h:745-798 | the parser finds a value and stops in front of a rest if and only if the text is some blanks, a tree that means the value, and that rest |
| JsonTexts.OneMeaning | framework/include/framework/picojson/picojson.h:745-798 | no text is that of two trees that mean different values or end in different places |
| JsonTexts.PiecesRead | framework/include/framework/picojson/picojson.h:648-684 | characters as they are, short escapes, hexadecimal digits in both cases and surrogate pairs are read to the bytes they stand for |
| JsonTexts.NumberValueIs | framework/include/framework/picojson/picojson.h:764-794 | a number means the value of its digits from the front when it is a plain integer of magnitude below 2^53, and otherwise is kept by its text |
| JsonPrinted.PrintedIsClean | framework/include/framework/picojson/picojson.h:406-516 | printed text holds no raw control character and no slash without a backslash, and in compact mode no line break |
| JsonPrinted.PrintedIsLaidOut | framework/include/framework/picojson/picojson.h:434-516 | printed text is that of a tree that means the value, in which every item, member and closing bracket starts a line of its own, two blanks a level further in, one blank follows a colon, and nothing else is blank; in compact mode nothing is |
| JsonPrinted.EscapesAre | framework/include/framework/picojson/picojson.h:406-432 | a character is printed as its short escape if there is one, other control characters in four digits, all others as they are |
| JsonReader.Input.GetC | framework/include/framework/picojson/picojson.h:532-547 | reads the next character, a pushed-back one first; the line stays 1 plus the newlines strictly before the last fetched character |
| JsonReader.Input.UngetC | framework/include/framework/picojson/picojson.h:548-553 | puts the last character back in front; at the end of the text nothing happens |
| JsonReader.Input.SkipWs | framework/include/framework/picojson/picojson.h:556-564 | ends on every input and leaves the first character that is no blank to be read |
| JsonReader.Input.Expect | framework/include/framework/picojson/picojson.h:565-572 | consumes blanks and the character, or only the blanks |
| JsonReader.Input.Match | framework/include/framework/picojson/picojson.h:573-583 | succeeds exactly on the pattern and then has consumed just that |
| JsonReader.ParseQuadhex | framework/include/framework/picojson/picojson.h:586-605 | reads exactly four hexadecimal digits, or fails |
| JsonReader.PushUtf8 | framework/include/framework/picojson/picojson.h:629-645 | appends the UTF-8 encoding of the code point |
| JsonReader.ParseCodepoint | framework/include/framework/picojson/picojson.h:607-646 | appends the bytes of the scalar value that an escape or pair denotes, or fails |
| JsonReader.ParseString | framework/include/framework/picojson/picojson.h:648-684 | the loop reads what the grammar of strings says, and stops behind the closing quote |
| JsonReader.ParseNumber | framework/include/framework/picojson/picojson.h:724-743 | collects the longest run of number characters and pushes back the one behind it |
| JsonReader.ParseArray | framework/include/framework/picojson/picojson.h:686-701 | the array loop accepts what the grammar says, on every input |
| JsonReader.ParseObject | framework/include/framework/picojson/picojson.h:703-722 | the object loop accepts what the grammar says, a repeated key replacing the earlier member |
| JsonReader.Parse | framework/include/framework/picojson/picojson.h:745-798 | on every input the parser ends, never pushes back twice, agrees with the grammar, keeps the line number exact, and leaves a character pushed back only behind a number |
| JsonReader.ParseText | framework/include/framework/picojson/picojson.h:910-931 | the value, the exact position returned, and a line that is 1 plus the newlines strictly before the last character fetched, on success and on error |
| JsonWriter.SerializeStr | framework/include/framework/picojson/picojson.h:406-432 | appends the quoted and escaped text of a string |
| JsonWriter.Indent | framework/include/framework/picojson/picojson.h:442-447 | appends a newline and two blanks for each level |
| JsonWriter.Serialize | framework/include/framework/picojson/picojson.h:449-516 | appends the text of the value, and a newline behind the outermost value when pretty-printing |
| JsonWriter.ReadBack | framework/include/framework/picojson/picojson.h:434-516 | printing a value and reading the text gives the value back, and the position returned is behind the value: at the end of the text, or in front of the last newline unless it was fetched behind a number |
| WorkerPool.InvThroughout | framework/threads/queue.cpp:44-119 | in every run of the starting thread, submitters, dispatcher and workers: workers are started one by one and the dispatcher when all run, queue, load and mutexes agree, and each package is in one place |
| WorkerPool.InvKept | framework/threads/queue.cpp:44-119 | every step of every thread keeps that invariant |
| WorkerPool.OnePlace | framework/threads/queue.cpp:80-119 | each submitted package is in exactly one of the pump, the dispatcher's hand, the slot of one worker, or finished |
| WorkerPool.DispatchedInOrder | framework/threads/queue.cpp:95-105 | packages are given to workers in the order they were queued, each once |
| WorkerPool.LoadIsExact | framework/threads/pump.cpp:25-44 | the load equals the length of the queue whenever the pump's mutex is free |
| WorkerPool.NeverOverwritten | framework/threads/worker.cpp:68-94 | the dispatcher puts a package only where the flag is clear, and always has one to put |
| WorkerPool.RunsItsOwn | framework/threads/worker.cpp:54-55 | a worker that runs has its own package, which has not been run before |
| WorkerPool.NothingRunTwice | framework/threads/worker.cpp:47-57 | no package is run twice |
| WorkerPool.WaitingIsNotified | framework/threads/queue.cpp:112-114 | a worker that waits with a package is about to be notified |
| WorkerPool.AtRestAllFinished | framework/threads/queue.cpp:80-119 | with nothing queued, held or in a slot, everything submitted has been run and finished exactly once |
| Progress.DispatchesExactlyWhen | framework/threads/queue.cpp:80-119 | in every reachable state, some steps without a submission give a worker another package if and only if there are workers, a package is queued, held or being queued, and the dispatcher comes to look: it has not ended, and if it sleeps or finds nothing, somebody is still to notify it |
| Progress.StuckExactlyWhen | framework/threads/queue.cpp:80-119 | only a submission is possible exactly when the start is over, the dispatcher sleeps or has ended, no submitter is at work and all workers wait; then all that was dispatched is finished, and all that was submitted exactly when nothing is queued or held |
| Progress.EndsExactlyWhen | framework/threads/queue.cpp:44-50 | the dispatcher can still end exactly until the queue is marked as running |
| Progress.EndedForGood | framework/threads/queue.cpp:80-108 | a dispatcher that has ended has given nothing to a worker and never will, whatever is submitted |
| Progress.LeftInQueue | framework/threads/queue.cpp:87-88 | a run of one submitter and one worker that is stuck with a package queued |
| Progress.LeftInHand | framework/threads/queue.cpp:85-107 | a run in which no notification is missed and that is stuck with the package in the dispatcher's hand |
| Ring.Append | framework/include/framework/buffer/circular.hpp:231-236 | writing behind a window that does not fill the ring appends to it |
| Ring.Advance | framework/include/framework/buffer/circular.hpp:238-243 | moving the start takes the first element out of the window |
| Ring.LapIsMod | framework/include/framework/buffer/circular.hpp:231-243 | the laps by which the model moves cursors are remainders by the capacity |
| Circular.Circular.PushBack | framework/include/framework/buffer/circular.hpp:96-98 | with room the item goes behind the others and the end stays (start + size) modulo the capacity; when full it takes the place of the oldest |
| Circular.Circular.PushMany | framework/include/framework/buffer/circular.hpp:117-121 | the ring is written from the end on, going round for any count, and the size stops at the capacity; as long as they fit, the items go behind the others in order |
| Circular.Circular.PopMany | framework/include/framework/buffer/circular.hpp:161-167 | from an empty buffer nothing; else any count is read from the start on, going round, and the size wraps below zero; up to the size, the oldest items come out in order |
| Circular.Circular.PopFront | framework/include/framework/buffer/circular.hpp:148-151 | the oldest item is dropped; from an empty buffer nothing |
| NormalisedSizeBuffer.RefusedExactlyWhenBehind | framework/staging/buffer/NormalisedSizeBuffer.cpp:51-52 | the overflow test finds that there is no room exactly when the write cursor is behind the read cursor |
| NormalisedSizeBuffer.Supplied | framework/staging/buffer/NormalisedSizeBuffer.cpp:57-67 | a period copied in, in one piece or two, goes behind what is waiting when there is room |
| NormalisedSizeBuffer.OldestAreReplaced | framework/staging/buffer/NormalisedSizeBuffer.cpp:50-73 | a period that is not refused although there is no room replaces the oldest samples by its last ones, exactly as many as there is no room for, and leaves the others |
| NormalisedSizeBuffer.LosesTheOldest | framework/staging/buffer/NormalisedSizeBuffer.cpp:50-105 | a run on a new ring of four: three samples, two more that are not refused, and the period flushed starts with the last sample instead of the first |
| NormalisedSizeBuffer.Normaliser.Supply | framework/staging/buffer/NormalisedSizeBuffer.cpp:50-73 | OVERFLOW exactly when the test refuses, and then nothing changes; otherwise the ring, the cursor, the load and the state are what the two copies make them, DISPATCH exactly from one period on; with room it is never refused and the period goes behind what is waiting |
| NormalisedSizeBuffer.Normaliser.Flush | framework/staging/buffer/NormalisedSizeBuffer.cpp:84-105 | the oldest period comes out when one is waiting, otherwise nothing changes |
| Sound.ChannelsOfInterleaved | framework/routine/sound.cpp:9-46 | deinterleaving undoes interleaving |
| Sound.InterleavedChannels | framework/routine/sound.cpp:9-46 | interleaving undoes deinterleaving |
| Sound.InterleavedAppend | framework/routine/sound.cpp:32-46 | blocks of frames interleave one behind the other |
| Sound.Interleave2 | framework/routine/sound.cpp:32-46 | writes the frames of the two channels in turn and nothing behind them; null pointers throw |
| Sound.Deinterleave2 | framework/routine/sound.cpp:9-22 | writes the left samples to the front and the right ones behind them |
| Streams.Transmit | framework/include/framework/buffer/circular.hpp:96-167 | for any sizes of blocks in and out, both channels come out as they went in, in order, and the rest is still in the buffer |
| Streams.Normalise | framework/staging/buffer/NormalisedSizeBuffer.cpp:50-105 | over every run with room, flushed periods and what is left in the ring are what was supplied, in order, and no supply is refused |

## Left out

- Event loop and worker pool: their threads interleave, so they are modelled as steps on a state and not as classes with methods.
- Event loop: memory is sequentially consistent, listeners do not change while events are in flight, and the counters of the development build are not modelled. There is no proof that the scheduler runs a step that can run; how many steps it takes is bounded.
- Sync protocol: `resync` of a unit is the default that does nothing, drift is a real number, periods and channels are unbounded integers, and warm-up and AC cycles and the timing of a duration sync are not modelled; of the building of the cache, only the size of its blocks is. An upstream report to an input the combine unit does not have is undefined in the source and ignored.
- Activation.IterationRestoresAgreement: one combine unit, mainlines that are on or off, and chains of plain step units without upstream requests of their own (for walks along chains with requests see `Requests`); nested combines and flushing mainlines are not covered.
- Rack: cycles that throw, the waits of the rack thread, and other threads that write the request flags at the same time.
- `register_metric`: the assignments through it are modelled for the line state only.
- CacheManager.Manager.FreeRaw: the slot behind the last one, which framework/memory/cache_manager.cpp:85 reads when the freed run ends the table, does not exist; the model does not read it. Before the cache is built, line 76 compares with `m_bound`, which the constructor in lines 5-14 does not set, so that case is excluded; so are blocks of no samples, by which line 80 would divide.
- CacheManager.Manager.BuildCache: a cache without blocks has no last handle and is excluded.
- Cache: concurrent callers, tracking ids and owners, and the samples themselves; of `copy_to` only the range it copies.
- JsonValue.EqualIsEquality: two texts of one double, such as 1e1 and 10.0, are different values here, because the rounding of `strtod` is not modelled.
- JSON numbers: a number that is no plain integer below 2^53 in magnitude is kept by its text and is not printed; whether `strtod` accepts it is modelled, its value and an overflowing exponent are not, and minus zero is zero. The 64-bit integer option and other locales' decimal points are not modelled.
- JSON: the text of error messages, and the contexts other than the default one.
- JsonReader.ParseText: on a syntax error the position is only known to be behind a newline or at the end of the text.
- Worker pool: a queue is started once and nobody stops it, waits do not wake without a notification, memory is sequentially consistent, and a submitted package is new. What is proved about progress says what some schedule can do; there is no proof that the scheduler runs it.
- Circular: `reserve`, `at`, the `move` operations, a buffer of capacity zero or of more than 2^32 items, and arrays shorter than the count they are passed with.
- NormalisedSizeBuffer.Normaliser.Supply: a normal size of zero, a period longer than its array, and one whose second copy would leave the ring are excluded.
- ALSA and MIDI drivers, LED handling, dynamic loading of extensions and LV2 hosting, telemetry and thread priorities: they are calls into foreign libraries or the operating system, whose code is not part of this model.
- `delay`, `registry`, `linkable`: a copy to the end of one array and a reset of its length, an append to one list, and two port lists with a link set and cleared; their contracts would repeat their bodies.
- `assembler`, `document`: they copy the members of a parsed description into a record, and call constructors of the rack with them, one by one; nothing is computed.
- The Python scripts generate and build new units and read traces of the cache; they are no part of the running framework.
