# A verified model of localsoftware

localsoftware is an io_uring web server. This project models four of its parts in Dafny and proves
what they are for.

**The block allocator** (`Segments`, `Heaps`, `HeapLaws`, `AllocatorWrapper`). Arenas of 64 blocks
of 16 KiB carry an in-place segment table of heads with a length, a back link, an occupied bit and
an interior bit. `AllocatorWrapper` is the class, with the scan, the split and the two merges
working on arrays; `Heaps` is the same allocator as a value; `Segments` and `HeapLaws` prove its
laws. A table is described by its heads only, because cells inside a segment keep stale values. The
invariant says that segments of length at least 1 tile the arena, that every back link names the
segment before, and that no two free segments are neighbours. The last part is what the source
relies on in its remark that the block after a split is occupied. From it follow: the scan is
complete (a new arena is mapped exactly when no arena has enough consecutive free blocks); the
segmentation is determined by the allocations, so returns commute and `bfree` undoes `bmalloc`;
allocations are pairwise disjoint over every run, each inside a region that `mmap` returned for an
arena or for that request; and the number of arenas is bounded by max(3, small allocations). All this holds while every request is for at least one block, and `MallocOkIff`
says that it must: whatever the heap, a request for none either breaks the table of the arena that
serves it or hands out a new arena that nothing records.

**The event dispatcher** (`Ids`, `Events`, `Dispatch`, `Lifetimes`, `TaskIds`, `DispatchLaws`,
`DispatchRuns`, `FlushLaws`, `CallTargets`, `Handlers`, `QueueOrder`, `CallOrder`, `Cascades`,
`Survivors`, `Homes`, `Roots`, `Origins`, `ThreadData`). One queue of messages over a table of objects and a table of procedures; handlers
are arbitrary lists of the commands i (construct), c (call) and d (delete). `Dispatch` gives each
message's effect as a function of the whole state, `ThreadData` holds the classes that do it in
place and are proved to do exactly that, and the other modules prove what every message keeps and
what follows for every run: no call or deletion ever meets an object that is not constructed or
already deleted, the "Object was not initialized" exception is unreachable, every object has one
live parent or one deletion queued, a deletion cascade ends and leaves no orphan while handlers
neither construct nor call, what it leaves when they issue no command is known exactly, a recorded
procedure belongs to one living object, so that a completion is dropped just when its caller is
gone or was a constructor and is otherwise seen under the local id that `c` returned, a call goes
to the object that its slot named unless the same handler deleted it, and no id is drawn twice
under any interleaving of the drawers. Three modules say that the steps do what they are for.
`Handlers` ties a handler's commands to what joins the queue and to the children its object is left
with: one constructor for each i, one deletion for each child that a d met, and behind them what
the caller is told. `QueueOrder` shows that messages are handled in the order they came in, so that
what the kernel completes reaches `on_yield` as it is. `Roots` shows that no queued call is lost
while its object lives, and that a root is constructed, called and never deleted.

**The replay of the usage log** (`LogText`, `LogFormat`, `LogRecords`, `LogLines`, `Bytes`,
`Streams`, `Frames`, `WebsocketSocket`, `ReadWriteBytes`, `MonitoringServer`, `MonitoringRuns`,
`MonitoringCalls`, `MonitoringPage`, `Replay`). The line printer and the seven-field scanner, which
`LogFormat` compares with the grammar of the format string, packed little-endian records, chunks of
15, WebSocket frames against section 5.2 of RFC 6455, writes that complete in part, the server's
stages, and the page that decodes the messages. `MonitoringRuns` follows the server over every run
of completions, in any order: each completion brings the next history frame, then the marker, and
from then on every second one a live frame. `MonitoringCalls` keeps account of which call each id
is: the calls follow one another as the stages of a connection do, with one timer for each live
frame, and a request is answered by its method and fields. `Replay.EndToEnd` joins the parts: whatever entries
were logged, however the kernel splits the writes, once one call more than there are chunks has
completed the page shows exactly those entries and is live with the live records. Two limits of the
code are stated exactly: a frame is read back exactly when its payload is shorter than 2^32 bytes,
and a finished transfer reports its length exactly when that fits in an int. `Base64` is the
handshake's encoder of section 4 of RFC 4648 with a strict decoder as its inverse and the RFC's own
test vectors.

**Visit statistics** (`VisitStats`). The binned index and the log of accesses it summarises. They
agree for every clock, also one that steps back, and the count of a window of seconds is exact if
and only if its start is the start of a bin and `end` fits in an int, or the window is over before
1970.

The classes are `AllocatorWrapper`, `EventObject`, `ThreadData`, `LogFile`, `WebsocketSocket`,
`ReadWriteBytes`, `BandwidthMonitoringServer`, `MonitoringPage` and `VisitStats`; their methods are
proved against functions of the old state, and the laws are proved about those functions.

What the model assumes of its surroundings:

- `mmap` returns any region disjoint from everything mapped, and `bfree` only gets addresses that
  are allocated. The runs of `HeapLaws.EveryRun` ask for at least one block each time, which
  `MallocOkIff` shows to be exactly what they need.
- A handler calls only slots that exist and deletes only objects that the dispatcher has named;
  root procedures do not complete; the kernel's completions are io_uring results for any procedure,
  except in `Homes`, `Roots` and `Origins`, where they are for a procedure that the object lists, or
  for its constructor.
- A completion never reports more bytes than were asked for. Each call of the monitor's server
  completes at most once.
- The log file does not change while it is replayed, and a log that cannot be opened reads as
  empty.

Where the code is its own surprise, the model follows the code: a call queued by `c` goes to
whatever object its slot names when the queue is flushed, so deleting and constructing in the same
handler sends it to the new object, and deleting alone drops it (`CallGoesTo` says exactly when,
`CallRedirected` names a handler); a constructor runs as no procedure, so the completions of the
calls it queues are dropped (`ConstructorsGetNothing`); an unknown task id is translated to local
id 0; `add_access` reads the clock anew for every entry of a service; and a scanned negative number
is stored modulo 2^64 or 2^32.

## Model

| member | source | states |
|---|---|---|
| Segments.WalkConserves | src/alloc/alloc_wrapper.cpp:30-37 | stepping by segment lengths from block 0 accounts for all 64 blocks, free and occupied |
| Segments.BackLink | src/alloc/alloc_wrapper.cpp:91-104 | the back link of every segment but the first names the segment that ends where it starts |
| Segments.FitIffFreeRun | src/alloc/alloc_wrapper.cpp:27-37 | a segment that fits exists if and only if there are that many consecutive blocks outside every allocation |
| Segments.FitIffRunStart | src/alloc/alloc_wrapper.cpp:30-33 | the segments that fit are exactly the starts of the maximal free stretches that are long enough |
| Segments.WalkDeterminedByLive | src/alloc/alloc_wrapper.cpp:41-60 | canonical form: two tables with the same allocations have the same segments |
| Segments.AllFreeWalk | src/alloc/alloc_wrapper.cpp:113 | an arena without allocations, and no other, is one free segment of 64 blocks, which is what bfree tests for |
| Segments.CarvedOk | src/alloc/alloc_wrapper.cpp:41-58 | splitting keeps the table well formed, neighbours included, and adds exactly the new allocation |
| Segments.CarvedWfIffPositive | src/alloc/alloc_wrapper.cpp:41-58 | where an existing arena serves the request, its table stays well formed if and only if at least one block is asked for; a request for none leaves a segment that the scan cannot leave |
| Segments.FirstCarvedIs | src/alloc/alloc_wrapper.cpp:66-73 | the table that the code for a new arena leaves is a fresh one carved, or, for a request for no block, still a fresh one |
| Segments.ReleasedOk | src/alloc/alloc_wrapper.cpp:91-111 | freeing with both merges keeps the table well formed and removes exactly that allocation |
| Segments.ReleaseCommutes | src/alloc/alloc_wrapper.cpp:87-111 | freeing two allocations of an arena in either order gives the same segments |
| Segments.ReleaseUndoesCarve | src/alloc/alloc_wrapper.cpp:41-111 | freeing what was just carved gives the segments before |
| Heaps.OwnerFinds | src/alloc/alloc_wrapper.cpp:87-89 | the search from the highest arena down finds the arena and the block of every small allocation |
| Heaps.InsertOk | src/alloc/alloc_wrapper.cpp:130-135 | entering an arena keeps the list sorted and disjoint and adds just that arena |
| Heaps.RemoveOk | src/alloc/alloc_wrapper.cpp:113-117 | removing an arena keeps the list sorted and removes just that arena |
| HeapLaws.MallocOk | src/alloc/alloc_wrapper.cpp:19-76 | bmalloc keeps every arena's invariant and returns an address that was not allocated, recorded with its size |
| HeapLaws.MallocOkIff | src/alloc/alloc_wrapper.cpp:19-76 | for every heap, bmalloc keeps it in order and recorded if and only if it is asked for at least one block, on all three of its paths |
| HeapLaws.MapsIffNoFreeRun | src/alloc/alloc_wrapper.cpp:24-64 | a request of at most 64 blocks maps an arena if and only if no arena has that many consecutive free blocks |
| HeapLaws.MallocPlacement | src/alloc/alloc_wrapper.cpp:24-61 | the last maximal free stretch that fits, in the lowest arena with one |
| HeapLaws.FreeOk | src/alloc/alloc_wrapper.cpp:78-121 | bfree keeps every arena's invariant and removes exactly the given allocation |
| HeapLaws.FreeBlockOk | src/alloc/alloc_wrapper.cpp:88-118 | an arena is unmapped if and only if more than three are mapped and its last allocation is returned |
| HeapLaws.LiveInsideMapping | src/alloc/alloc_wrapper.cpp:60 | every allocation lies inside one mapping |
| HeapLaws.LiveApart | src/alloc/alloc_wrapper.cpp:19-76 | any two allocations, small or large, are disjoint |
| HeapLaws.ArenaBound | src/alloc/alloc_wrapper.cpp:113-117 | never more arenas than three or than small allocations |
| HeapLaws.AllReturned | src/alloc/alloc_wrapper.cpp:113-117 | with every small allocation returned, at most three arenas remain, each one free segment of 64 |
| HeapLaws.FreeUndoesMalloc | src/alloc/alloc_wrapper.cpp:19-121 | bfree right after a bmalloc that an existing arena served restores the segments of every arena |
| HeapLaws.InitialOk | src/alloc/alloc_wrapper.cpp:14-17 | the allocator starts in order, with nothing allocated |
| HeapLaws.RunOk | src/alloc/alloc_wrapper.cpp:19-147 | every sequence of bmalloc and bfree keeps the invariant and the record of allocations |
| HeapLaws.EveryRun | src/alloc/alloc_wrapper.cpp:19-147 | wherever a run leads, allocations are disjoint and the arena bound holds |
| HeapLaws.MappedByKernel | src/alloc/alloc_wrapper.cpp:14-147 | wherever a run leads from the constructor, every arena and every large mapping starts where mmap put it, for the constructor or for a request of the run, and has the size asked for; every allocation lies inside such a region |
| AllocatorWrapper.FindFit | src/alloc/alloc_wrapper.cpp:28-37 | the scan of one arena finds the last segment that fits, or that none does |
| AllocatorWrapper.Carve | src/alloc/alloc_wrapper.cpp:41-58 | the split in place is the carving of the table |
| AllocatorWrapper.CarveFirst | src/alloc/alloc_wrapper.cpp:66-73 | the two overwriting stores of a new arena leave the table that FirstCarvedIs describes, also for a request for no block |
| AllocatorWrapper.Release | src/alloc/alloc_wrapper.cpp:90-111 | the two merges in place are the release of the allocation |
| AllocatorWrapper.AllocatorWrapper.constructor | src/alloc/alloc_wrapper.cpp:14-17 | one free arena, where mmap put it, and no allocation; HeapLaws.MappedByKernel holds from here on |
| AllocatorWrapper.AllocatorWrapper.AddArena | src/alloc/alloc_wrapper.cpp:128-147 | the arena enters the list in address order with a fresh table; nothing else changes |
| AllocatorWrapper.AllocatorWrapper.FindServing | src/alloc/alloc_wrapper.cpp:24-41 | the arena and the segment chosen are the lowest arena with a fit and its last fit |
| AllocatorWrapper.AllocatorWrapper.Bmalloc | src/alloc/alloc_wrapper.cpp:19-76 | the state and the address are those of the allocator as a value, and the record gains the address; the allocator is in order afterwards if and only if at least one block was asked for, and then the address is new |
| AllocatorWrapper.AllocatorWrapper.FindOwner | src/alloc/alloc_wrapper.cpp:87-88 | the reverse search finds the highest arena that does not start above the address |
| AllocatorWrapper.AllocatorWrapper.ReleaseIn | src/alloc/alloc_wrapper.cpp:89-117 | releases one block and unmaps the arena exactly when it is idle and spare |
| AllocatorWrapper.AllocatorWrapper.Bfree | src/alloc/alloc_wrapper.cpp:78-121 | the state is that of the allocator as a value, and exactly this allocation is gone |
| Ids.DrawFresh | src/common/thread_data.cpp:68-82 | a draw returns an id that nobody was given before and keeps the cursors apart |
| Ids.NextDraw | src/common/thread_data.cpp:68-82 | a drawer uses up its block: the next id is the one after the last, or, after the last of a block, the first of a block that nobody had |
| Ids.NeverTwice | src/common/async_thread_shared.h:146-150 | under any interleaving of block fetches and issues by any number of drawers no id is issued twice |
| Ids.BlockFitsIff | src/common/thread_data.cpp:70 | the 64-bit ids of a block are right, and none is the one that stands for nobody, exactly up to block 18446744073709550 |
| Events.PerformSlotsOk | src/common/event.t.cpp:80-90 | every command keeps the slots in order: a named slot names one listed child that is not being deleted, an unnamed one has a construct queued |
| Events.PerformCallsOk | src/common/event.t.cpp:20-37 | a call gets a local id that no other call of the event has |
| Events.PerformAllOk | src/common/event.t.cpp:117-146 | any list of commands keeps an event in order |
| Events.SlotKeptIff | src/common/event.t.cpp:80-90 | a slot still names its object after a handler if and only if the handler did not delete it; if it did, it names nobody |
| Lifetimes.SafePush | src/common/thread_data.cpp:127-185 | what a message added to a safe queue must meet for the queue to stay safe, and who survives it |
| Lifetimes.ConstructOneOk | src/common/thread_data.cpp:431-464 | naming a construct keeps lifetimes in order: the new object is a listed child with its constructor queued |
| Lifetimes.FunctionOneOk | src/common/thread_data.cpp:466-506 | a queued call to an existing slot never throws and is queued only to a child that stays alive until then |
| Lifetimes.DeleteOneOk | src/common/thread_data.cpp:573-593 | a deletion is queued once, behind everything queued for the child, and the child is no longer listed |
| TaskIds.FlushFunctionOk | src/common/thread_data.cpp:466-506 | flushing the calls of a handler never throws, whatever it queued |
| TaskIds.ProcessQueuedOk | src/common/thread_data.cpp:421-429 | a whole flush, constructs before calls before deletes, keeps lifetimes and ids in order and empties the queues |
| DispatchLaws.ConstructStepOk | src/common/thread_data.cpp:278-288 | handling a constructor keeps the dispatcher's invariant |
| DispatchLaws.FunctionStepOk | src/common/thread_data.cpp:290-334 | handling a call succeeds and keeps the invariant, whether or not it completes at once |
| DispatchLaws.TaskIdRoundTrip | src/common/event.cpp:51-79 | a queued completion whose caller is alive translates to the local id of the call it completes, and the two id maps agree on it |
| DispatchLaws.DataStepOk | src/common/thread_data.cpp:336-383 | handling a completion succeeds and keeps the invariant |
| DispatchLaws.DeleteStepOk | src/common/thread_data.cpp:134-154 | a deletion passes to the children in any order, keeps the invariant, and orphans no one |
| DispatchLaws.RootStepOk | src/common/thread_data.cpp:158-186 | a root start keeps the invariant; QueueOrder.StepAdds says that it queues a constructor and a call, and Roots.RootRuns what becomes of them |
| DispatchLaws.InitializeRootOk | src/common/async_handler.t.cpp:5-24 | starting a root draws new ids and keeps the invariant |
| DispatchRuns.HeadFindsObject | src/common/thread_data.cpp:120-154 | the oldest call or deletion finds its object, the oldest constructor does not |
| DispatchRuns.StepOk | src/common/thread_data.cpp:120-203 | every step succeeds and keeps the invariant, whatever the handlers do within their rights |
| DispatchRuns.LifetimeSafety | src/common/thread_data.cpp:478-480 | no run throws or calls through a null object; wherever it stops the next call finds its object constructed and not deleted |
| DispatchRuns.OwnedOrDeleted | src/common/thread_data.cpp:573-593 | a non-root object has exactly one live parent and no deletion queued, or none and exactly one |
| DispatchRuns.NoOrphans | src/common/thread_data.cpp:134-154 | with an empty queue a chain of live parents leads from a root to every object |
| FlushLaws.FlushOrder | src/common/thread_data.cpp:421-429 | a flush appends the constructors of newly issued objects, then the calls, then exactly the queued deletions in order; the calls are exactly the queued ones whose slot names an object once the new ones are named, in order, each to that object under its local id and as a newly issued procedure |
| FlushLaws.FlushThrowsIff | src/common/thread_data.cpp:476-480 | flushing calls throws, always the uninitialized error, if and only if the slot of one of them holds an object that has no name |
| FlushLaws.CallTellsCaller | src/common/thread_data.cpp:305-333 | a call that returns at once tells its caller on this thread the outcome and the code, behind all else it queued; a caller that is alive sees it under the local id that its c returned, and the record says the same |
| FlushLaws.YieldTellsCaller | src/common/thread_data.cpp:346-370 | a procedure that completes later tells the caller that its call recorded, under the local id of that call |
| FlushLaws.DeliveredIff | src/common/thread_data.cpp:336-347 | data is ignored, whatever the handler would do, if and only if its object is gone or its procedure is not recorded |
| CallTargets.CallGoesTo | src/common/thread_data.cpp:466-506 | a call queued while its slot names an object goes to that object if and only if the handler does not delete the slot afterwards; otherwise to one new object if the slot was filled again, and to nobody if not |
| CallTargets.CallRedirected | src/common/event.t.cpp:20-90 | the handler that calls, deletes and constructs on slot 0 is allowed wherever the slot names an object, and its call goes to a new object |
| Handlers.HandlerCarriedOut | src/common/event.t.cpp:20-146 | every step that runs a handler queues, in this order, the constructor of one new object for each i, calls, one deletion for each child that some d met when it was reached and no other, and what the caller is told, if there is one to tell; the object is left with its old children but the dropped ones, and the new ones, and the calls are entered with them |
| Handlers.DroppedOnce | src/common/event.t.cpp:79-89 | the queued deletions of an object grow, by exactly one, if and only if a d of the handler met a slot naming it; then it was a child, and nobody lists it any more; other children stay |
| Handlers.CallGoesOn | src/common/thread_data.cpp:290-303 | a call that does not return at once stays recorded with its object and its caller, running or degraded, other records stay, and nobody is told anything |
| QueueOrder.StepAdds | src/common/thread_data.cpp:120-203 | a step takes at most the oldest message and adds at the end: a root start the constructor and then the call of the root, both for nobody, a deletion those of the children, a completion of the kernel just that |
| QueueOrder.RunInOrder | src/common/thread_data.cpp:120-126 | over every run, what is left of the queue comes first and in its order |
| QueueOrder.GivenIs | src/common/event.cpp:51-65 | on_yield is given what the kernel completed as it is, and of the completion of a call only the task id changed, to the local id of that call |
| QueueOrder.CompletionArrives | src/common/thread_data.cpp:213-232 | whatever the kernel completes is at the head once everything before it has been handled, whatever else happens, and on_yield is given just that |
| QueueOrder.UnknownTask | src/common/event.cpp:53-55 | an unknown task id is seen as local id 0 and known as that from then on, and a known one changes nothing |
| CallOrder.StepOrder | src/common/thread_data.cpp:120-203 | every step keeps callers before callees: each queued call and each recorded procedure was called by nobody, by a constructor, or by a procedure issued earlier |
| CallOrder.RunOrder | src/common/thread_data.cpp:120-203 | so does every run |
| CallOrder.ConstructorsCallAsNobody | src/common/thread_data.cpp:278-288 | whatever a constructor constructs or calls is queued in the name of no procedure |
| CallOrder.ConstructorsGetNothing | src/common/thread_data.cpp:336-340 | a completion for no procedure is dropped, for every handler, as long as the id that stands for nobody has not been issued |
| Cascades.TameProgress | src/common/thread_data.cpp:120-203 | a message handled by a handler that neither constructs nor calls leaves fewer objects, or as many and less to do, and saves no object from deletion |
| Cascades.Drain | src/common/thread_data.cpp:134-154 | whatever such handlers do, deletions and completions included, the queue is worked off to its end |
| Cascades.CascadeDeletes | src/common/thread_data.cpp:134-154 | a cascade removes every object that was to be deleted |
| Cascades.CascadeLeavesNoOrphans | src/common/thread_data.cpp:134-154 | what remains after a cascade hangs from a root |
| Cascades.ReachedSettled | src/common/thread_data.cpp:120-203 | every state that a run reaches can be worked off like that, as long as the procedure id that stands for nobody has not been issued |
| Survivors.DoomedGo | src/common/thread_data.cpp:134-154 | whatever such handlers do, no object survives that is to be deleted, or that hangs from one that is |
| Survivors.SurvivesIff | src/common/thread_data.cpp:134-154 | when handlers issue no command, an object survives a cascade if and only if it and every object above it are to be alive once the queue is worked off |
| Homes.StepHomes | src/common/thread_data.cpp:120-203 | every step keeps each recorded procedure listed by one living object, and every queued call and completion addressed to a caller that lists its procedure unless it is gone |
| Homes.OneHome | src/common/thread_data.cpp:291-295 | wherever a run leads, a recorded procedure is listed by the living object it belongs to and by no other |
| Homes.IgnoredIff | src/common/thread_data.cpp:336-347 | wherever a run leads, the oldest completion is ignored, whatever the handler would do, if and only if its object is gone or it is for a call that a constructor made, as long as the id that stands for nobody has not been issued |
| Roots.StepProceeds | src/common/thread_data.cpp:120-203 | every step keeps a queued call going: it is still queued, or recorded for its object and its caller, or its object is gone |
| Roots.NoCallLost | src/common/thread_data.cpp:120-203 | so does every run |
| Roots.RootRuns | src/common/async_handler.t.cpp:5-24 | a root is started under new ids, and wherever a run leads from there, its start or the call of its procedure by nobody is queued, or that procedure is recorded for the root, which is alive; no deletion of it is ever queued |
| Origins.OneOrigin | src/common/thread_data.cpp:280-285 | wherever a run leads, a root is recorded with nobody as its parent, and any other object with the one that lists it |
| ThreadData.EventObject.Construct | src/common/event.t.cpp:117-146 | takes the first empty slot or a new one, and queues the construct for it |
| ThreadData.EventObject.Call | src/common/event.t.cpp:20-37 | queues the call under the next local id and returns that id |
| ThreadData.EventObject.Drop | src/common/event.t.cpp:80-90 | queues the named object's deletion and empties the slot; Handlers.DroppedOnce says what becomes of the deletion |
| ThreadData.EventObject.GlobalToLocal | src/common/event.cpp:76-79 | enters the pair in both maps |
| ThreadData.EventObject.MapEvent | src/common/event.cpp:51-65 | replaces a task id by the local one, as QueueOrder.UnknownTask has it, and leaves every other event alone, as QueueOrder.GivenIs has it |
| ThreadData.ThreadData.GetObjId | src/common/thread_data.cpp:76-82 | advances the cursor or fetches a block, as one undisturbed draw |
| ThreadData.ThreadData.NameConstruct | src/common/thread_data.cpp:434-462 | names the slot, lists the child and queues its constructor, in place, and skips an emptied slot |
| ThreadData.ThreadData.CallFunction | src/common/thread_data.cpp:469-504 | draws the id, records it with the child, registers it and queues the call, or reports the uninitialized object |
| ThreadData.ThreadData.ProcessQueued | src/common/thread_data.cpp:421-429 | the loops over the queued commands do what the flush of the whole state does |
| ThreadData.ThreadData.ConstructCall | src/common/thread_data.cpp:278-288 | builds the object, enters it unless it is there, and flushes |
| ThreadData.ThreadData.FunctionCalled | src/common/thread_data.cpp:290-334 | records the procedure, runs the function, flushes, and sends the completion to a caller on this thread |
| ThreadData.ThreadData.DataReceived | src/common/thread_data.cpp:336-371 | drops data for unknown objects or procedures; otherwise translates, runs on_yield on exactly the translated event, flushes and notifies the caller |
| ThreadData.ThreadData.DeleteObject | src/common/thread_data.cpp:134-154 | queues the children's deletions, erases the procedures and the object |
| ThreadData.ThreadData.HandleDequeue | src/common/thread_data.cpp:120-203 | handles the oldest message exactly as the step on the whole state and gives on_yield what QueueOrder.GivenIs says; from an orderly state nothing is refused and the state stays orderly |
| ThreadData.ThreadData.InitializeRoot | src/common/async_handler.t.cpp:5-24 | draws an object and a procedure id and queues the root start of just those |
| LogText.LogFile.LogEntry | src/localsoftware.cpp:52-58 | streaming the fields appends the entry's line, zero-padded day and month included |
| LogFormat.DecimalShape | src/localsoftware.cpp:54-58 | an integer is printed as a minus if it is negative and the digits of its size without leading zeros |
| LogFormat.PaddedShape | src/localsoftware.cpp:56-57 | from 0 to 99 a padded integer is exactly two digits of that value, and otherwise as unpadded |
| LogFormat.DateShape | src/localsoftware.cpp:56-58 | a date of day 1 to 31 and month 1 to 12 has two digits for each and its slashes at positions 2 and 5 |
| LogFormat.SampleLine | src/localsoftware.cpp:52-58 | the parts of one line, written out |
| LogText.ScanDecimal | src/bandwidth_monitor/monitoring_server.cpp:126 | a printed integer scans back to itself and leaves what follows |
| LogText.ScanPadded | src/localsoftware.cpp:55-57 | so does a zero-padded one |
| LogText.ScanLineOf | src/bandwidth_monitor/monitoring_server.cpp:124-126 | every printed line scans back to its entry by the seven-field format, whatever the fields |
| LogFormat.ScanLineIff | src/bandwidth_monitor/monitoring_server.cpp:126 | a line scans to an entry if and only if it has the seven numbers, the brackets and the slashes where the format says, with space where it admits space |
| LogLines.GetLineIff | src/bandwidth_monitor/monitoring_server.cpp:124 | what getline returns is what comes before the first line break or the end, and fails exactly at the end |
| LogLines.RecordsOfLines | src/bandwidth_monitor/monitoring_server.cpp:124-131 | of any text, the records are those of its lines that scan, in order; the last line may lack its break |
| LogLines.TextHasLines | src/bandwidth_monitor/monitoring_server.cpp:124 | and every text consists of such lines |
| LogText.GetLineOf | src/bandwidth_monitor/monitoring_server.cpp:124 | getline recovers a line and leaves the rest |
| LogRecords.PackedFields | src/bandwidth_monitor/monitoring_server.h:23-28 | each field reads back from its place in the packed record |
| LogLines.RecordKeeps | src/bandwidth_monitor/monitoring_server.cpp:127 | a record keeps time, sent and received bytes and hour, each in its own field, a negative time or hour wrapped around |
| LogLines.EntryShown | src/bandwidth_monitor/monitoringindex.html:173-192 | and the page shows each under its own heading, in the history and live |
| LogRecords.ReadLineReads | src/bandwidth_monitor/monitoring_server.cpp:124-127 | getline, sscanf and the casts turn every printed line, whatever follows it, into its entry's record |
| LogRecords.RecordsOfLog | src/bandwidth_monitor/monitoring_server.cpp:124-131 | a log that log_entry wrote holds one record for each entry, in order |
| LogRecords.TakeOk | src/bandwidth_monitor/monitoring_server.cpp:124-132 | reading a chunk neither loses nor repeats a record, and falls short only at the end of the log |
| LogRecords.ChunksOk | src/bandwidth_monitor/monitoring_server.cpp:119-140 | the chunks hold exactly the log's records in order; all but the last have 15, none is empty |
| LogRecords.ChunkCount | src/bandwidth_monitor/monitoring_server.cpp:119-140 | there are as many chunks as a fifteenth of the records, rounded up |
| Streams.PrefixReceived | src/common/websocket_socket.cpp:31-57 | for any code whose messages tell where they end, a prefix of a stream is received as the messages that arrived whole |
| Frames.ParseFrame | src/common/websocket_socket.cpp:31-57 | a client by section 5.2 of RFC 6455 recovers a minimal-length frame whatever follows it |
| Frames.ParsePart | src/common/websocket_socket.cpp:31-57 | and waits while part of the frame is missing |
| Frames.FramesReceived | src/common/websocket_socket.cpp:31-57 | at every moment a client has exactly the frames that have arrived whole |
| WebsocketSocket.WebsocketSocket.WriteFrame | src/common/websocket_socket.cpp:31-57 | the buffer filled byte by byte holds the header for the length and then the payload, and the write covers all of it |
| WebsocketSocket.WebsocketSocket.OnYield | src/common/websocket_socket.cpp:69-78 | a non-positive result fails; otherwise the buffer goes and the result is passed on |
| WebsocketSocket.WrittenIsFrame | src/common/websocket_socket.cpp:32-57 | what is written is the protocol's frame in its shortest form if and only if the payload is shorter than 2^32 |
| WebsocketSocket.ReadBackIff | src/common/websocket_socket.cpp:44-55 | a client reads the payload back if and only if it is shorter than 2^32 bytes |
| WebsocketSocket.HeaderFields | src/common/websocket_socket.cpp:31-57 | byte by byte: a final binary frame, unmasked, with the length in one, two or eight bytes, the high four of the eight zero, and then the payload |
| ReadWriteBytes.ReadWriteBytes.OnYield | src/common/readwrite_bytes.cpp:38-50 | failure ends the operation; progress finishes it or queues a request for exactly what is left |
| ReadWriteBytes.ReadWriteBytes.PrepareRead | src/common/readwrite_bytes.cpp:56-66 | a read of everything goes on until nothing is left, another read ends at once |
| ReadWriteBytes.ReadWriteBytes.PrepareWrite | src/common/readwrite_bytes.cpp:68-78 | a write goes on until nothing is left |
| ReadWriteBytes.ReadWriteBytes.Deliver | src/common/readwrite_bytes.cpp:68-78 | delivering any completions of a write queues exactly the requests of the run and reports the total at its end |
| ReadWriteBytes.ReadWriteBytes.DeliverRead | src/common/readwrite_bytes.cpp:56-66 | so does delivering those of a read of everything |
| ReadWriteBytes.WriteRun | src/common/readwrite_bytes.cpp:23-29 | for all completions the kernel has been asked for writes only and has sent a prefix of the buffer, once and in order, and all of it exactly at the end, after at most as many completions as bytes |
| ReadWriteBytes.ReportedIff | src/common/readwrite_bytes.cpp:76 | the reported total is the length if and only if that fits in an int, and is positive if and only if its low 32 bits are a positive int |
| ReadWriteBytes.ReadRun | src/common/readwrite_bytes.cpp:14-21 | the kernel has been asked for reads only; the buffer holds what arrived, in order, and is filled exactly when nothing is left |
| MonitoringServer.NextChunk | src/bandwidth_monitor/monitoring_server.cpp:119-132 | the loop packs up to 15 records, the count tested before the line is read, and leaves the rest of the log |
| MonitoringServer.BandwidthMonitoringServer.StageHttpRead | src/bandwidth_monitor/monitoring_server.cpp:74-107 | the state and the outcome are those of the server as a value; MonitoringCalls.RequestAnswered says what each kind of request is answered with |
| MonitoringServer.BandwidthMonitoringServer.StageWebsocketLogs | src/bandwidth_monitor/monitoring_server.cpp:119-140 | sends the next chunk and keeps the rest of the log, or after the last chunk sends the marker and is live |
| MonitoringServer.BandwidthMonitoringServer.StageWebsocketLive | src/bandwidth_monitor/monitoring_server.cpp:142-170 | notes the completion, and starts the next timer and frame just when both earlier ones are noted, or there were none; MonitoringCalls.EveryCall says which calls they are |
| MonitoringServer.BandwidthMonitoringServer.OnYield | src/bandwidth_monitor/monitoring_server.cpp:31-68 | the whole state and the result are those of the server as a value, for every event: the laws of MonitoringRuns and MonitoringCalls are about it |
| MonitoringRuns.MarkOk | src/bandwidth_monitor/monitoring_server.cpp:143-146 | both completions are noted, or nothing live was sent yet, exactly when nothing else is under way and nothing failed, in whatever order they came |
| MonitoringRuns.CompleteOk | src/bandwidth_monitor/monitoring_server.cpp:31-68 | whatever call completes, and however: nothing is called while another is under way or after a failure; a completion during the replay sends one frame, the last of a live pair sends the sample, and the live record stays until its frame is sent |
| MonitoringRuns.EveryRun | src/bandwidth_monitor/monitoring_server.cpp:142-170 | wherever any run leads a new server, failures included, one call is under way until it is live, then at most the two under the ids kept for the frame and the timer, which MonitoringCalls.EveryCall identifies; until a call fails there is always one to wait for |
| MonitoringRuns.EveryCompletion | src/bandwidth_monitor/monitoring_server.cpp:31-68 | every completion in such a run advances the server as CompleteOk says |
| MonitoringRuns.UpgradeOk | src/bandwidth_monitor/monitoring_server.cpp:77-98 | a request for the WebSocket is answered with its digest encoded, and the server is ready to replay |
| MonitoringCalls.EveryCall | src/bandwidth_monitor/monitoring_server.cpp:21-170 | wherever any run leads a new server, failures included, its calls follow one another as the stages of a connection do: replies answer requests, a page's reply is followed by the next read, chunks and the marker follow the upgrade, and then a timer and a live frame in turn; the frames are those among the calls, with one timer for each live one; what is under way is the last call, and in the live stage the ids kept are those of a timer and of the frame sent with it |
| MonitoringCalls.RequestAnswered | src/bandwidth_monitor/monitoring_server.cpp:74-107 | a request is refused if and only if it is not a GET, or has both fields but not both right, or both right and no key; a GET without both fields is answered with its resource, and once that is sent the next request is read; one with both, right, and a key is accepted with the encoded digest and ready to replay |
| MonitoringCalls.EndsIff | src/bandwidth_monitor/monitoring_server.cpp:31-68 | in every state a connection ends if and only if its timeout came, a call failed or a request is refused, with the code of that call or -1 and without another call; it throws only for want of a key, and other events change nothing |
| MonitoringRuns.RunReaches | src/bandwidth_monitor/monitoring_server.cpp:31-68 | after n good completions from the upgrade, in any order and with the children drawing ids in between, the server is in the stage and has sent as many frames as n says |
| MonitoringRuns.RunSends | src/bandwidth_monitor/monitoring_server.cpp:119-170 | those frames are the first of the history, the marker and live records, and the server is live if and only if one more call than there are chunks has completed |
| MonitoringPage.MonitoringPage.Receive | src/bandwidth_monitor/monitoringindex.html:156-202 | the handler, loop over offsets included, does to the page what the message means |
| MonitoringPage.RowsOfPacked | src/bandwidth_monitor/monitoringindex.html:173-181 | the page reads back the records that were packed, in order |
| MonitoringPage.LiveIff | src/bandwidth_monitor/monitoringindex.html:160-170 | a message makes the page live if and only if it has 24 bytes and the first eight are all ones, and a live page stays so |
| MonitoringPage.IgnoredIff | src/bandwidth_monitor/monitoringindex.html:160-192 | a message is ignored if and only if it is not for the stage the page is in |
| Replay.MarkerShown | src/bandwidth_monitor/monitoringindex.html:162-170 | the marker makes the page live and adds nothing |
| Replay.ChunkShown | src/bandwidth_monitor/monitoringindex.html:160-182 | no chunk is taken for the marker, and each adds its records to the history, newest first |
| Replay.SentSoFar | src/bandwidth_monitor/monitoring_server.cpp:119-170 | wherever any run leads a new server, failures included, it has sent no frame, a prefix of the history frames, or all of them, the marker and live records, according to its stage |
| Replay.AllShown | src/bandwidth_monitor/monitoringindex.html:156-202 | for any log text and any reading of its lines the page shows exactly the records read, then goes live and shows every live record |
| Replay.ShownSoFar | src/bandwidth_monitor/monitoringindex.html:156-202 | at every byte of the connection the page shows exactly the payloads that have arrived whole |
| Replay.TransmittedIsWire | src/common/readwrite_bytes.cpp:68-78 | however each write is split, the frames go out whole and in order |
| Replay.LogShown | src/bandwidth_monitor/monitoring_server.cpp:119-170 | of a complete replay, split in any way, the page shows exactly the entries logged, for any reading that gets printed lines right |
| Replay.RunShows | src/bandwidth_monitor/monitoring_server.cpp:119-170 | and the server gets there: once more calls have completed than a fifteenth of the entries, rounded up, what it has sent is such a replay |
| Replay.EndToEnd | src/bandwidth_monitor/monitoring_server.cpp:119-170 | for all entries logged, every run of the server with that many completions and all splits of its writes, the page shows exactly those entries and then the live records sent, by the source's own reading |
| Base64.Base64Encode | src/bandwidth_monitor/monitoring_server.h:51-72 | the encoder in place computes the encoding of section 4 of RFC 4648 |
| Base64.Alphabet | src/bandwidth_monitor/monitoring_server.h:20 | the table has the 64 characters of the alphabet in order, by their codes, each of which stands for its position, and none is the padding character |
| Base64.DecodeEncoded | src/bandwidth_monitor/monitoring_server.h:51-72 | every byte string decodes to itself from its encoding |
| Base64.EncodeDecoded | src/bandwidth_monitor/monitoring_server.h:51-72 | a string decodes only if it is an encoding, namely of what it decodes to |
| Base64.EncodedShape | src/bandwidth_monitor/monitoring_server.h:52-69 | four characters for every three bytes begun, and as much padding, only at the end, as bytes are missing |
| Base64.EncodeGroup | src/bandwidth_monitor/monitoring_server.h:54-66 | the four characters of three bytes stand for six bits each, from the highest down |
| Base64.Foobar | src/bandwidth_monitor/monitoring_server.h:51-72 | the last three test vectors of section 10 of RFC 4648 |
| VisitStats.BinsAgree | src/logging/visit_stats.cpp:35-41 | the bins hold every access once, for any clock |
| VisitStats.VisitStats.RegisterService | src/logging/visit_stats.cpp:70-72 | appends an entry that has seen nothing |
| VisitStats.VisitStats.AddAccess | src/logging/visit_stats.cpp:48-68 | every entry of the service, and no other, counts the access in its last bin or opens one |
| VisitStats.VisitStats.GetEndpointStats | src/logging/visit_stats.cpp:30-46 | the total is the number of accesses whose bin lies in the range, by the first entry of the service; where AgreesIff's condition holds and no time is before 1970, the number of accesses in the window of seconds |
| VisitStats.AgreesIff | src/logging/visit_stats.cpp:29-37 | the total counts the window of seconds, for every log of times since 1970, if and only if the start is the start of a bin and end fits in an int, or the window is over before 1970 |

## Left out

- `segment_info_[].first` and `maxsize_excluding_pick` in the allocator, which nothing reads; a failing `mmap`; `brealloc`, which is empty.
- Threads: the program runs one dispatcher thread and `find_target_thread` stays on it; only the drawing of ids is modelled with many.
- Shared contexts (`i_s`) in the dispatcher: object lifetimes are those of unshared ones. The monitor's server models the shared counter of local ids.
- Timers and the `Timeout` events they send, io_uring submissions, `attach`, coroutines and their `CqeReady` messages in the dispatcher; io_uring results for any procedure may come at any time instead. `CallStarted` and `Wakeup` events, which nothing sends.
- The description and hint a call returns with, and the captured closures and pointers of constructors and calls: objects are ids, and a call is named by the local id that `c` returned.
- That a procedure completes once: the dispatcher does not enforce it, so nothing here claims it.
- `TLSSocket`, `File`, sockets, HTTP parsing, `HTTPManager`, SHA-1 and the reverse proxy: the frames go to the plain byte writer. `read_frame` is unfinished in the source.
- What `sscanf` does with numbers that do not fit its conversions, which C leaves undefined: the model scans the mathematical integer.
- The page's conversion to floating-point numbers and milliseconds, its rows' markup, and the trimming of old chart points.
- The monitor's 60-second and 20-minute timers, and the clock and speeds that a live record is made of, which are a parameter.
- `get_pretty_stats`, locks, and the 64-bit overflow of visit counts and of `start + delta * end`.
- Ids.NeverTwice: counts blocks without bound; Ids.BlockFitsIff says how far 64 bits carry.
- Cascades.Drain: handlers delete and complete as they like but neither construct nor call during the cascade; one that keeps constructing or calling would keep it alive.
- MonitoringServer.BandwidthMonitoringServer.StageHttpRead: takes the digest of the key and the request's method and fields as parameters; the response's other fields and the resource's page are not modelled.
- MonitoringServer.BandwidthMonitoringServer.OnYield: takes how a line of the log is read as a field of the object; Replay.EndToEnd fixes it to the source's reading.
