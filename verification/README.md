# Verified models of an OpenCL runtime

The repository implements the OpenCL 1.2 host runtime and device library for DSP accelerators. This
project models the parts whose correctness does not show from any single function: the concurrent
scheduler of command queues and events, the `printf` format scanner with its C99 format printer, the
address arithmetic of rectangle copies and of kernel index spaces, and the 64-bit saturating
built-ins. `dafny verify dfyconfig.toml` checks everything.

## The scheduler

`SchedulerModel.dfy` is a transition system over any number of events and queues. A state holds the
fields of `Event` and `CommandQueue` together with what the threads are doing: constructors that hold
an event mutex, the dependents loop of `setStatus` (index and `already_pushed`), calls of
`pushEventsOnDevice` that have not yet taken the queue mutex, scans that hold it, and threads asleep
in `finish`. A step is one critical section, one iteration of a scan, one iteration of the dependents
loop, one test of `finish` by a woken thread, or a move of the device; `gotEnoughToWorkOn` answers
arbitrarily, and so do the device and the host. Two sets per queue, `dispatched` and `accounted`, are
histories that no step reads.

The system allows more interleavings than the code. A call that one thread makes inside another
(the push at the end of `queueEvent`, the pushes inside `setStatus`, the `setStatus` of an instantaneous
event inside a push) is a process of its own here, which may start at any later time. Safety holds for
all these runs. A scan iteration is one step although it reads the event's status twice and its wait
set once. Only the scan itself moves an event away from Queued, and wait sets only shrink, so an
iteration acts as if it had read everything at its last read, or at the first one if it found the event
in flight.

- `SchedulerInvariant.dfy` states the invariant. `SchedulerBuild.dfy`, `SchedulerScan.dfy` and
  `SchedulerComplete.dfy` prove it step by step; `SchedulerSafety.dfy` lifts it to all runs.
- `SchedulerTheorems.dfy` and `SchedulerRuns.dfy` hold the promises: dependencies, notifications,
  in-order queues, barriers, fences, markers, counters, sleeping threads, absence of starvation, and
  that no event is dispatched twice. `SchedulerBarriers.dfy` says exactly when a barrier is overtaken.
- `SchedulerProgress.dfy` proves that, once the host makes no more calls, every run stops, and that it
  stops only when all queued events are complete and no thread is left in `finish`.
- `SchedulerSweep.dfy` and `SchedulerDrain.dfy` say what an undisturbed scan does: which entries of the
  list it dispatches, as one if-and-only-if over list positions and event fields, what leaves the list,
  and what the counters, the flush flag and the sleeping threads are afterwards. `SchedulerSteps.dfy` does
  the same for the steps of a completion and for `finish`.
- `CommandQueues.dfy` has the classes with the loops of the source, proved against what an undisturbed
  constructor, scan or cleaning computes, and proves that these are runs of the transition system.
- `Runtime.dfy` lets one thread build and queue events and complete them, with the mutual recursion of
  `setStatus` and `pushEventsOnDevice`.
  The recursion terminates, its effect is a run of the transition system, and when the outer call
  returns no push, notification or instantaneous event is left over.
- `Callbacks.dfy` treats event callbacks.

The theorems are about runs without error statuses, with fixed queue properties, and with wait lists
that name user events or events already queued. The status test of `clSetUserEventStatus` and the
change of status are one step.

Where documentation and code differ, the model follows the code. The header says that no event passes
a barrier unless the barrier is first in the list, when it can leave at once. The code lets later
events pass a first barrier that still waits for its own wait list. `BarrierSafety` shows what holds of
all barriers and `FenceSafety` what holds of those without a wait list. `OvertakenIff` gives the exact
condition for a barrier at the head of the list: it can be overtaken if and only if the queue is out of
order and the barrier still waits for an event, and never by another barrier. `BarrierWaitsNotEnforced`
is such a run.

## printf, regions, arithmetic

`FormatModel.dfy` defines the scanner as functions on the remaining text, the formats that the helpers
build, and a C99 directive parser (section 7.19.6.1 of ISO C99). `FormatGrammar.dfy` proves the scanner
equivalent to a declarative grammar of section 6.12.13 of OpenCL 1.2, `FormatProofs.dfy` the round
trips and that each helper passes what its format takes, and `Printf.dfy` the loops of `_cl_printf`
against the functions. The 64-bit integer and double extensions are enabled. A format string is the text before its terminator.

`RectCopies.dfy` and `NDRange.dfy` use unbounded naturals. `Saturation.dfy` takes the largest value of
the type as a parameter, writes out wrap-around and C's division, and assumes that signed overflow
wraps in two's complement where the code lets it happen.

Five properties turned out to hold only under a condition, and each is proved with that condition:
`OvertakenIff` (with `BarrierWaitsNotEnforced`), `SubSatExact` (exact if and only if the subtrahend is
not the lowest value), `MadSatExact`, `OverlapExact` (with `SelfCopyAccepted`) and `BuildRoundTrip` (with
`StringWidthDropped`).

`Wrappers.dfy`, `Sequences.dfy` and `Arithmetic.dfy` hold the optional value, the selection of entries by
position, and the product lemmas that several modules share.

## Model

| member | source | states |
|---|---|---|
| SchedulerSafety.NextKeepsInv | src/core/commandqueue.cpp:225-779 | every step of every thread keeps the invariant of all events and queues |
| SchedulerSafety.ReachableInv | src/core/commandqueue.cpp:225-779 | every state reachable from empty queues satisfies the invariant |
| SchedulerTheorems.DependencySafety | src/core/commandqueue.cpp:471-510 | an event that was submitted, or taken off the list as instantaneous, has every event of the wait list it was built with complete, across queues |
| SchedulerRuns.DispatchMoment | src/core/commandqueue.cpp:471-510 | the very step that dispatches an event finds its wait set empty and its whole wait list complete |
| SchedulerRuns.DispatchesExactly | src/core/commandqueue.cpp:484-510 | the history of dispatches grows by an event exactly in the steps that submit it or take it off the list unfinished |
| SchedulerRuns.DispatchedOnce | src/core/commandqueue.cpp:484-510 | along any run at most one step submits an event or takes it off the list as instantaneous |
| SchedulerTheorems.NoLostNotification | src/core/commandqueue.cpp:614-625 | x stays in e's wait set only while x is not complete or x's dependents loop has an entry for e still ahead, also when x completes while e is being constructed |
| SchedulerTheorems.InOrderSafety | src/core/commandqueue.cpp:439-444 | in an in-order queue, everything queued before a dispatched event is dispatched, and complete unless instantaneous |
| SchedulerTheorems.BarrierSafety | src/core/commandqueue.cpp:446-452 | nothing behind a barrier is dispatched before every command in front of the barrier is complete and every instantaneous event there dispatched; holds with or without a wait list |
| SchedulerTheorems.FenceSafety | src/core/commandqueue.cpp:471-482 | nothing behind a WaitForEvents event, or a barrier without wait list, is dispatched before that fence, and then everything the fence waits for is complete |
| SchedulerBarriers.OvertakenIff | src/core/commandqueue.cpp:446-482 | for a barrier at the head of the list of a queue whose mutex is free, and a queued next entry that waits for nothing: some run dispatches that entry before the barrier if and only if the queue is out of order, the barrier still waits for an event and the entry is no barrier |
| SchedulerBarriers.OvertakenOnlyIf | src/core/commandqueue.cpp:439-482 | in every reachable state, whatever was dispatched past an undispatched barrier is no barrier, in an out-of-order queue, and the barrier was built with a wait list |
| SchedulerBarriers.BarrierWaitsNotEnforced | src/core/commandqueue.cpp:446-482 | a reachable state in which a command passed a barrier whose wait list is not complete |
| SchedulerRuns.MarkerSafety | src/api/api_enqueue.cpp:894-910 | a marker whose snapshot leaves out only completed events is dispatched only after everything in the snapshotted list is complete |
| CommandQueues.MarkerWaits | src/api/api_enqueue.cpp:894-924 | the same for the snapshot that `events(count, false)` takes in one state while the marker is built in a later one |
| SchedulerTheorems.CounterLaw | src/core/commandqueue.cpp:375-509 | at every step: the queue counter is the list length; on_device + completed counts the listed dispatched events plus the instantaneous events dispatched so far; on_device is at most the dispatched events not yet accounted for; accounted events are complete; listed events are dispatched exactly if not Queued |
| SchedulerTheorems.FinishNotForgotten | src/core/commandqueue.cpp:204-220 | no thread sleeps in `finish` on an empty queue while the queue mutex is free |
| SchedulerTheorems.NoStarvation | src/core/commandqueue.cpp:366-520 | if nothing is in flight, no completion or push is under way and user events are complete, then every event ever queued is complete, all lists are empty and nobody sleeps, in spite of the early return, the scan limit and the ready_event cut-off |
| SchedulerTheorems.QueuedIsDone | src/core/commandqueue.cpp:366-520 | the same for a single event, by induction over the order of the appends |
| SchedulerScan.EnterKeeps | src/core/commandqueue.cpp:375-408 | counting a completion and the early return keep the queue's invariant; the early return leaves a dispatched event that will push again |
| SchedulerScan.IterationKeeps | src/core/commandqueue.cpp:410-511 | one scan iteration, in any of its branches, keeps the queue's invariant |
| SchedulerScan.CleanKeeps | src/core/commandqueue.cpp:291-326 | one iteration of `cleanEvents` keeps the queue's invariant |
| SchedulerBuild.LinkKeeps | src/core/commandqueue.cpp:614-625 | `addDependentEvent` inside the constructor keeps the invariant whether or not the awaited event is complete |
| SchedulerBuild.RecordKeeps | src/core/commandqueue.cpp:614-625 | the later `push_back` keeps it, even if the awaited event completed in between |
| SchedulerBuild.AppendKeeps | src/core/commandqueue.cpp:225-253 | `queueEvent` keeps the invariant and leaves a push pending |
| SchedulerComplete.MoveKeeps | src/core/commandqueue.cpp:677-703 | device moves and the critical section of `setStatusHelper` keep it; a completion owes a notification to every dependent |
| SchedulerComplete.NotifyKeeps | src/core/commandqueue.cpp:722-736 | one iteration of the dependents loop keeps it; a wait set that becomes empty leaves a push |
| SchedulerComplete.EndCompleteKeeps | src/core/commandqueue.cpp:738-746 | the end of `setStatus` keeps it; every completion is reported to the parent queue |
| SchedulerBuild.RecheckQueue | src/core/commandqueue.cpp:214-217 | a woken thread that tests the queue again keeps the queue's invariant |
| SchedulerRuns.RunExtends | src/core/commandqueue.cpp:366-779 | along any run, completions, dispatches, appends and wait lists are never undone |
| SchedulerSweep.TakenIff | src/core/commandqueue.cpp:410-511 | an entry is dispatched if and only if it is queued without waits; it is the first unfinished entry, or the queue is out of order and it is no barrier; no unfinished entry before it is a barrier that is not first, a waiting WaitForEvents event, an instantaneous event without waits, or the ready event unless that waits; and without a ready event at most 64 examinations came before, a submitted command counting twice |
| SchedulerSweep.CompletedLeavesIff | src/core/commandqueue.cpp:414-437 | a completed entry is removed if and only if the scan gets past every unfinished entry before it |
| SchedulerDrain.DispatchedIff | src/core/commandqueue.cpp:410-511 | the same condition, for the history of dispatches after a whole scan |
| SchedulerDrain.ScanExact | src/core/commandqueue.cpp:410-511 | a scan dispatches exactly the taken entries, submits exactly the commands among them, changes no other event, and keeps the other entries of the list in order |
| SchedulerDrain.ScanCounters | src/core/commandqueue.cpp:421-519 | counters after a scan; the flush flag is set exactly if nothing was seen to remain, or, with a ready event or after an instantaneous one, if the queue is empty; exactly then sleeping threads are woken |
| SchedulerDrain.NothingLeft | src/core/commandqueue.cpp:410-511 | after a scan without ready event that took no instantaneous entry and stayed below the limit, a further scan would dispatch nothing |
| SchedulerDrain.ReadyCutsOff | src/core/commandqueue.cpp:457-464 | a scan for a ready event dispatches nothing behind that event |
| SchedulerSteps.BeginPushExact | src/core/commandqueue.cpp:375-408 | a push counts its completion and scans unless the queue is out of order, no event is ready, more than 2 events are then on the device and the device is full |
| SchedulerSteps.NotifyExact | src/core/commandqueue.cpp:722-736 | one notification removes exactly the completed event from the wait set; if the dependent thereby becomes ready its queue, and no other, gets one push, which reports the completion exactly if it is the own queue; nothing else changes |
| SchedulerSteps.EndCompleteExact | src/core/commandqueue.cpp:738-746 | the parent queue gets one reporting push exactly if no notification sent one |
| SchedulerSteps.FinishReturnsEmpty | src/core/commandqueue.cpp:204-220 | a thread leaves `finish` only when the list is empty and the mutex free |
| SchedulerProgress.InternalDecreases | src/core/commandqueue.cpp:410-511 | every step that is not a host call decreases the lexicographic measure of statuses, listed events, notifications, pushes, entries left to scan and woken threads, although the scan does not advance after a submit |
| SchedulerProgress.EveryRunStops | src/core/commandqueue.cpp:366-750 | no infinite run of scans, completions, their mutual recursion and the tests of woken threads exists |
| SchedulerProgress.RestIsComplete | src/core/commandqueue.cpp:366-750 | a state where the runtime and the device can do nothing more has all queued events complete, all queues empty and no thread in `finish` |
| SchedulerProgress.WorkCompletes | src/core/commandqueue.cpp:204-220 | once the host is done, every maximal run ends with all queued events complete, all lists empty and no thread left in `finish`, asleep or woken, also when threads were woken too early and waited again |
| CommandQueues.EventTable.AddDependentEvent | src/core/commandqueue.cpp:752-765 | adds the dependent exactly if the event is not complete, and changes nothing else |
| CommandQueues.EventTable.LinkWaits | src/core/commandqueue.cpp:614-625 | the loop of the constructor computes the iterated link step and releases the event |
| CommandQueues.LinkExact | src/core/commandqueue.cpp:614-625 | the wait set becomes the unfinished entries of the wait list in order, each unfinished event gains the new event as a dependent once per entry, and nothing else changes |
| CommandQueues.LinkReaches | src/core/commandqueue.cpp:614-625 | an undisturbed constructor is a run of the transition system and keeps the invariant |
| CommandQueues.EventTable.RemoveWaitEvent | src/core/commandqueue.cpp:767-779 | removes every occurrence of the completed event and reports whether the wait set is then empty |
| CommandQueues.CommandQueue.BroadcastAll | src/core/commandqueue.cpp:516-517 | all sleeping threads are woken |
| CommandQueues.CommandQueue.QueueEvent | src/core/commandqueue.cpp:234-240 | the whole queue after the append |
| CommandQueues.CommandQueue.TakeInstantaneous | src/core/commandqueue.cpp:484-500 | the event leaves the list before its status changes; counters, flush flag and broadcast |
| CommandQueues.CommandQueue.EraseCompleted | src/core/commandqueue.cpp:414-433 | a completed event leaves the list and both counters |
| CommandQueues.CommandQueue.VisitEvent | src/core/commandqueue.cpp:454-510 | skips, submits, takes off the list or stops exactly as the scan step prescribes |
| CommandQueues.CommandQueue.Iterate | src/core/commandqueue.cpp:410-510 | one loop iteration equals one scan step |
| CommandQueues.CommandQueue.ScanList | src/core/commandqueue.cpp:395-519 | the loop, with erasures during traversal and no advance after a submit, terminates and computes the whole scan; apart from the reported event only commands were dispatched |
| CommandQueues.CommandQueue.EndSection | src/core/commandqueue.cpp:513-519 | flush flag and broadcast at the end of the section |
| CommandQueues.CommandQueue.CountCompletion | src/core/commandqueue.cpp:375-379 | the reported completion moves from one counter to the other |
| CommandQueues.CommandQueue.PushEventsOnDevice | src/core/commandqueue.cpp:366-520 | with or without the early return, the section computes what the transition system prescribes |
| CommandQueues.CommandQueue.CleanEvents | src/core/commandqueue.cpp:272-326 | nothing below the threshold of 16 completions, else a full cleaning |
| CommandQueues.CommandQueue.CleanList | src/core/commandqueue.cpp:288-326 | the erasing loop equals the iterated cleaning step |
| CommandQueues.CommandQueue.Events | src/core/commandqueue.cpp:525-566 | the snapshot never writes past its allocation and holds all, or all unfinished, listed events in order |
| CommandQueues.UnfinishedExact | src/core/commandqueue.cpp:544-553 | the snapshot without completed events names exactly the listed events that are not complete |
| CommandQueues.UnfinishedInOrder | src/core/commandqueue.cpp:540-559 | and in the order of the list |
| CommandQueues.WithoutInOrder | src/core/commandqueue.cpp:767-779 | what stays in a wait set keeps its order |
| CommandQueues.DropDoneExact | src/core/commandqueue.cpp:290-318 | in an in-order queue the longest completed prefix is removed |
| CommandQueues.CleanCallReaches | src/core/commandqueue.cpp:272-326 | a call cleans unless fewer than 16 events are completed while the device is busy and other events are listed; either way it is a run |
| CommandQueues.CleanExact | src/core/commandqueue.cpp:288-326 | cleaning removes exactly the completed events (in-order queues: the leading ones), lowers both counters by their number and wakes sleepers of an empty queue |
| CommandQueues.DrainReaches | src/core/commandqueue.cpp:410-519 | an undisturbed scan is a run of the transition system, keeps the invariant and leaves less work |
| CommandQueues.CleanReaches | src/core/commandqueue.cpp:288-326 | an undisturbed cleaning is a run of the transition system |
| Runtime.PushServes | src/core/commandqueue.cpp:366-520 | a critical section either returns early, and then only counts, or dispatches every entry that a scan takes |
| Runtime.PushExhausts | src/core/commandqueue.cpp:366-520 | and without ready event, instantaneous entry or limit it leaves nothing that a further scan would take |
| Runtime.Scheduler.PushEvents | src/core/commandqueue.cpp:366-520 | push with the recursive completion of an instantaneous event: terminates, is a run, serves its push, consumes exactly the push it executes, and leaves all completions in progress as they were |
| Runtime.Scheduler.SetComplete | src/core/commandqueue.cpp:705-750 | `setStatus(CL_COMPLETE)` with all recursive pushes: terminates, is a run, leaves no push of its own behind |
| Runtime.Scheduler.NotifyDependent | src/core/commandqueue.cpp:722-736 | one iteration of the dependents loop with the nested push |
| Runtime.Scheduler.RemoveWait | src/core/commandqueue.cpp:722-728 | the wait set shrinks, and the results say whether a queue must be pushed and whether it is the own one |
| Runtime.Scheduler.EndNotifying | src/core/commandqueue.cpp:738-746 | the parent queue is pushed unless a dependent of it already was |
| Runtime.Scheduler.CreateUserEvent | src/api/api_event.cpp:160-189 | a new user event, from calm to calm |
| Runtime.Scheduler.BuildEvent | src/core/commandqueue.cpp:571-626 | a new event with exactly its unfinished wait list linked, from calm to calm |
| Runtime.Scheduler.Flush | src/core/commandqueue.cpp:195-199 | from calm to calm; unless the queue is out of order with more than 2 events on a full device, every listed entry that a scan takes is dispatched afterwards, and nothing is left for a further scan if none of them was instantaneous and the limit was not met; in that case nothing changes |
| Runtime.Scheduler.FinishEvent | src/core/commandqueue.cpp:705-750 | from a calm state to a calm state: no pending push, notification or instantaneous event remains when the call returns |
| Runtime.Scheduler.QueueEvent | src/core/commandqueue.cpp:225-253 | append and push, from calm to calm; the push is served on the longer list |
| Runtime.CalmInOrder | src/core/commandqueue.cpp:366-520 | in a calm state the first unfinished entry of an in-order queue is in flight or waits: nothing that could be dispatched is left |
| Runtime.CalmWaits | src/core/commandqueue.cpp:705-779 | in a calm state no event waits for a complete one |
| Runtime.CalmIsComplete | src/core/commandqueue.cpp:366-750 | a calm reachable state with no command in flight and no open user event has every queued event complete |
| Callbacks.Event.SetStatusHelper | src/core/commandqueue.cpp:677-703 | sets the status and calls exactly the callbacks stored for it, in order of registration |
| Callbacks.StoredInOrder | src/core/commandqueue.cpp:688-694 | the calls are the image of the increasing list of exactly the positions registered for the status |
| Callbacks.Event.SetCallback | src/core/commandqueue.cpp:880-904 | calls at once exactly if the status was reached or passed, else stores |
| Callbacks.CallbackExactlyOnce | src/core/commandqueue.cpp:677-904 | over any later operations with descending statuses, a callback registered once is called exactly once if its status was reached at registration or is taken later, and never otherwise |
| Callbacks.StoredFires | src/core/commandqueue.cpp:677-703 | a stored callback fires once if and only if its status is still taken |
| FormatGrammar.ScannerIsGrammar | src/builtins/printf.c:232-315 | on every text the scanner yields a directive and a rest exactly when the grammar derives the directive from the text before that rest |
| FormatGrammar.DirectiveRoundTrip | src/builtins/printf.c:232-315 | scanning the spelling of any well-formed directive gives it back and leaves the rest |
| FormatGrammar.FormatRoundTrip | src/builtins/printf.c:221-465 | a format string that begins with the spelling of any literals and printable directives prints exactly these, in order, and goes on with the rest |
| FormatGrammar.FormatStops | src/builtins/printf.c:221-477 | the routine stops at the end, at a directive that the scanner or the conversion switch rejects, and at one that reaches an unreachable case, exactly there |
| FormatGrammar.StringWidthDropped | src/builtins/printf.c:172-185 | "%5.1s" is rebuilt without its width |
| FormatProofs.NumberExact | src/builtins/printf.c:254-261 | a run of digits is accepted exactly if its value is at most 2147483639, and then that value is read |
| FormatProofs.NumberSound | src/builtins/printf.c:254-261 | whatever is read is the value of the digits consumed and fits an int |
| FormatProofs.DirectiveSound | src/builtins/printf.c:232-315 | scanned directives have widths and precisions within int, and only the vector sizes and lengths that the later switches handle |
| FormatProofs.C99RoundTrip | src/builtins/printf.c:67-91 | the rebuilt directive fits the 1000-byte buffer and a C99 parse gives back flags, width, precision, modifier and conversion |
| FormatProofs.ConvertExact | src/builtins/printf.c:317-456 | which scanned directives are printed, by which helper, and which are rejected or undefined, over the fields of the directive |
| FormatProofs.HelperChosen | src/builtins/printf.c:344-407 | the length switches choose a helper of the right kind whose element size is the one asked for |
| FormatProofs.BuildRoundTrip | src/builtins/printf.c:67-185 | for every scanned directive that is printed: the helper reads elements of the size asked for; its format fits the buffer, takes the promoted type that the helper passes, and converts integers back to the element size; the parsed format means the same if and only if it is not a string with both width and precision |
| Printf.ParseFlags | src/builtins/printf.c:232-252 | the loop equals the flag scanner and never reads past the terminator |
| Printf.ParseNumber | src/builtins/printf.c:254-261 | the loop equals the number scanner; the accumulator stays at most 2147483639 |
| Printf.ParsePrecision | src/builtins/printf.c:264-274 | precision, or -1 |
| Printf.ParseVector | src/builtins/printf.c:277-292 | vector specifier, or 0 |
| Printf.ParseLength | src/builtins/printf.c:295-313 | length modifier |
| Printf.ParseDirective | src/builtins/printf.c:232-322 | a whole directive, or an error, as the scanner prescribes |
| Printf.PrintVector | src/builtins/printf.c:84-89 | component k at position 2k, a comma at every odd position, nothing else |
| Printf.EmitOne | src/builtins/printf.c:221-465 | the output of one item, position by position |
| Printf.EmitSnoc | src/builtins/printf.c:221-465 | the output of more items is appended, with arguments numbered by the directives before them |
| Printf.PrintFormat | src/builtins/printf.c:221-477 | the routine prints the items of the format up to its end or first error, and consumes one argument per directive |
| Printf.PrintedExactly | src/builtins/printf.c:221-477 | component k of argument a is printed by a helper with a format exactly if the a-th directive prescribes it; the helper reads elements of the size asked for and the format takes what it passes |
| Printf.UndefinedExactly | src/builtins/printf.c:330-407 | of the scanned directives, exactly the floating-point ones with h or hh reach a case that the length and vector switches declare unreachable |
| RectCopies.MakeRect | src/core/events.cpp:1038-1135 | in terms of the arguments: which are rejected, and the scaled origins and region and the pitches of those that are accepted, a given pitch being used as it is |
| RectCopies.CheckCopy | src/core/events.cpp:1205-1240 | rejects exactly the copies out of bounds, and in one buffer those whose intervals cross in all three coordinates |
| RectCopies.CopyBufferRect | src/core/events.cpp:1038-1240 | exactly which arguments are accepted; an accepted copy maps the points of the region to distinct bytes inside the buffer, on both sides, at the offsets that the caller's origins and pitches prescribe |
| RectCopies.OffsetInBounds | src/core/events.cpp:1205-1220 | every point of a region that passed the checks lies inside the buffer |
| RectCopies.OffsetInjective | src/core/events.cpp:1205-1220 | different points have different bytes |
| RectCopies.OverlapExact | src/core/events.cpp:1222-1240 | with equal pitches, a copy is rejected as overlapping if and only if the byte sets intersect and the origins differ in all three coordinates |
| RectCopies.OverlapVerdict | src/core/events.cpp:1205-1240 | the verdict on a copy inside one buffer with equal pitches is overlap if and only if it is in bounds, the byte sets intersect and all three origins differ |
| RectCopies.SelfCopyAccepted | src/core/events.cpp:1222-1240 | a rectangle copied onto itself is not rejected |
| RectCopies.PackedInterval | src/core/events.cpp:1490-1505 | the packed side of an image-to-buffer copy writes exactly the interval whose end is compared with the buffer size |
| RectCopies.CheckImageToBuffer | src/core/events.cpp:1490-1502 | the overflow check passes if and only if every byte the packed copy writes is inside the buffer |
| NDRange.CheckRange | src/core/events.cpp:793-889 | accepts exactly the ranges with positive, divisible global sizes within the limits, fills the missing dimensions, and gives each error exactly in its case |
| NDRange.ProductLaws | src/core/events.cpp:834-872 | the work-group size is the product of the local sizes |
| NDRange.PadRange | src/core/events.cpp:876-882 | offsets 0 and sizes 1 in the missing dimensions |
| NDRange.StartGroup | src/core/cpu/kernel.cpp:531-543 | the group origin that the device computes is the global id of the work-item with local id 0, and the number of work-items is the product of the local sizes |
| NDRange.IdOf | include/dsp.h:479-487 | global ids stay in the index space, and group and local id are recovered from them |
| NDRange.GroupOf | src/core/cpu/kernel.cpp:531-543 | every global id of the range is the id of some group and local id |
| NDRange.IdsInjective | src/core/cpu/kernel.cpp:531-543 | different work-items have different global ids, in any number of dimensions |
| NDRange.IdsSurjective | src/core/cpu/kernel.cpp:531-543 | every global id is the id of a work-item |
| NDRange.AcceptedValid | src/core/events.cpp:832-889 | an accepted range meets the hypotheses of the partition in all device dimensions, and the product of the local sizes is within the device limit |
| Saturation.AddSatExact | include/dsp.h:281-292 | add_sat is the clamped sum |
| Saturation.SubSatExact | include/dsp.h:331-343 | sub_sat is the clamped difference if and only if the subtrahend is not the lowest value |
| Saturation.MadGuards | include/dsp.h:436-444 | the four guards with truncated quotients find exactly the products outside the range |
| Saturation.MadSatValue | include/dsp.h:436-444 | no wrap-around: the clamped sum if the product fits, else the clamped product |
| Saturation.MadSatExact | include/dsp.h:436-444 | equals the clamped multiply-add if and only if the addend does not bring an overflowing product back |
| Saturation.MadSatUnsignedExact | include/dsp.h:446-450 | for a nonzero second factor, the smaller of a*b + c and the largest value |

## Left out

- Error statuses: a negative status takes another path through `setStatus`; the theorems are for error-free runs.
- Reference counts, deletion of events and queues, and the list of released events.
- Profiling timestamps, `info()` queries, and `clSetCommandQueueProperty` while events are queued.
- Device drivers and `initEventDeviceData`: the device completes each submitted event at any time.
- The checks of the `Event` constructor for null and erroneous wait lists, and a marker on an empty queue, which fails them.
- `waitForStatus` and `clWaitForEvents`: sleeping on an event condition is modelled only for `finish`.
- Spurious wake-ups of a condition variable: a thread in `finish` wakes only on a broadcast.
- Callbacks are not part of the transition system: they do not change scheduler state.
- Runtime.Scheduler: one thread only; other threads may interleave in the transition system, not in the class.
- CommandQueues.CommandQueue: event statuses do not change under a scan in the class; they do in the transition system.
- The printed text itself: what C99 printf does with a directive is not modelled, only which directives it receives.
- The h and hh lengths of floating-point directives: the routine's behaviour there is reported as undefined.
- RectCopies.CheckCopy: wrap-around of size_t products is not modelled, because the checks are stated on unbounded naturals.
- NDRange.IdOf: for the DSP device the group origin `offset + group * local` is an assumption; include/dsp.h:483 reads it from the kernel configuration, and the code that writes it per group is not part of this model.
- NDRange.GroupOf: the same assumption for the DSP device.
- NDRange.IdsInjective: the same assumption for the DSP device.
- NDRange.IdsSurjective: the same assumption for the DSP device.
- NDRange.CheckRange: reqd_work_group_size, guessed local sizes and argument alignment are not modelled, and neither is wrap-around of the work-group product.
- Saturation: the narrower types use DSP intrinsics that are not part of this model.
- The compiler driver, contexts, programs, memory management and kernel-side plumbing.
