# The sensors multi-HAL proxy and the manifest passes

This project models the concurrent core of the device's sensors service and proves what it promises:

- the HAL proxy (`sensors/HalProxy.cpp`): the pending-events pipeline, the reference count behind the
  shared system wake lock, sensor handles and routing, the advertised sensor list, the direct-channel owner,
  dynamic sensors and operation modes;
- the callback that prepares a sub-HAL's events (`sensors/HalProxyCallback.cpp`);
- the local sub-HAL and its one-shot sensor that polls a sysfs file (`sensors/SensorsSubHal.cpp`,
  `sensors/Sensor.cpp`);
- the two passes over the manifest of proprietary files (`update-sha1sums.py`).

## How it is built

The objects of the program are classes (`HalProxy`, `HalProxyCallback`, `SensorsSubHal`,
`SysfsPollingOneShotSensor`) whose methods follow the program's functions, loops included. Each method is proved against a
function on values (`ProxyCore`, `Registry`, `DynamicSensors`, `OperationModes`, `OneShotSensor`, `Manifest`).
A sensor handle is its top byte and its other 24 bits; `Handles.TagIsOr`, `Handles.ClearIsMask` and
`Handles.ExtractIsShift` prove that the operations on these parts are the program's or, mask and shift of the word
(`Bits`).

What other threads do in between is the subject of two transition systems over the same functions:

- `Protocol`: a posting thread inside the event-queue mutex (enter, measure, write, leave), the pending-writes thread
  (take, write, refund, commit, exit), the wake-lock thread (time out, begin, read, apply, exit), the
  framework (read events, acknowledge), scoped wake locks (create, release) and the main thread (stop, drain,
  restart). The pending-writes thread works without the mutex from the take to the commit, and the wake-lock
  thread without its own from the read to the application. The program tests whether the threads run before it takes
  the wake-lock mutex. While they run, test and section are one step; a stop may catch any number of threads in between
  (`inside`), and each of them may still take its step late, as if the threads ran (`Late`). `Pipeline`, `WakeLocks`,
  `Accounting` and `Runs` prove properties of all reachable states and of all runs, late steps included.
- `OneShotProtocol`: the polling thread among activations and mode changes.

`Runs.PostIsFourSteps`, `Runs.TurnIsWriterSteps`, `Runs.WakerTurnIsSteps`, `Runs.StopIsSteps` and
`Runs.RestartIsInitialization` connect the two views: a method that nothing interferes with is the run of its steps.
What the functions on values mean is stated field by field beside them (`ProxyCore.PostNowMeans`,
`Registry.AdvertisedFields`, `Events.ProcessedKeeps`, `Manifest.HashIsOfNamedFile` and others).

The log of a run records the events posted, written and lost, and for each pending batch the post it came from. `Owed` counts the wake-up events that are pending, in a
post's hands, in the event queue, read but not acknowledged, or acknowledged but not yet processed. `leaked` counts the
references nobody will return: those of events dropped on overflow, and the count that survives a re-initialisation.

## What the code does not provide

Five plausible properties are false of the code. Each has a concrete run, and the condition under which the code
does provide it:

- *The count covers the live scoped wake locks and the events owed.* A queued remainder keeps the wake-up count of the whole
  post, so that the refund for a failed write may take the references of delivered events
  (`Runs.RefundOfRemainderIsTooLarge`); it takes exactly those of the part of the post that was dealt with before
  (`Batches.RefundIsOfWholePost`). `Short` says by how much a step falls short: a refund by what exceeds the chunk's
  wake-up events, a time-out by what is owed, a post without a locked wake lock by its wake-up events, a tied release
  by one. From balance the count covers them after a step if and only if this is at most the references left behind
  (`WakeLocks.ShortfallsAreExact`); over any run the count is at least live, owed and left behind together, less
  what the steps since the last initialisation fell short (`Accounting.CountWithinShorts`).
- *A held wake lock has references.* A scoped wake lock outdated by a time-out is still locked, and a post of ordinary
  events under it acquires the system wake lock for no reference; the wake-lock thread then sleeps on
  (`Runs.WakeLockHeldForNothing`). `WakeLocks.HeldForNothingStep` proves that exactly such a post, at a count of zero, breaks
  the property, and `Accounting.HeldForNothingExactly` that it is broken exactly until the next reference comes.
  With no shortfall the scoped wake lock is then an outdated one (`Accounting.IdleLockIsStale`), so that posts under
  newer ones keep the property.
- *A stopped proxy forgets its references.* Decrements do nothing while the threads are stopped, and so the count
  survives a re-initialisation (`Runs.StopKeepsReferences`). The count afterwards is the count at the stop and what
  threads add or take that tested the flag before it (`WakeLocks.StoppedStep`, `Runs.ReinitializationKeepsCount`); such
  a thread may leave a reference where none was (`Runs.LateAcquisitionSurvives`). The count can change if and only if
  the stop caught a thread between its test and its section (`Runs.StopIsCleanExactly`). When it caught none, and no step fell
  short before, the new count is zero if and only if nothing was held, owed or left behind at the stop.
- *An old scoped wake lock takes no newer reference.* It does when the reset reads the same clock value as the last
  acquisition (`Runs.TiedReleaseTakesNewerReference`); a reset by time-out never does (`Runs.TimeoutsNeverTie`).
  `Runs.ReleaseTakesOwnReference` proves that the release takes nothing if and only if the count is zero or the stamp is
  older than the reset.
- *A sensor that is off posts nothing.* A poll that is under way when the sensor is switched off may still see the file
  change (`OneShotProtocol.EventAfterDisable`). An event comes exactly when the loop resumes from such a poll and then
  reads the file as set (`OneShotProtocol.EventsComeFromTriggers`); after a switch-off that finds no poll under way none
  comes, otherwise at most one (`OneShotProtocol.OffSensorFinishesItsPoll`), and one can come if and only if the thread
  is inside the poll or on its way back from one that saw the file change (`OneShotProtocol.OffSensorPostsExactly`).

Also, a sub-HAL beyond the 128th is unreachable (`Registry.RoutingRoundTrip`). In `update-sha1sums.py` the module-level
flag suggests that entries above the first comment are left alone; the function assigns the name and so has its own,
unbound, local variable, and the pass fails there. The model follows the code.

## Assumptions

- The clock is monotonic, and its readings are not negative.
- The framework acknowledges at most the wake-up events it has read.
- No post is inside the event-queue mutex while `initialize` clears the pending queue, which it does without the mutex.
- A write to the event queue is all or nothing. The blocking write either finds room and succeeds, or fails.
- The queue cap and the time-out are parameters; the index mask is the top byte. The headers that define them, and
  the classes `ScopedWakelock` and `HalProxyCallbackBase` beyond the functions cited, are not part of this model.
  A scoped wake lock is taken to hold one reference, acquired with a stamp and given back with that stamp.
- `getSensorInfo` is taken to be a lookup in the registry, with the default entry for unknown handles.
- Each sensor object belongs to one sub-HAL.
- Sub-HALs other than the local one are foreign code: their answers to mode changes are parameters, and their
  initialisation is taken to bring them up in the normal mode.

## Model

| member | source | states |
|---|---|---|
| Pipeline.DeliveryIsOrderedAndComplete | sensors/HalProxy.cpp:579-697 | In every reachable state, with any interleaving, the events written followed by those still to be written are the posted events in order without the lost ones, as multisets nothing else is missing, and the two are equal exactly when nothing was lost |
| Pipeline.QueueCountersHold | sensors/HalProxy.cpp:608-616 | In every reachable state the size counter is the number of queued events, batches are not empty, the size is at most the high-water mark and that at most the cap, and the writer's subtraction never underflows |
| Pipeline.SingleWriter | sensors/HalProxy.cpp:587-616 | While the writer works unlocked its batch stays first and unchanged and no post writes directly; a direct write always has room; the framework reads in writing order |
| Pipeline.QueueStep | sensors/HalProxy.cpp:675-696 | Every step keeps the queue invariant, including that a batch's stored wake-up count covers its events; so do late steps (`Pipeline.QueueMove`) |
| Pipeline.OrderStep | sensors/HalProxy.cpp:579-697 | Every step keeps the posted events accounted for in order; so do late steps (`Pipeline.OrderMove`) |
| Pipeline.LossesAreExact | sensors/HalProxy.cpp:594-606 | Lost events only accumulate, and a step loses some if and only if it is a post that ends without room, a failed blocking write, or a re-initialisation with events pending |
| Pipeline.CompleteRunsExactly | sensors/HalProxy.cpp:579-697 | At the end of a run the events written and still to be written are the posted ones if and only if none of its steps was one of these three |
| Pipeline.DrainTurn | sensors/HalProxy.cpp:591-616 | One turn of the writer keeps a drain ordered and complete, and refunded unless the threads were stopped, and comes one turn closer to its end |
| Accounting.ReferencesWithinDebt | sensors/HalProxy.cpp:596-606 | While the threads run the count never exceeds live scoped wake locks of this epoch plus events owed plus references left behind, whatever fails or times out |
| Accounting.ReferencesMatchDebt | sensors/HalProxy.cpp:672-674 | The count is exactly that sum unless a step since the last initialisation fell short |
| WakeLocks.ShortfallsAreExact | sensors/HalProxy.cpp:699-729 | A step widens the gap between the references due and the count by at most its shortfall, and from balance by exactly that: imbalance comes exactly from a refund above the chunk's wake-up events, a time-out with events owed, an unlocked wake-up post, or a release that ties with the reset, and the count still covers live scoped wake locks and events owed if and only if the shortfall is at most the references left behind |
| Accounting.CountWithinShorts | sensors/HalProxy.cpp:699-729 | In every run the count is at most live, owed and left behind together, and at least that less the shortfalls since the last initialisation |
| Accounting.AwakeWhileOwed | sensors/HalProxy.cpp:625-648 | With no shortfall the system wake lock is held while a wake-up event is pending or unacknowledged or a scoped wake lock of this epoch lives |
| Accounting.HeldWhenCounted | sensors/HalProxy.cpp:703-728 | A positive count implies a held wake lock in every reachable state; one held without a count is remembered in the log as acquired for no reference |
| WakeLocks.HeldForNothingStep | sensors/HalProxy.cpp:668-729 | A step breaks "held if and only if counted" exactly when it is a post of ordinary events under a locked scoped wake lock at a count of zero; once broken it stays so exactly while the count is zero |
| Accounting.HeldForNothingExactly | sensors/HalProxy.cpp:668-729 | At the end of any run the wake lock is held for nothing if and only if some step was such a post and the count has been zero since |
| Accounting.IdleLockIsStale | sensors/HalProxy.cpp:672-674 | At a count of zero, with no shortfall, only scoped wake locks from before the last reset are locked, and only posts under them acquire for nothing |
| WakeLocks.HolderStep | sensors/HalProxy.cpp:662-666 | Every step keeps the stamps of live scoped wake locks on their side of the last reset; so do late steps (`WakeLocks.HolderMove`) |
| Runs.CountWithoutOverflow | sensors/HalProxy.cpp:625-729 | From a first initialisation at any time, while no post overflows, the count is at most live scoped wake locks plus events owed, with failed writes and time-outs allowed, and equal while no step falls short |
| Runs.UndisturbedRunsAreExact | sensors/HalProxy.cpp:668-697 | From a first initialisation at any time, without failed writes and time-outs, and with posts that hold the lock, the count is exactly live scoped wake locks plus events owed plus overflowed wake-up events |
| Runs.CountIsLiveHolders | sensors/HalProxy.cpp:650-666 | In every run of acquisitions, releases and time-out resets the count is the number of live scoped wake locks created since the last reset |
| Runs.ReleaseTakesOwnReference | sensors/HalProxy.cpp:715-729 | Releasing a scoped wake lock from before the last reset changes nothing if and only if the count is zero or the stamp is older than the reset, as it is when the reset read a later clock; releasing a newer one gives back one reference |
| Runs.TimeoutsNeverTie | sensors/HalProxy.cpp:650-660 | A time-out reset reads a clock past the last acquisition |
| Runs.DrainTakesExactly | sensors/HalProxy.cpp:583-617 | With no post ending and any interleaving and failures, turns taken plus turns to go are constant: the queue is empty exactly after the sum over batches of length over capacity, rounded up |
| Runs.PostIsFourSteps | sensors/HalProxy.cpp:668-697 | A post without interference is its four protocol steps |
| Runs.TurnIsWriterSteps | sensors/HalProxy.cpp:586-616 | A writer's turn without interference is its protocol steps |
| Runs.WakerTurnIsSteps | sensors/HalProxy.cpp:628-645 | A turn of the wake-lock thread without interference is its protocol steps |
| Runs.StopIsSteps | sensors/HalProxy.cpp:537-552 | A stop without interference is its protocol steps: the count stays, the event queue is emptied, an acknowledgement of nothing is written |
| Runs.RestartIsInitialization | sensors/HalProxy.cpp:213-261 | The re-initialisation step empties the pending queue, resets the wake lock's time, keeps the count, and has new empty queues and running threads |
| Runs.RefundOfRemainderIsTooLarge | sensors/HalProxy.cpp:598-605 | A reachable state where a delivered wake-up event is unread, the count is zero and the wake lock is released |
| Runs.WakeLockHeldForNothing | sensors/HalProxy.cpp:672-674 | A reachable state where the wake lock is held, nothing is counted or owed, and the wake-lock thread has no step |
| Runs.WakerActsOnReferences | sensors/HalProxy.cpp:625-648 | In every reachable state with running threads the wake-lock thread has a step if and only if something is counted or it is in the middle of a turn |
| Runs.WriterActsOnPending | sensors/HalProxy.cpp:579-617 | In every reachable state with running threads the pending-writes thread has a step if and only if it is in the unlocked part of a turn or events are pending and no post has the mutex; a post that has it can go on |
| WakeLocks.StoppedStep | sensors/HalProxy.cpp:701-717 | While the threads are stopped a step changes the count by exactly what a thread that tested the flag before the stop adds or takes, each such thread once, and by nothing otherwise; only the re-initialisation starts them again |
| Runs.ReinitializationKeepsCount | sensors/HalProxy.cpp:213-261 | After a stop, any steps and a re-initialisation the count is the one at the stop and what late threads added or took, with nothing held or owed in the new epoch; with none caught inside and no shortfall it is zero if and only if nothing was held, owed or left behind at the stop |
| Runs.StopIsCleanExactly | sensors/HalProxy.cpp:701-717 | The count of a stopped proxy can change before the next initialisation if and only if the stop caught a thread between its test of the flag and its section |
| Runs.LateAcquisitionSurvives | sensors/HalProxy.cpp:701-717 | A run from a state with nothing counted, held or owed to a re-initialised one with a count of one that nobody can give back |
| Runs.StopKeepsReferences | sensors/HalProxy.cpp:717-717 | A reachable state after re-initialisation where a reference is counted that nobody owes or can give back |
| Runs.TiedReleaseTakesNewerReference | sensors/HalProxy.cpp:723-725 | A reachable state where releasing an old scoped wake lock lowers the count of newer ones |
| ProxyCore.PostNowMeans | sensors/HalProxy.cpp:668-697 | A post without interference writes everything if it fits, as much as there is room for if it does not, and nothing while older events wait or when the write fails; the rest becomes one batch with the wake-up count of the whole post, or is lost above the cap; under a locked wake lock the count grows by all its wake-up events and the time-out starts again |
| Batches.RestIsQueued | sensors/HalProxy.cpp:687-692 | However the threads interleave, a post that ends with room queues exactly what it has not written, with the wake-up count of all of it; otherwise it changes no field |
| Batches.BatchesKeepTheirPost | sensors/HalProxy.cpp:598-616 | In every reachable state each pending batch is the end of one post and stores the wake-up count of that whole post |
| Batches.RefundIsOfWholePost | sensors/HalProxy.cpp:596-606 | In every reachable state a failed write of a batch's last chunk lowers the count by the wake-up events of the whole post it came from, and of an earlier chunk by those of the chunk; for a post queued whole that fits one chunk it is exactly its own |
| Batches.HighWaterMark | sensors/HalProxy.cpp:693-694 | The high-water mark is the largest size the pending queue had in the run |
| Timeouts.AcquisitionsRestartTimeout | sensors/HalProxy.cpp:699-713 | Every acquisition, by a scoped wake lock or a post under one, sets the start of the time-out to its clock, whatever it adds, and nothing else changes it; the reset time is the clock of the last reset |
| Timeouts.TimeoutsFollowAcquisitions | sensors/HalProxy.cpp:650-660 | In every run the wake-lock thread times out only more than the time-out after the last acquisition, and waits for an acknowledgement only until then |
| ProxyCore.RefundsCoverDrops | sensors/HalProxy.cpp:590-616 | For every batch and every pattern of failed chunks the refunds are at least the dropped wake-up events, and equal exactly when the last chunk is written or the stored count is that chunk's own |
| ProxyCore.RefundCoversChunk | sensors/HalProxy.cpp:598-605 | One refund covers the failed chunk, and is exact if and only if the chunk is not the batch's last or the stored count is the batch's own |
| ProxyCore.TurnMakesProgress | sensors/HalProxy.cpp:588-616 | A turn handles between one event and a queue's capacity, lowers the size counter, and comes one turn closer to the end |
| ProxyCore.NoCapacityNoProgress | sensors/HalProxy.cpp:589-616 | With an event queue of capacity zero a turn changes nothing, so that the condition on progress is needed |
| ProxyCore.ChunksIsCeiling | sensors/HalProxy.cpp:590-590 | The number of chunks is the batch length over the capacity, rounded up |
| ProxyCore.FinishPostKeepsCounters | sensors/HalProxy.cpp:687-696 | Queueing or dropping the rest of a post keeps counters, high-water mark and cap |
| HalProxyObject.HalProxy.PostEventsToMessageQueue | sensors/HalProxy.cpp:668-697 | The method leaves the fields and the event queue that the post function describes |
| HalProxyObject.HalProxy.HandlePendingWrites | sensors/HalProxy.cpp:579-619 | Ended by a stop at any point or by an empty queue, the drain loop has split the events in order into written, still queued and dropped; the framework reads what was written, in order; the count is lowered by at least the dropped wake-up events, except those of a write that failed when the threads stopped; and the queue is exactly the turns taken closer to its end |
| HalProxyObject.HalProxy.WriteFrontChunk | sensors/HalProxy.cpp:587-616 | One turn of the writer: the framework reads, the chunk is written if there is room, a stop may come, then refund and commit |
| HalProxyObject.HalProxy.CountNumWakeupEvents | sensors/HalProxy.cpp:754-763 | Counts the wake-up events; the default entries it inserts for unknown handles change no later lookup |
| HalProxyObject.HalProxy.IncrementRefCountAndMaybeAcquireWakelock | sensors/HalProxy.cpp:699-713 | New count, stamp and wake lock; nothing when stopped |
| HalProxyObject.HalProxy.DecrementRefCountAndMaybeReleaseWakelock | sensors/HalProxy.cpp:715-729 | Saturating decrement, refused for stamps older than the last reset; nothing when stopped |
| HalProxyObject.HalProxy.ResetSharedWakelock | sensors/HalProxy.cpp:662-666 | All references go and the reset time is the clock |
| HalProxyObject.HalProxy.SharedWakelockDidTimeout | sensors/HalProxy.cpp:650-660 | Times out exactly past the time-out; otherwise the time left ends at it |
| HalProxyObject.HalProxy.HandleWakelocksTurn | sensors/HalProxy.cpp:628-645 | One turn of the wake-lock thread: reset on time-out, otherwise the acknowledged references go |
| HalProxyObject.HalProxy.InitializeCommon | sensors/HalProxy.cpp:213-275 | Re-initialisation empties the pending queue and the dynamic sensors, switches off every advertised sensor, brings all sub-HALs and their sensors into the normal mode; it installs new queues and event flags and starts the threads; the status is the last sub-HAL's failure, or that of a missing callback or event flag, and none of them stops it |
| HalProxyObject.HalProxy.Quiesce | sensors/HalProxy.cpp:219-224 | Stopping and resetting leaves the reference count as it was |
| HalProxyObject.HalProxy.DisableAllSensors | sensors/HalProxy.cpp:563-573 | Every sensor that a registered or dynamic handle reaches is off |
| HalProxyObject.HalProxy.Activate | sensors/HalProxy.cpp:161-167 | Reaches exactly the one sensor that the handle routes to, or fails and changes nothing |
| HalProxyObject.HalProxy.SetOperationMode | sensors/HalProxy.cpp:138-159 | The modes of all sub-HALs and of the proxy after acceptance or roll-back; sensors that were in the mode of their sub-HAL still are |
| HalProxyObject.HalProxy.InitializeSensorList | sensors/HalProxy.cpp:489-515 | The loops build the registry that the lemmas below describe |
| HalProxyObject.HalProxy.SetDirectChannelFlags | sensors/HalProxy.cpp:731-744 | Owner and kept flags for one sensor |
| HalProxyObject.HalProxy.ConfigDirectReport | sensors/HalProxy.cpp:337-352 | Where a direct report goes |
| HalProxyObject.HalProxy.OnDynamicSensorsConnected | sensors/HalProxy.cpp:396-414 | Table and report after a connection |
| HalProxyObject.HalProxy.OnDynamicSensorsDisconnected | sensors/HalProxy.cpp:416-436 | Table and report after a disconnection |
| OperationModes.SetModeMeans | sensors/HalProxy.cpp:138-159 | Sub-HAL by sub-HAL: all in the new mode on full acceptance; otherwise untouched from the first refusal on, and before it back in the current mode if they accept that and in the new mode if not |
| OperationModes.SetModeAllOrNothing | sensors/HalProxy.cpp:138-159 | From agreement, all sub-HALs and the proxy agree afterwards if and only if all accept, or all that had changed go back, or nothing was to change; the proxy's mode changes exactly on full acceptance |
| OperationModes.CallsKeepAgreement | sensors/HalProxy.cpp:138-159 | With sub-HALs that obey when asked to go back, all are in the proxy's mode after every sequence of calls |
| Handles.HandlesAreWords | sensors/HalProxy.cpp:57-59 | Handles, as pairs of parts, are exactly the 32-bit words |
| Handles.TagIsOr | sensors/HalProxy.cpp:57-59 | Tagging is the bitwise or of the word with the index shifted by 24 in 32 bits |
| Handles.ClearIsMask | sensors/HalProxy.cpp:765-771 | Clearing is the mask of the lower 24 bits, and an index is clear exactly when the word under the index mask is zero |
| Handles.ExtractIsShift | sensors/HalProxy.cpp:68-70 | Extraction is the arithmetic shift of the signed word, converted to 64 unsigned bits |
| Handles.HandleRoundTrip | sensors/HalProxy.cpp:57-70 | Tagging and clearing are inverse, and the index comes back exactly below 128 |
| Handles.HandleDecomposition | sensors/HalProxy.cpp:765-771 | Every non-negative handle is its cleared part tagged with its index |
| Handles.TaggingIsInjective | sensors/HalProxy.cpp:57-59 | Different sensors or sub-HALs get different handles |
| Handles.NegativeHandlesAreRejected | sensors/HalProxy.cpp:750-752 | A negative handle has no valid sub-HAL index |
| Registry.SensorListIsUnion | sensors/HalProxy.cpp:489-515 | The registry holds exactly the sensors offered, each under its own global handle and as published; the direct owner is the first sub-HAL to offer a direct channel |
| Registry.AdvertisedFields | sensors/HalProxy.cpp:489-515 | Field by field, for every offered sensor: handle renamed, wake-up flag, other flags and details as offered, direct flags as offered at the owner and cleared elsewhere, type and type string as offered except that an oplus tilt detector becomes a pick-up gesture |
| Registry.DirectOwnerIsFirst | sensors/HalProxy.cpp:731-744 | The direct channel belongs to a sub-HAL if and only if it is the first with a sensor that has direct-report or direct-channel flags |
| Registry.OffersAreDisjoint | sensors/HalProxy.cpp:489-515 | A global handle stands for one sensor of one sub-HAL |
| Registry.AdvertisedHandlesRoute | sensors/HalProxy.cpp:161-167 | Every advertised handle reaches its sub-HAL under the local handle, and that sensor's events carry the advertised handle |
| Registry.RouteMeans | sensors/HalProxy.cpp:746-752 | A handle is routed if and only if its top byte is the index of a sub-HAL below 128, to that sub-HAL under the lower 24 bits |
| Registry.ConfigRouteMeans | sensors/HalProxy.cpp:337-352 | Without owner an invalid operation; the handle -1 is a bad value unless it stops all reports, when it is passed on as it is; any other goes to the owner under its lower 24 bits |
| Registry.RoutingRoundTrip | sensors/HalProxy.cpp:746-752 | A tagged handle routes back if and only if the index is below 128 |
| Registry.DirectReportsReachOwner | sensors/HalProxy.cpp:337-352 | A sensor advertised with direct-channel flags is configured at its own sub-HAL; any other reaches its own if and only if that is the owner |
| Registry.TiltDetectorIsFiltered | sensors/HalProxy.cpp:499-504 | A re-typed tilt detector's events are suppressed exactly when their scalar is not zero |
| DynamicSensors.ConnectReportsKeys | sensors/HalProxy.cpp:396-414 | A connection report names exactly the tagged sensors now in the table; all others stay |
| DynamicSensors.ConnectReportsInOrder | sensors/HalProxy.cpp:396-414 | The report holds, in order, exactly the added sensors with local handles, renamed and otherwise unchanged |
| DynamicSensors.TableHoldsReports | sensors/HalProxy.cpp:396-414 | The table holds the sensor reported last under each handle |
| DynamicSensors.DisconnectReportsInOrder | sensors/HalProxy.cpp:416-436 | The report keeps the order of the handles removed |
| DynamicSensors.DisconnectReportsKeys | sensors/HalProxy.cpp:416-436 | A disconnection report names, once each, exactly the sensors that leave the table |
| DynamicSensors.ReportsMatchTable | sensors/HalProxy.cpp:396-436 | After any calls, with reports of different sub-HALs overtaking each other, framework and table agree about every sub-HAL with no report in flight |
| DynamicSensors.SubHalsTouchDisjointKeys | sensors/HalProxy.cpp:406-426 | Calls of different sub-HALs touch different keys |
| HalProxyCallbacks.HalProxyCallback.ProcessEvents | sensors/HalProxyCallback.cpp:65-88 | The loop yields the tagged events that are not suppressed, and the number of wake-up events among them |
| HalProxyCallbacks.HalProxyCallback.PostEvents | sensors/HalProxyCallback.cpp:41-58 | Nothing happens for no events or stopped threads; otherwise the processed events are posted with their count |
| HalProxyCallbacks.HalProxyCallback.PostScoped | sensors/SensorsSubHal.cpp:147-150 | After a post under a scoped wake lock one reference stays for each wake-up event, and the wake lock is held exactly if any reference is left |
| Events.ProcessedKeeps | sensors/HalProxyCallback.cpp:69-86 | Exactly the events come out, in order, whose renamed handle is not registered as a pick-up gesture or whose scalar is zero; their handle is renamed, the handle in the payload only for dynamic-sensor reports, and nothing else is changed |
| Events.CountWakeMeans | sensors/HalProxy.cpp:754-763 | The wake-up count is the number of positions whose handle is registered with the wake-up flag |
| Events.ProcessedAppend | sensors/HalProxyCallback.cpp:65-88 | Splitting a post changes neither events nor wake-up count |
| SubHal.LastFailureMeans | sensors/HalProxy.cpp:265-272 | The status of the initialisation is the last failure of a sub-HAL, and the earlier status when there is none |
| SubHal.SensorsSubHal.SetOperationMode | sensors/SensorsSubHal.cpp:49-55 | The loop sets the mode of every sensor, or a refusal changes nothing |
| SubHal.SensorsSubHal.Activate | sensors/SensorsSubHal.cpp:57-64 | Switches exactly the sensor with this handle, or fails |
| OneShotProtocol.FieldsFollowSteps | sensors/Sensor.cpp:262-318 | What each step does to the fields: activation and event set whether the sensor is enabled, a failed poll ends the thread, each change of activation and each written interrupt adds a byte, a merely interrupted turn reads one |
| OneShotProtocol.HeadDecides | sensors/Sensor.cpp:295-303 | The loop ends exactly when told to stop, polls exactly when the sensor is enabled in the normal mode, and waits otherwise |
| OneShotProtocol.OneEventPerEnable | sensors/Sensor.cpp:292-320 | Events posted by the polling loop plus one for an enabled or polling sensor never exceed the enablings, whatever lands during the poll |
| OneShotProtocol.NoLostInterrupt | sensors/Sensor.cpp:283-304 | A thread that polls although it must not run has an interrupt to read or about to be written; a thread that waits although it may run has been notified |
| OneShotProtocol.InterruptEndsPolling | sensors/Sensor.cpp:303-318 | Then poll cannot block, and the next turn ends in a wait or at the exit, whatever poll reports |
| OneShotProtocol.InterruptedTurnReadsOneByte | sensors/Sensor.cpp:315-317 | A turn that was only interrupted uses up one byte and changes nothing else |
| OneShotProtocol.EventsComeFromTriggers | sensors/Sensor.cpp:306-318 | A step posts an event if and only if the loop resumes from a poll that did not fail and saw the file change, and then reads it as set |
| OneShotProtocol.OffSensorFinishesItsPoll | sensors/Sensor.cpp:292-320 | In every run without an enabling a sensor that is off stays off, and posts at most the one event of a poll under way |
| OneShotProtocol.OffSensorPostsExactly | sensors/Sensor.cpp:301-314 | Some run without an enabling posts if and only if the thread is polling, or back from a poll that saw the file change |
| OneShotProtocol.EventAfterDisable | sensors/Sensor.cpp:312-314 | A reachable state where a switched-off sensor's next turn posts an event |
| OneShotSensor.SysfsPollingOneShotSensor.RunSection | sensors/Sensor.cpp:304-318 | One turn of the loop under the lock, and what it does next |
| OneShotSensor.SysfsPollingOneShotSensor.Activate | sensors/Sensor.cpp:262-285 | Changes the state and interrupts only on a change |
| OneShotSensor.SysfsPollingOneShotSensor.SetOperationMode | sensors/Sensor.cpp:287-290 | Sets the mode and always interrupts |
| Manifest.Cleanup | update-sha1sums.py:32-39 | The in-place loop yields the cleaned lines |
| Manifest.Update | update-sha1sums.py:42-64 | The in-place loop succeeds exactly when every line can be treated and yields the updated lines; on failure the lines above the first bad one are rewritten and the others are not |
| Manifest.HashIsOfNamedFile | update-sha1sums.py:53-64 | Under a comment that asks for hashes a line gets the hash of the file named between the last colon and the first semicolon, without one leading dash, in place of any hash it had; it fails for an empty path and for a missing file |
| Manifest.EveryEntryHasPath | update-sha1sums.py:57-57 | Every entry has such a path |
| Manifest.FlagIsNearest | update-sha1sums.py:48-51 | Whether a line is to be hashed is whether the nearest comment above has a dash between two spaces |
| Manifest.OtherLinesStay | update-sha1sums.py:42-53 | Blank lines, comments and entries under other comments stay; an entry above all comments fails |
| Manifest.CleanedMeans | update-sha1sums.py:32-39 | Cleaning cuts each line that is not a comment at its first bar |
| Manifest.UpdateSucceeds | update-sha1sums.py:48-64 | Updating succeeds if and only if every entry has a comment above it and every pinned entry names an existing file |
| Manifest.UpdateKeepsEntries | update-sha1sums.py:42-64 | The number of lines, blank lines, comments, unpinned entries and the text before every hash survive |
| Manifest.CleanupAfterUpdate | update-sha1sums.py:32-64 | Cleaning after updating is cleaning |
| Manifest.UpdateIsIdempotent | update-sha1sums.py:42-64 | With the same files a second update changes nothing |
| Manifest.UpdateAfterCleanup | update-sha1sums.py:32-64 | Updating after cleaning is updating if and only if no unpinned entry contains a bar |
| Manifest.AfterLastSplits | update-sha1sums.py:57-57 | The part taken for the path is the end of the text behind the last separator, or all of it when there is none |
| Manifest.ContainsMeansOccurs | update-sha1sums.py:50-50 | The section flag is the occurrence of the separator anywhere in the comment |

## Left out

- HalProxyObject.HalProxy.HandlePendingWrites: nobody posts while it runs, and it returns where the thread would wait; posts in
  between and the wait are in the transition system.
- HalProxyObject.HalProxy.InitializeCommon: the two threads are one flag, joinable or not; what they do is in the
  transition system.
- OneShotSensor.SysfsPollingOneShotSensor.Activate: does not show the lock and the condition variable; the
  transition system does.
- The wake-lock thread's loop as a method: it is one method per turn, and a thread of the transition system.
- Wrap-around of the reference count and of the size counter at 2^64, which the cap excludes for the latter.
- The data race between `countNumWakeupEvents`, which may insert into the registry, and readers of the registry.
- What a time left of zero means to the wake-lock queue's blocking read: the read may succeed or fail at any time.
- Loading sub-HAL libraries, the configuration file, binder interfaces, logging and the debug dump: input and output.
- The insides of the message queues, event flags and the kernel's wake lock.
- Starting and joining threads, the thread started from a base constructor, and the destruction of the polling sensor.
- The pacing of the base sensor's loop, sensor metadata, injected events, and conversions between interface versions.
- `batch`, `flush` and data injection in the proxy, which route as `activate` does.
- Reading and writing the manifest file, and the hash function, which is a map from paths to hex text.
- `init/init_oplus.cpp`, `power/power-feature.cpp`, scripts, build files and overlays: finite configuration.
