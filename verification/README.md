# Sideband audio and secure-service protocols: a verified model

This project models the parts of the driver samples in which the order of events matters, and proves what
they keep in every order.

* **Sideband devices of the audio adapter** (`SidebandLifecycle`, `SidebandAdapter`). PnP callbacks create and
  remove Bluetooth hands-free devices, a work item starts and stops them, and a cleanup tears everything down.
  A step of the machine is one mutex section, one interlocked or framework call, or one call into a device; the
  theorems are about every interleaving. The class has the methods of the code, and each method is shown to be a
  run of the machine.
* **One hands-free device** (`NotificationPump`, `HandsFreePump`, `StreamHandshake`, `HandsFreeStream`). Status
  requests circulate between the I/O target, completion routines, a collection and a work item, with an error
  budget, until the device is stopped. A separate status request and an event bracket each stream.
* **USB transport resources** (`UsbTransport`). Starting a stream obtains four or seven buffers, all or none.
* **Ownership in the adapter** (`PowerRelations`, `SubdeviceCache`, `RegistryCopy`, `References`). An intrusive
  ring of power dependencies and the answer to a power-relations query, the cache of installed subdevices, and
  the recursive copy of a registry key.
* **Tone generator** (`ToneGenerator`). A byte stream that is cut into buffers of the caller's choosing.
* **Volume rounding** (`VolumeNormalize`).
* **Secure services** (`DelayedCompletion`, `OtherIoCompletion`, `EchoService`). A timer, a work item and a
  cancel routine race to answer one request; an echo service reverses and repeats buffers.

`Basics` holds what several modules share: options, repetition and division facts.

Where the code does not do what its documentation or its structure suggests, the model follows the code, a lemma
shows an input for which the promise fails, and another one says exactly when it holds:

| promise | fails | holds exactly when |
|---|---|---|
| a successful installation caches both filters | `SubdeviceCache.SuccessCanHideAFailure` | `SubdeviceCache.BothAreCachedIff` |
| a tone does not depend on how it is sliced | `ToneGenerator.SlicingCanMatter` | `ToneGenerator.SplitLandsTogetherIff` |
| a frame is filled | `ToneGenerator.FramesCanFallShort` | `ToneGenerator.WrittenCompletelyIff`, `FrameIsDeterminedIff` |
| a deleted timer is not used | `DelayedCompletion.UnheldRunsCanMisuse` | `DelayedCompletion.MisuseIff`, `HeldRunsNeverMisuse` |
| the same of a private I/O request | `OtherIoCompletion.TimersCanBeMisused` | `OtherIoCompletion.MisuseIff` |
| a private I/O request is completed | `OtherIoCompletion.RequestsCanBeLost` | `OtherIoCompletion.LostIffLate` |
| repeating ends | `EchoService.RepeatCanHang` | `EchoService.RepeatEndsIff` |
| reversing ends | `EchoService.ReverseCanHang` | `EchoService.ReverseEndsIff` |
| a peak-meter reading does not overflow | `VolumeNormalize.PeakMeterCanOverflow` | `VolumeNormalize.PeakMeterOverflowsIff` |

`dafny verify dfyconfig.toml` checks the whole project.

## Assumptions about the system

* PnP callbacks of one registration are serialized; unregistering waits for the callback in progress. One
  work-item callback runs at a time; enqueueing a queued work item does nothing; flushing waits until the work
  item is neither queued nor running.
* Purging an I/O target waits until every request sent to it was completed and its completion routine returned,
  and a target that is being purged accepts no request.
* StreamStart and StreamSuspend are serialized by their callers, and only started streams are suspended.
* Stopping a timer succeeds exactly while the timer is waiting to expire. A cancel is delivered at most once and
  only while the request is pending. Whether the request also stays pending until the cancel routine has tried to
  stop the timer is a parameter (`held`) of `DelayedCompletion`.
* COM objects answer for IUnknown. Subdevice calls for one adapter are serialized.
* The source of a registry copy is not written during the copy and lies outside the destination; values of one key
  and subkeys of one key have distinct names.

## Model

| member | source | states |
|---|---|---|
| SidebandLifecycle.Find | audio/sysvad/common.cpp:2961-2981 | a hit is a listed device with the name; a miss means that no listed device has it |
| SidebandLifecycle.UnlinkMembers | audio/sysvad/common.cpp:3172-3191 | unlinking drops exactly the one device and keeps listed names distinct |
| SidebandLifecycle.UnlinkKeepsOrder | audio/sysvad/common.cpp:3172-3191 | the devices before and after the one that is unlinked keep their order |
| SidebandLifecycle.StepKeepsInv | audio/sysvad/common.cpp:2847-3443 | every step of a callback, the worker or the cleanup keeps the invariant on shape, references, actions and queue |
| SidebandLifecycle.ReachableInv | audio/sysvad/common.cpp:2847-3443 | the invariant holds after every run from an adapter that is not initialized |
| SidebandLifecycle.ReferencesAreExact | audio/sysvad/common.cpp:2876-2929 | in every interleaving a device's count is the number of its holders, no device is deleted twice, and none that can still be reached is deleted |
| SidebandLifecycle.ActionsAreOrdered | audio/sysvad/common.cpp:3073-3091 | what has run on a device is a prefix of Start, Stop, only on inserted devices; listed names are distinct |
| SidebandLifecycle.NoLostWakeup | audio/sysvad/common.cpp:2876-2896 | a waiting task always has a queued work item or a worker that has not yet seen an empty list |
| SidebandLifecycle.CleanupLeavesNothing | audio/sysvad/common.cpp:3399-3443 | when cleanup has returned both lists are empty, every task is back in its pool, and every device was deleted exactly once, after Start and Stop if it was inserted |
| SidebandLifecycle.NothingIsLeft | audio/sysvad/common.cpp:3399-3443 | the same of any state that satisfies the invariant and whose cleanup has returned |
| SidebandLifecycle.TasksRunInTurn | audio/sysvad/common.cpp:2876-2929 | in every interleaving the tasks are run in the order in which arrivals and removals asked for them, and none is left out |
| SidebandLifecycle.DevicesStopInOrder | audio/sysvad/common.cpp:3421-3436 | in every interleaving the cleanup stops the listed devices from first to last, and all of them when it returns |
| SidebandLifecycle.RemovalReleaseIsNotLast | audio/sysvad/common.cpp:3172-3191 | the release inside the removal's mutex section never deletes the device |
| SidebandLifecycle.CleanupReleaseIsLast | audio/sysvad/common.cpp:3421-3436 | the release in the cleanup loop always deletes the device |
| SidebandLifecycle.HistoryGrows | audio/sysvad/common.cpp:2898-2921 | along every run a device's actions and deletions are only added to |
| SidebandLifecycle.StepDecreases | audio/sysvad/common.cpp:3399-3443 | once unregistered, every step of worker and cleanup lowers a measure |
| SidebandLifecycle.CleanupProgress | audio/sysvad/common.cpp:3399-3443 | an unregistered adapter is stuck only when cleanup has returned |
| SidebandLifecycle.CleanupTerminates | audio/sysvad/common.cpp:3399-3443 | every interleaving after unregistering is bounded and can end only with cleanup returned |
| SidebandAdapter.RunTasksEffect | audio/sysvad/common.cpp:2898-2929 | running a list of tasks gives each device its own actions in order and drops one reference for each |
| SidebandAdapter.InitIsARun | audio/sysvad/common.cpp:3284-3372 | the initialization, whichever call fails, is a run of the machine |
| SidebandAdapter.ArrivalIsARun | audio/sysvad/common.cpp:3023-3106 | an arrival, whichever allocation fails, is a run of the machine |
| SidebandAdapter.RemovalIsARun | audio/sysvad/common.cpp:3144-3206 | a removal is a run of the machine |
| SidebandAdapter.DrainedIsARun | audio/sysvad/common.cpp:2871-2930 | the worker's loop is a run of the machine |
| SidebandAdapter.DrainedEffect | audio/sysvad/common.cpp:2871-2930 | the worker's loop runs every task, first to last, and gives every task back |
| SidebandAdapter.WorkIsARun | audio/sysvad/common.cpp:2847-2930 | the work item's callback, from its start to its return, is a run of the machine |
| SidebandAdapter.EmptiedIsARun | audio/sysvad/common.cpp:3421-3436 | the cleanup's loop over the devices is a run of the machine |
| SidebandAdapter.CleanupIsARun | audio/sysvad/common.cpp:3399-3443 | the whole cleanup is a run of the machine |
| SidebandAdapter.RepeatedArrivalMeaning | audio/sysvad/common.cpp:3023-3036 | a second notification for a listed name changes nothing, not even a count |
| SidebandAdapter.ArrivalMeaning | audio/sysvad/common.cpp:3037-3106 | a new name ends up listed last with two references and a pending start, or as a device deleted once |
| SidebandAdapter.MissMeaning | audio/sysvad/common.cpp:3037-3106 | the same of the part of an arrival that follows a failed lookup |
| SidebandAdapter.RemovalMeaning | audio/sysvad/common.cpp:3144-3206 | a removal takes one place out of the list, in which the others keep their order, and turns its reference into a pending stop, or changes nothing |
| SidebandAdapter.Adapter.InitBthScoBypass | audio/sysvad/common.cpp:3284-3372 | succeeds exactly if both framework calls do; the new state is reached by a run and keeps the invariant |
| SidebandAdapter.Adapter.BthHfpDeviceFind | audio/sysvad/common.cpp:2935-2981 | the loop finds the first device with the name and gives it one more reference |
| SidebandAdapter.Adapter.BthHfpScoInterfaceArrival | audio/sysvad/common.cpp:2989-3106 | a new device is listed last with a pending start, exactly if everything is to be had; the status is that of the first failure; the new state is that of the arrival run and keeps the invariant |
| SidebandAdapter.Adapter.BthHfpScoInterfaceRemoval | audio/sysvad/common.cpp:3112-3206 | the found device's place goes out of the list, the others keep their order, its stop is queued last; fails only for a listed device without memory; the new state is that of the removal run and keeps the invariant |
| SidebandAdapter.Adapter.EvtBthHfpScoBypassInterfaceWorkItem | audio/sysvad/common.cpp:2847-2930 | no task waits, every one was run and given back; the new state is reached by a run and keeps the invariant |
| SidebandAdapter.Adapter.CleanupBthScoBypass | audio/sysvad/common.cpp:3376-3443 | both lists are empty, every task is back in its pool, each inserted device was started and stopped and each device deleted, once; the new state is reached by a run |
| NotificationPump.StepKeepsInv | audio/sysvad/BthhfpDevice.cpp:1478-1661 | every step of worker, completion routine, target and Stop keeps the invariant |
| NotificationPump.OnePlace | audio/sysvad/BthhfpDevice.cpp:1478-1724 | in every interleaving each request is in exactly one of seven places |
| NotificationPump.BudgetIsKept | audio/sysvad/BthhfpDevice.cpp:1697-1711 | at most five resends since the last success, and retirement exactly after the sixth failure in a row or a cancel |
| NotificationPump.ErrorsAreFailuresInARow | audio/sysvad/BthhfpDevice.cpp:1697-1711 | in every run the error count is the number of failed completions since the last successful one, up to a completion not yet counted |
| NotificationPump.SixInARowRetire | audio/sysvad/BthhfpDevice.cpp:1697-1711 | a request at the target has failed at most five times in a row; once counted it is retired without a cancel exactly after six |
| NotificationPump.NeverSentAgain | audio/sysvad/BthhfpDevice.cpp:1689-1711 | however a run goes on, a request that was cancelled or has failed six times in a row is never at the target again |
| NotificationPump.CancelledByTheTarget | audio/sysvad/BthhfpDevice.cpp:1689-1694 | a request is on record as cancelled exactly if the target completed it so |
| NotificationPump.CancelledIsNotResent | audio/sysvad/BthhfpDevice.cpp:1689-1694 | a cancelled request is neither waiting, nor held by the worker, nor at the target |
| NotificationPump.CancelledIsNeverSentAgain | audio/sysvad/BthhfpDevice.cpp:1689-1694 | however a run goes on, a cancelled request's send count stays as it is |
| NotificationPump.HandledInOrder | audio/sysvad/BthhfpDevice.cpp:1485-1497 | successes are handled once each in the order of their arrival, and none is left waiting except by a worker that broke off |
| NotificationPump.HandledBySuccess | audio/sysvad/BthhfpDevice.cpp:1478-1661 | a request is handled at most once for each of its successes, and exactly so when nothing of it waits or was lost |
| NotificationPump.StoppedIsQuiet | audio/sysvad/BthhfpDevice.cpp:3213-3270 | once Stop has returned no request is out, the worker is idle, and no step is possible any more |
| NotificationPump.StopProgress | audio/sysvad/BthhfpDevice.cpp:3213-3270 | once Stop was called the device is stuck exactly when Stop has returned |
| NotificationPump.StopTerminates | audio/sysvad/BthhfpDevice.cpp:3213-3270 | no interleaving with a pending Stop exceeds a bound, and each can end only with Stop returned |
| NotificationPump.FailingTargetIsBounded | audio/sysvad/BthhfpDevice.cpp:1697-1711 | a target that never succeeds cannot keep the pump running beyond a bound |
| HandsFreePump.BthHfpNotifications.SendFirst | audio/sysvad/BthhfpDevice.cpp:2390-2440 | the first send of a request brings it to the target or strands it, and keeps the invariant |
| HandsFreePump.CompletionIsARun | audio/sysvad/BthhfpDevice.cpp:1667-1724 | an uninterrupted completion is a run of the pump |
| HandsFreePump.LoopIsARun | audio/sysvad/BthhfpDevice.cpp:1478-1661 | an uninterrupted worker is a run of the pump |
| HandsFreePump.LoopBreaksIff | audio/sysvad/BthhfpDevice.cpp:1627-1659 | the worker breaks off exactly if one of the waiting requests cannot be reused or sent |
| HandsFreePump.LoopSendsAll | audio/sysvad/BthhfpDevice.cpp:1478-1661 | a worker that does not break off brings every waiting request back to the target |
| HandsFreePump.LoopHandlesInOrder | audio/sysvad/BthhfpDevice.cpp:1478-1661 | the successes it handles are the first of those waiting, in order |
| HandsFreePump.BthHfpNotifications.EvtBthHfpDeviceNotificationStatusCompletion | audio/sysvad/BthhfpDevice.cpp:1667-1724 | a success resets the error count and a failure adds one; the request is retired exactly after a cancel or the sixth failure, else lost to a failed insertion, or last in the collection with the work item queued; the invariant is kept |
| HandsFreePump.BthHfpNotifications.EvtBthHfpDeviceNotificationStatusWorkItem | audio/sysvad/BthhfpDevice.cpp:1448-1661 | the loop leaves the state of the worker's run and keeps the invariant |
| StreamHandshake.StepKeepsInv | audio/sysvad/BthhfpDevice.cpp:1002-1079 | every statement of start and suspend and every step of the completion keeps the invariant |
| StreamHandshake.OpensAndClosesBalance | audio/sysvad/BthhfpDevice.cpp:1016-1077 | between calls, opens less closes is one while a start is outstanding and zero otherwise, on all failure paths |
| StreamHandshake.CountsByEvents | audio/sysvad/BthhfpDevice.cpp:1016-1077 | between calls the count is the starts that neither failed nor were suspended, every other accepted open was closed, and a running stream's status is that of the last completion |
| StreamHandshake.EventIsClearOnlyInFlight | audio/sysvad/BthhfpDevice.cpp:2597-2622 | the event is clear exactly while the request is out or being sent |
| StreamHandshake.RequestIsUsedInTurn | audio/sysvad/BthhfpDevice.cpp:2652-2670 | the wait is entered only with a completion to come; the request is reused only when completed and sent only when not out |
| StreamHandshake.StatusIsHonest | audio/sysvad/BthhfpDevice.cpp:1016-1077 | between calls a published success means that a stream runs, and a failure while it runs means that the request completed |
| StreamHandshake.CallsReturn | audio/sysvad/BthhfpDevice.cpp:2637-2676 | a call ends within a bound whatever the target does, and is stuck nowhere before its end |
| HandsFreeStream.StartIsARun | audio/sysvad/BthhfpDevice.cpp:1002-1047 | an uninterrupted start, failing or not, is a run of the handshake |
| HandsFreeStream.SuspendIsARun | audio/sysvad/BthhfpDevice.cpp:1053-1079 | an uninterrupted suspend is a run of the handshake, with the rest of the completion during its wait, wherever that stands |
| HandsFreeStream.CompletionEnds | audio/sysvad/BthhfpDevice.cpp:2529-2579 | a request that is out, wherever its completion stands, can be followed to the set event |
| HandsFreeStream.BthHfpStream.StreamStart | audio/sysvad/BthhfpDevice.cpp:1002-1047 | succeeds exactly if a stream runs or both requests are accepted, counts only then, and keeps the invariant |
| HandsFreeStream.BthHfpStream.EnableBthHfpStreamStatusNotification | audio/sysvad/BthhfpDevice.cpp:2584-2630 | the event is set again exactly if the send fails |
| HandsFreeStream.BthHfpStream.EvtBthHfpDeviceStreamStatusCompletion | audio/sysvad/BthhfpDevice.cpp:2529-2579 | publishes the status, sets the event and keeps the invariant |
| HandsFreeStream.BthHfpStream.StopBthHfpStreamStatusNotification | audio/sysvad/BthhfpDevice.cpp:2637-2676 | ends with the event set and the request ready, or done if it cannot be reused, wherever the completion stood |
| HandsFreeStream.BthHfpStream.StreamSuspend | audio/sysvad/BthhfpDevice.cpp:1053-1079 | only the last suspend closes the stream; the invariant is kept |
| UsbTransport.CallKeepsInv | audio/sysvad/UsbHsDevice.cpp:1284-1332 | whichever step fails, a start or suspend keeps all-or-nothing, balanced starts and suspends, and each buffer held or freed once |
| UsbTransport.AcquiredAllOrNothing | audio/sysvad/UsbHsDevice.cpp:2703-2780 | whichever query fails, all needed buffers or none are held, and each one is held or was freed, once |
| UsbTransport.RunsKeepInv | audio/sysvad/UsbHsDevice.cpp:1284-1427 | so does every run of starts and suspends |
| UsbTransport.BuffersByName | audio/sysvad/UsbHsDevice.cpp:2703-2780 | in every state between calls a started endpoint holds its four main buffers, and the three sync buffers exactly if it has feedback; a stopped one holds none |
| UsbTransport.BalancedRunFreesEverything | audio/sysvad/UsbHsDevice.cpp:1421-1427 | after a balanced run every buffer obtained was freed exactly once and starts equal suspends |
| UsbTransport.AcquiredFromProgress | audio/sysvad/UsbHsDevice.cpp:2703-2780 | the first failing query gives every buffer back |
| UsbTransport.Endpoint.GetSiop | audio/sysvad/UsbHsDevice.cpp:2558-2700 | a buffer that is obtained is returned or freed exactly once |
| UsbTransport.Endpoint.FreeTransportResources | audio/sysvad/UsbHsDevice.cpp:2539-2555 | frees what each of the seven slots holds and clears them |
| UsbTransport.Endpoint.GetTransportResources | audio/sysvad/UsbHsDevice.cpp:2703-2780 | succeeds exactly if every query that the endpoint needs does; then the four main buffers are held, each by name, and the three sync buffers exactly with feedback, else none |
| UsbTransport.Endpoint.SpeakerStreamStart | audio/sysvad/UsbHsDevice.cpp:1284-1332 | the exact success condition, the start count and the opens and closes; the state of the call, rolled back on failure, and the invariant |
| UsbTransport.Endpoint.SpeakerStreamSuspend | audio/sysvad/UsbHsDevice.cpp:1410-1427 | the last suspend closes the stream and gives everything back; the invariant is kept |
| References.ReferenceAllCounts | audio/sysvad/common.cpp:2446-2477 | referencing a list moves each count by the object's occurrences |
| PowerRelations.WithoutOccurrences | audio/sysvad/common.cpp:4028-4044 | removal drops all and only the entries for the object |
| PowerRelations.KeptPdos | audio/sysvad/common.cpp:4028-4044 | removal keeps the other objects in order |
| PowerRelations.CutForward | audio/sysvad/common.cpp:4036-4041 | unlinking keeps the forward ring |
| PowerRelations.CutBackward | audio/sysvad/common.cpp:4036-4041 | unlinking keeps the backward ring |
| PowerRelations.TailLinked | audio/sysvad/common.cpp:3999-4007 | linking at the tail keeps both rings |
| PowerRelations.PowerList.AddDeviceAsPowerDependency | audio/sysvad/common.cpp:3984-4016 | appends one entry owning one new reference, or changes nothing without memory |
| PowerRelations.PowerList.RemoveDeviceAsPowerDependency | audio/sysvad/common.cpp:4020-4050 | one traversal with removal keeps the ring, drops all and only the object's entries and releases one reference for each |
| PowerRelations.PowerList.CountEntries | audio/sysvad/common.cpp:2383-2388 | walking the ring counts its entries |
| PowerRelations.PowerList.UpdatePowerRelations | audio/sysvad/common.cpp:2368-2488 | prior objects then the entries, each newly referenced; or, without memory, each prior object dereferenced; a replaced list freed once; nothing touched with no entries |
| PowerRelations.CopyRelations | audio/sysvad/common.cpp:2425-2433 | the copy lists what the original lists |
| PowerRelations.EntriesOwnTheirReferences | audio/sysvad/common.cpp:3991-4044 | over every run of additions and removals the list owns exactly one reference for each entry |
| PowerRelations.AnswersAreBalanced | audio/sysvad/common.cpp:2435-2479 | a successful answer, once dereferenced by the PnP manager, leaves the counts that a failing answer leaves |
| SubdeviceCache.First | audio/sysvad/common.cpp:2184-2206 | the first entry with the name, or none has it |
| SubdeviceCache.EntryOwns | audio/sysvad/common.cpp:2244-2258 | an entry owns one reference for each interface it names, port, miniport and the two optional ones |
| SubdeviceCache.CachingGivesNothing | audio/sysvad/common.cpp:2243-2258 | caching takes exactly the references that the entry owns |
| SubdeviceCache.RemovingGivesNothing | audio/sysvad/common.cpp:2287-2303 | removing releases exactly the references that the entry owns |
| SubdeviceCache.WithFilterKeepsUnique | audio/sysvad/common.cpp:2540-2568 | looking up before caching keeps names unique |
| SubdeviceCache.FailureRestoresTheCache | audio/sysvad/common.cpp:2643-2655 | undoing a failing installation restores the cache, for every outcome of every step |
| SubdeviceCache.BothAreCachedIff | audio/sysvad/common.cpp:2540-2609 | after both filters were tried, both are cached if and only if each was cached before or fitted |
| SubdeviceCache.SuccessCanHideAFailure | audio/sysvad/common.cpp:2569-2609 | an installation that succeeds with its topology filter missing |
| SubdeviceCache.LookupIsMapLookup | audio/sysvad/common.cpp:2184-2206 | with unique names a lookup is a lookup in a map |
| SubdeviceCache.InstalledIsFound | audio/sysvad/common.cpp:2188-2200 | what was installed under a name, port and miniport, is what a later lookup finds |
| SubdeviceCache.OthersAreStillFound | audio/sysvad/common.cpp:2188-2200 | what was cached before is found unchanged, whatever is installed under another name |
| SubdeviceCache.BothEntries | audio/sysvad/common.cpp:2540-2597 | two new filters are cached one after the other, each under its own name with its own interfaces |
| SubdeviceCache.StatusByName | audio/sysvad/common.cpp:2540-2611 | an installation fails exactly if the wave filter is to be had under no name or the two cannot be connected |
| SubdeviceCache.LinksByPin | audio/sysvad/common.cpp:2023-2053 | each connection leads from an output pin of the one filter to the pin of the other one, in the table's direction |
| SubdeviceCache.NewPortsByName | audio/sysvad/common.cpp:2540-2597 | new registrations are those of the filters that were not cached and could be made |
| SubdeviceCache.StayingPortsByName | audio/sysvad/common.cpp:2642-2655 | after a failure only those of them stay whose own filter cannot be unregistered |
| SubdeviceCache.GivenByName | audio/sysvad/common.cpp:2613-2639 | what is handed out is one reference for each output that is set |
| SubdeviceCache.RemovalKeepsUnique | audio/sysvad/common.cpp:2287-2303 | removal keeps names unique, removes the name and no other |
| SubdeviceCache.RemovalIsMapRemoval | audio/sysvad/common.cpp:2287-2303 | removal is removal from the map |
| SubdeviceCache.AdapterCommon.GetCachedSubdevice | audio/sysvad/common.cpp:2170-2207 | returns the port and the miniport of an entry with the name, with one new reference each, exactly if there is one |
| SubdeviceCache.AdapterCommon.CacheSubdevice | audio/sysvad/common.cpp:2214-2269 | appends an entry with the given interfaces exactly if there is memory and the name has fewer than 260 characters, and accounts for its references |
| SubdeviceCache.AdapterCommon.CacheAndFind | audio/sysvad/common.cpp:2170-2269 | caching a new name and looking it up gives back the same port and miniport, or nothing exactly without memory or with too long a name |
| SubdeviceCache.AdapterCommon.RemoveCachedSubdevice | audio/sysvad/common.cpp:2274-2306 | removes the first entry with the name and the references it owns |
| SubdeviceCache.AdapterCommon.EmptySubdeviceCache | audio/sysvad/common.cpp:2310-2328 | leaves exactly the references held outside the cache |
| SubdeviceCache.AdapterCommon.InstallSubdevice | audio/sysvad/common.cpp:1726-1923 | whichever of the five calls fails, no reference and no registration is left; on success one registration and one reference to each interface for the caller |
| SubdeviceCache.AdapterCommon.ConnectTopologies | audio/sysvad/common.cpp:1990-2071 | all of the table's connections on success; after the first failure none of them, or those made if they cannot be taken back |
| SubdeviceCache.AdapterCommon.DisconnectTopologies | audio/sysvad/common.cpp:2077-2166 | takes all of the table's connections back, or none if the port does not answer for it |
| SubdeviceCache.AdapterCommon.InstallEndpointFilters | audio/sysvad/common.cpp:2497-2663 | the exact status; on failure the cache as before, nothing handed out, and of the new registrations only those that cannot be withdrawn; on success the new entries and the requested interfaces; the connections in each case; all references accounted for |
| SubdeviceCache.AdapterCommon.RemoveEndpointFilters | audio/sysvad/common.cpp:2668-2716 | neither name is cached afterwards, whatever the other calls answer; connections and registrations go as far as they can be withdrawn; no reference outside the cache moves |
| SubdeviceCache.AdapterCommon.UnregisterSubdevice | audio/sysvad/common.cpp:1929-1984 | withdraws one registration of a given port exactly if the port answers and accepts the call, and reports that |
| RegistryCopy.MergedIsExpected | audio/sysvad/common.cpp:4893-4982 | at every path the copy holds the old values overlaid with the source's, or what was there before |
| RegistryCopy.OnlyTheFirstLevelIsSpared | audio/sysvad/common.cpp:4976-4982 | without overwriting, first-level values are unchanged, every deeper source value is present and equal, everything else survives |
| RegistryCopy.CopyingTwice | audio/sysvad/common.cpp:4893-4982 | copying again changes nothing |
| RegistryCopy.OnlyCopiesBelow | audio/sysvad/common.cpp:4950-4952 | what a nested copy may change, the whole copy may change |
| RegistryCopy.PartOfTheValues | audio/sysvad/common.cpp:4785-4842 | a value copy that stops in the middle has written only source values |
| RegistryCopy.Registry.CopyRegistryValues | audio/sysvad/common.cpp:4759-4842 | succeeds exactly if every system call does, and then all values are copied; on a failing call only source values were written |
| RegistryCopy.Registry.CopyRegistryKey | audio/sysvad/common.cpp:4855-4990 | succeeds exactly if every system call does, and then leaves the recursive merge; on a failing call no key is lost and every value is old or the source's |
| ToneGenerator.LittleEndianValue | audio/sysvad/ToneGenerator.cpp:96-121 | the bytes of a number, lowest first, stand for what of it fits into them |
| ToneGenerator.Sample8 | audio/sysvad/ToneGenerator.cpp:22-46 | an 8-bit sample is the value times 127.5 plus 127.5, cut toward zero, for every value in [-1, 1] |
| ToneGenerator.Sample16 | audio/sysvad/ToneGenerator.cpp:22-46 | a 16-bit sample is, signed, the value times 32767 cut toward zero |
| ToneGenerator.Sample24 | audio/sysvad/ToneGenerator.cpp:96-121 | a 24-bit sample is, signed, the 32-bit one without its lowest byte |
| ToneGenerator.Sample32 | audio/sysvad/ToneGenerator.cpp:22-46 | a 32-bit sample is, signed, the value times 2147483647 cut toward zero |
| ToneGenerator.ChannelsHaveTheSample | audio/sysvad/ToneGenerator.cpp:96-121 | every channel of a frame holds the bytes of the sample; with 24 bits only the first one does |
| ToneGenerator.PhaseIsTheAngle | audio/sysvad/ToneGenerator.cpp:124-130 | a frame's phase is the angle that the increments add up to, less whole turns, and stays within one turn |
| ToneGenerator.WrittenCompletelyIff | audio/sysvad/ToneGenerator.cpp:96-121 | a frame is written from end to end exactly for 8, 16 and 32 bits and for 24 bits with one channel |
| ToneGenerator.FramesCanFallShort | audio/sysvad/ToneGenerator.cpp:112-118 | with 24 bits and two channels three of a frame's six bytes are written |
| ToneGenerator.FrameIsDeterminedIff | audio/sysvad/ToneGenerator.cpp:96-121 | a new frame is independent of the buffer's old content exactly for those formats |
| ToneGenerator.FrameBytes | audio/sysvad/ToneGenerator.cpp:85-131 | within a frame the stream's written bytes are those written for that frame, and no others |
| ToneGenerator.Residual | audio/sysvad/ToneGenerator.cpp:171-184 | less than a frame, and it reaches the frame's end |
| ToneGenerator.SplitLandsTogetherIff | audio/sysvad/ToneGenerator.cpp:171-184 | two calls leave the reader where one call would exactly if neither is shorter than the residual it meets, or the short one is followed by an empty one |
| ToneGenerator.SlicingCanMatter | audio/sysvad/ToneGenerator.cpp:171-184 | frames of four bytes read one byte at a time: the outputs are not the stream's first bytes and the reader ends two bytes too far |
| ToneGenerator.SlicingDoesNotMatter | audio/sysvad/ToneGenerator.cpp:168-210 | any sequence of long enough calls reads one contiguous stretch of the stream |
| ToneGenerator.Generator.InitNewFrame | audio/sysvad/ToneGenerator.cpp:85-131 | replaces exactly the written bytes of the frame and advances the phase |
| ToneGenerator.Generator.TakeResidual | audio/sysvad/ToneGenerator.cpp:171-184 | reads the unread bytes as far as they fit and drops the rest, in every format |
| ToneGenerator.Generator.TakePart | audio/sysvad/ToneGenerator.cpp:203-210 | reads the front of a new frame and keeps its end, in every format |
| ToneGenerator.Generator.GenerateSine | audio/sysvad/ToneGenerator.cpp:146-219 | fills the buffer with the written bytes of the stream from the reader's position on, with the whole stream if frames are filled, or with silence while the stream stands still |
| ToneGenerator.Generator.ReadAll | audio/sysvad/ToneGenerator.cpp:146-219 | calls with buffers of any lengths output what the sliced stream says and end where it says |
| ToneGenerator.Generator.ResidualIsKept | audio/sysvad/ToneGenerator.cpp:203-210 | the bytes kept are the residual at the reader's position |
| ToneGenerator.SamePositionSameState | audio/sysvad/ToneGenerator.cpp:168-210 | generators of one tone at one position agree in phase, frames and unread bytes, so equal positions are equal states |
| DelayedCompletion.StepKeepsInv | TrEE/Miniport/TestService.c:726-785 | every step keeps the invariant, and only a late cancel can use a deleted timer |
| DelayedCompletion.AtMostOnce | TrEE/Miniport/TestService.c:657-671 | in every interleaving at most one answer and at most one deletion of the timer |
| DelayedCompletion.OutputFollowsTheAnswer | TrEE/Miniport/TestService.c:657-671 | a successful request's output was written, any other answered request's was not |
| DelayedCompletion.AnswersStand | TrEE/Miniport/TestService.c:1056-1081 | an answer is never taken back, and after a cancelled one the output is never written |
| DelayedCompletion.QuietIsComplete | TrEE/Miniport/TestService.c:752-785 | with nothing left to do there is exactly one answer, and the timer, if created, was deleted exactly once |
| DelayedCompletion.RunsEnd | TrEE/Miniport/TestService.c:623-671 | no run is longer than nineteen steps |
| DelayedCompletion.HeldRunsNeverMisuse | TrEE/Miniport/TestService.c:1056-1081 | if the request is held while the cancel routine decides, no step uses a deleted timer |
| DelayedCompletion.MisuseIff | TrEE/Miniport/TestService.c:1056-1081 | otherwise a step is the first such use exactly if it is a cancel after the work item's end |
| DelayedCompletion.UnheldRunsCanMisuse | TrEE/Miniport/TestService.c:1056-1081 | a run with such a use |
| DelayedCompletion.DispatchIsARun | TrEE/Miniport/TestService.c:726-785 | the dispatch routine, whichever call fails, is a run of the machine |
| DelayedCompletion.WorkItemIsARun | TrEE/Miniport/TestService.c:628-672 | the uninterrupted work item is a run of the machine |
| DelayedCompletion.CancelIsARun | TrEE/Miniport/TestService.c:1046-1085 | the uninterrupted cancel routine, early or late, is a run of the machine |
| DelayedCompletion.SecureRequest.TestServiceDelayedCompletion | TrEE/Miniport/TestService.c:675-786 | refuses and cleans up, or leaves the timer armed and the request pending, with the length reported in each case |
| DelayedCompletion.SecureRequest.DelayedCompletionTimerCallback | TrEE/Miniport/TestService.c:597-625 | queues the work item |
| DelayedCompletion.SecureRequest.DelayedCompletionWorkItemCallback | TrEE/Miniport/TestService.c:628-672 | writes the answer's four bytes and nothing else, answers once with their length and deletes the timer |
| DelayedCompletion.SecureRequest.TestServiceCancelSecureServiceRequest | TrEE/Miniport/TestService.c:1046-1085 | answers and deletes the timer exactly if the timer was waiting; a cancel that comes too late is recorded as a use of a deleted timer |
| OtherIoCompletion.StepKeepsInv | TrEE/Miniport/TestService.c:1096-1182 | every step of timer, work item and cancel keeps the invariant, and only a late stop uses a deleted timer |
| OtherIoCompletion.AtMostOnce | TrEE/Miniport/TestService.c:1096-1182 | in every interleaving at most one completion and one deletion |
| OtherIoCompletion.CompletionsTell | TrEE/Miniport/TestService.c:1125-1182 | a success means that the work item withdrew the request first, a cancelled completion that it was claimed and its timer stopped |
| OtherIoCompletion.LostIffLate | TrEE/Miniport/TestService.c:1125-1134 | with nothing left to do, the request was left uncompleted exactly if a cancel came too late to stop the timer |
| OtherIoCompletion.LateStaysLate | TrEE/Miniport/TestService.c:1170-1182 | no continuation makes a late cancel good |
| OtherIoCompletion.RequestsCanBeLost | TrEE/Miniport/TestService.c:1096-1182 | a run that leaves the request uncompleted |
| OtherIoCompletion.MisuseIff | TrEE/Miniport/TestService.c:1125-1134 | a step is the first to use a deleted timer exactly if it is the cancel routine's attempt to stop it after the work item's end |
| OtherIoCompletion.TimersCanBeMisused | TrEE/Miniport/TestService.c:1125-1182 | a run with such a use |
| EchoService.Reversed | TrEE/OSService/SampleOSService.c:804-806 | the i-th byte is the i-th from the end |
| EchoService.ReversedTwice | TrEE/OSService/SampleOSService.c:798-810 | reversing twice gives the input back |
| Basics.RepeatedAt | TrEE/OSService/SampleOSService.c:784-796 | byte i of a repetition is byte i mod n of the input |
| EchoService.RepeatEndsIff | TrEE/OSService/SampleOSService.c:786-793 | the repeat loop ends exactly for non-empty inputs |
| EchoService.RepeatCanHang | TrEE/OSService/SampleOSService.c:786-793 | with an empty input no number of rounds is enough |
| EchoService.ReverseEndsIff | TrEE/OSService/SampleOSService.c:804-806 | the reverse loop with its 32-bit index ends exactly for inputs shorter than 2^32 |
| EchoService.ReverseCanHang | TrEE/OSService/SampleOSService.c:804-806 | with 2^32 bytes the index never gets there |
| EchoService.Echo | TrEE/OSService/SampleOSService.c:773-782 | copies the input, or reports the length it would need |
| EchoService.Repeat | TrEE/OSService/SampleOSService.c:784-796 | writes floor(room/n) copies, reports their length and leaves the tail |
| EchoService.Reverse | TrEE/OSService/SampleOSService.c:798-810 | writes the input backwards, or changes nothing and reports nothing |
| EchoService.SampleServiceEchoHandler | TrEE/OSService/SampleOSService.c:723-817 | per function code, the status, the reported length and every output byte |
| EchoService.TwiceReversed | TrEE/Miniport/TestService.c:948-1004 | the reversed input twice over and 2n reported, even in place; the output untouched on every failure |
| EchoService.TwiceReversedAt | TrEE/Miniport/TestService.c:948-1004 | each byte of that answer from the request alone |
| VolumeNormalize.VolumeIsNearest | audio/sysvad/sysvad.h:80-97 | no 32-bit volume overflows, and each lands on the scale at least as near as any point of the scale |
| VolumeNormalize.TiesGoDown | audio/sysvad/sysvad.h:85-90 | of two points equally near, the one farther from zero is taken |
| VolumeNormalize.VolumeIsMonotone | audio/sysvad/sysvad.h:85-97 | the rounding is monotone |
| VolumeNormalize.ScaleIsFixed | audio/sysvad/sysvad.h:85-97 | exactly the points of the scale stay where they are, so the rounding is idempotent |
| VolumeNormalize.PeakMeterOverflowsIff | audio/sysvad/sysvad.h:99-102 | a peak-meter reading overflows exactly within half a step of either end of the range |
| VolumeNormalize.PeakMeterIsNear | audio/sysvad/sysvad.h:99-102 | a reading that does not overflow becomes a multiple of 0x1000 within half a step |
| VolumeNormalize.PeakMeterCanOverflow | audio/sysvad/sysvad.h:99-102 | both ends of the 32-bit range overflow |

## Left out

- The USB and A2DP copies of the adapter protocol and of the notification pump (audio/sysvad/common.cpp:3455-4740), which are textually parallel, and the A2DP branch of the pump for other requests.
- The A2DP start counter, which is not rolled back when a start fails, and the A2DP minipair deletion.
- Liveness of the pump after a failed reuse or send: the worker leaves and may strand waiting requests; the model records them as stranded.
- What the notification handlers do with a payload, and the callbacks into the miniports.
- Device Start, the endpoint minipairs, format compatibility and the codec capabilities.
- EchoService.Repeat: requires a non-empty input, since the loop does not end for an empty one (RepeatEndsIff).
- EchoService.Reverse: when there is room for the answer, requires fewer than 2^32 bytes, since the loop does not end otherwise (ReverseEndsIff).
- EchoService.SampleServiceEchoHandler: input and output are different buffers, as RtlCopyMemory demands.
- EchoService.TwiceReversed: the transport between the two services is one outcome per call; the width of the buffer-size fields is not part of this repository, so the doubled length is taken not to wrap.
- ToneGenerator.Generator.Init: real arithmetic stands for floating point and one function of the phase for the sine, and the failing paths of Init are not modelled.
- ToneGenerator.Generator.GenerateSine: the bytes of a frame that a format does not write are left open; they are whatever the buffers held before.
- RegistryCopy.Registry.CopyRegistryKey: the growing of enumeration buffers and the handles and memory that failing paths leave behind; names are compared exactly, not case-insensitively.
- SubdeviceCache.AdapterCommon.InstallSubdevice: the references that the port class library holds itself are not counted, nor are those taken and dropped within one call to ask for an interface; the cache is a sequence, not an intrusive list.
- SubdeviceCache.BothAreCachedIff: GetFilters, which leaves a reference behind when only one output is asked for, is not modelled.
- PowerRelations.PowerList.UpdatePowerRelations: the fast mutex is held throughout; sizes are unbounded, so the size computation does not overflow.
- OtherIoCompletion.StepKeepsInv: the request is marked cancelable before the timer expires, and the set-up of the request before that is not modelled.
- NotificationPump.StepKeepsInv: the step that handles a request stands for the whole switch over the control codes.
- UsbTransport.Endpoint.GetSiop: the query's payload and the echo of the endpoint index are not modelled, nor is the stream-status notification of the USB device.
- Threads: concurrency is interleaving of the steps named above, and memory is sequentially consistent.
