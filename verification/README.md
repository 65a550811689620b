# Concurrent state of the NVIDIA DRM and modeset kernel modules

This project models the parts of `nvidia-drm` and `nvidia-modeset` in which kernel
threads, interrupt handlers, timers and a worker thread share state under short locks,
and proves what every interleaving of them keeps.  `dafny verify dfyconfig.toml` checks
all of it.

A component is modelled twice.  A state machine has one step per lock-held region (or
per single semaphore, reference or queue operation) and its theorems speak about every
run.  A class holds the same fields and performs the lock-held regions and loops in
place; its methods take the machine's steps, or are proved against the functions the
machine steps with or a description of their own.

| component | state machine and theorems | in place |
|---|---|---|
| semaphore-surface fence context | `SeqnoWidening`, `SeqnoReading`, `FenceList`, `SemsurfModel`, `SemsurfFences`, `SemsurfOwnership`, `SemsurfInflight`, `SemsurfRuns`, `SemsurfWakeup`, `SemsurfProgress`, `SemsurfRest`, `SemsurfTimeout`, `SemsurfLost`, `SemsurfPromises`, `SemsurfLimits` | `SemsurfContext` |
| sync-fd waits of such a context | `WaitModel`, `WaitTheorems` | |
| PRIME fence context | `PrimeModel`, `PrimeTheorems` | `PrimeContext` |
| `nv_kthread_q` and the workthread | `QueueModel`, `QueueInvariants`, `QueueTheorems`, `QueueCalls`, `QueueProgress` | `KthreadQueue` |
| NVKMS timers and weak pointers | `TimerModel`, `TimerLifecycle`, `TimerTheorems`, `TimerFiring` | `NvkmsTimers` |
| page flips of a CRTC | `FlipModel`, `FlipTracking`, `FlipCounting`, `FlipOrder`, `FlipCommits` | `FlipCrtc` |
| modeset permissions | `PermissionModel`, `PermissionTheorems`, `PermissionExact` | `PermissionDevice` |

## What is taken from outside

- NVKMS: a registration is accepted, refused, or answered "already signalled" for a value
  the semaphore has reached; unregistering returns true exactly if the handler has not
  started; freeing the surface cancels what is registered and waits for running handlers.
- The semaphore and the clock only grow, and the fence context's readings are exact (see
  `ReadingExactIff` for when they are).
- A dma-fence calls a callback at most once; a fence that takes no callback has signalled
  or failed.  The signal of a foreign fence may come at any time.
- Kernel timers: deleting one finds it pending, running or idle; the synchronous delete
  waits for a running one.
- DRM core holds a CRTC's lock over a commit and the mode-config locks over permission
  operations; every CRTC has its own head.
- At module unload, core NVKMS has given back every timer handle and weak pointer.

## Where a promise fails, and exactly when it holds

- The scan inside the registration loop reads the semaphore before it takes the lock, so
  its reading may be any value since the call.  `OldReadingBreaksOwnership`,
  `OldReadingUsesFreed` and `OldReadingFreesTwice` are one run in which such a reading
  makes the context name a callback about to be freed, read through it when it is freed,
  and free it again.  `HarmlessExactly` gives the exact condition on the state for one
  scan, `RunSoundIff` for whole runs; runs whose readings are current meet it
  (`CurrentRunsHarmless`), and `SemsurfPromises` states what they promise without further
  conditions.
- A refused registration returns without a waiter: `RefusalLosesWakeup` is a run in which
  that loses a wake-up.  `RefusalExactly` says exactly when a refusal can, `RunAwakeIff`
  the same of whole runs.  The invariant behind both is the weakest there is:
  `WakesExactly`.
- A comment in the commit path says that deferring flips keeps events in order.  Both
  lists are used as stacks, so after a timed-out wait they need not be:
  `TimeoutReorders` sends two events in the wrong order, `SentInOrderIff` and
  `RunOrderIff` say exactly which runs do, and runs without timeouts do not
  (`EventsInCommitOrder`).
- A comment says that the semaphore must be read after the largest submitted value.  A
  release between the two loads can pass that value: `LateReleaseMisreads`, and exactly
  then the reading is wrong: `ReadingExactIff`.
- A close whose disables fail leaves the file's name behind: `CloseLeavesNothingIff`.
- Revoking a lease clears CRTCs on their own: `LeaseRelatedIff`.
- Widening a 32-bit reading: `WidenExact`.

## Model

| member | source | states |
|---|---|---|
| SeqnoWidening.Widen | backLib/kernel-open/nvidia-drm/nvidia-drm-fence.c:711-737 | the rebuilt 64-bit value has the 32 bits that were read as its low half |
| SeqnoWidening.WidenExact | backLib/kernel-open/nvidia-drm/nvidia-drm-fence.c:711-737 | the rebuilt value is the true payload if and only if the payload is one of the 2^32 values ending, modulo 2^64, at the largest submitted one |
| SeqnoWidening.WidenInWindow | backLib/kernel-open/nvidia-drm/nvidia-drm-fence.c:711-737 | with nothing released beyond the largest submitted value and fewer than 2^32 outstanding, widening is exact and the high-word correction does not underflow |
| SeqnoWidening.WidenMonotone | backLib/kernel-open/nvidia-drm/nvidia-drm-fence.c:711-737 | readings of a growing payload come out in order across every wrap of the low half |
| SeqnoReading.RunOk | backLib/kernel-open/nvidia-drm/nvidia-drm-fence.c:711-737 | over every run of submissions, releases and the two loads of a reading, what a reader holds is in the window the widening needs or has been passed |
| SeqnoReading.ReadingExactIff | backLib/kernel-open/nvidia-drm/nvidia-drm-fence.c:717-731 | a reading is exact if and only if no release between its two loads has passed the value the first one saw submitted (or nearly all 2^64 values have gone by) |
| SeqnoReading.StaleMax | backLib/kernel-open/nvidia-drm/nvidia-drm-fence.c:726-731 | otherwise the rebuilt value is no higher than the one loaded, or, if that has no high half yet, among the last 2^32 of all |
| SeqnoReading.LateReleaseMisreads | backLib/kernel-open/nvidia-drm/nvidia-drm-fence.c:717-731 | a run in which two values go by between the loads and the reading is far too high |
| FenceList.ScanParts | backLib/kernel-open/nvidia-drm/nvidia-drm-fence.c:829-846 | on a sorted list the walk over it yields what a scan is for: the reached fences, then the maximal run of expired ones, then the rest in order |
| FenceList.ScanExact | backLib/kernel-open/nvidia-drm/nvidia-drm-fence.c:829-846 | `finished` is exactly every reached fence of the whole list, what stays pending is unreached and sorted, and the three parts are the old list |
| FenceList.ScanUnique | backLib/kernel-open/nvidia-drm/nvidia-drm-fence.c:829-846 | the description of a scan has one solution, the walk |
| FenceList.NewHeadShrinks | backLib/kernel-open/nvidia-drm/nvidia-drm-fence.c:848-875 | if the scan leaves another value at the head, it has taken a fence off |
| FenceList.Position | backLib/kernel-open/nvidia-drm/nvidia-drm-fence.c:1401-1418 | the place of a new fence: after every fence with at most its value, before the first one with a larger value |
| FenceList.InsertSorted | backLib/kernel-open/nvidia-drm/nvidia-drm-fence.c:1399-1418 | insertion keeps the list sorted with equal values in arrival order and adds exactly that fence |
| SemsurfContext.FenceContext.ProcessCompleted | backLib/kernel-open/nvidia-drm/nvidia-drm-fence.c:811-896 | the locked scan takes off exactly what a scan takes off, and sets the value to wait for to the new head unless it is waited for already |
| SemsurfContext.FenceContext.AddPending | backLib/kernel-open/nvidia-drm/nvidia-drm-fence.c:1399-1418 | the loop inserts behind equal values and keeps the list sorted |
| SemsurfContext.FenceContext.CallbackFired | backLib/kernel-open/nvidia-drm/nvidia-drm-fence.c:898-932 | the handler's locked region takes the machine's step; afterwards the context names neither its callback nor its value |
| SemsurfContext.FenceContext.StoreCallback | backLib/kernel-open/nvidia-drm/nvidia-drm-fence.c:940-985 | takes the machine's store step and tells the caller what that step makes it unregister; ownership is kept, and what is installed has not had its handler's locked region and is not freed |
| SemsurfContext.FenceContext.RegCallbacks | backLib/kernel-open/nvidia-drm/nvidia-drm-fence.c:994-1109 | without concurrent adders the registration loop ends after at most one round more than there are fences, whatever NVKMS answers; the fences signalled are a prefix of the list; the tag is the new head; each way of ending has its cause |
| SemsurfContext.FenceContext.ForceCompletePending | backLib/kernel-open/nvidia-drm/nvidia-drm-fence.c:739-763 | a run of the machine's force-complete steps: every pending fence is signalled once with the error, the list's reference to it is dropped, and the list is empty |
| SemsurfFences.AddFences | backLib/kernel-open/nvidia-drm/nvidia-drm-fence.c:1381-1425 | adding a fence takes one reference and keeps the list sorted and every fence accounted for |
| SemsurfFences.ScanFences | backLib/kernel-open/nvidia-drm/nvidia-drm-fence.c:829-896 | a scan by a thread or handler moves each fence to one local list with the result its situation calls for |
| SemsurfFences.SignalFences | backLib/kernel-open/nvidia-drm/nvidia-drm-fence.c:879-895 | signalling a fence taken off the list drops the one reference |
| SemsurfFences.ForceFences | backLib/kernel-open/nvidia-drm/nvidia-drm-fence.c:739-763 | force-completing signals a fence that no one else will signal |
| SemsurfFences.StepFences | backLib/kernel-open/nvidia-drm/nvidia-drm-fence.c:783-1213 | every step of the machine keeps the list sorted and each fence on a list, or being signalled, or signalled once; the context holds one reference exactly while the fence is on a list |
| SemsurfFences.RunFences | backLib/kernel-open/nvidia-drm/nvidia-drm-fence.c:783-1213 | in every run no fence is signalled without error before the semaphore reached it, and none with a timeout by a scan before its own timeout |
| SemsurfFences.AddedFenceStays | backLib/kernel-open/nvidia-drm/nvidia-drm-fence.c:1393-1425 | a fence handed to a context is one of its fences ever after: on the list, being signalled, or signalled once |
| SemsurfFences.SignalIsFinal | backLib/kernel-open/nvidia-drm/nvidia-drm-fence.c:879-895 | a signalled fence is never signalled again |
| SemsurfInflight.StepInflight | backLib/kernel-open/nvidia-drm/nvidia-drm-fence.c:879-895 | fences taken off the list are signalled by a thread before it registers or returns, or by a handler before it queues its work |
| SemsurfRuns.HarmlessExactly | backLib/kernel-open/nvidia-drm/nvidia-drm-fence.c:816-875 | a scan, whose semaphore reading may be older than the lock, finds no callback whose handler has run waiting to be stored for the value it picks, if and only if, whatever such scans follow, the context never names a callback past its locked region, nothing is freed twice and no step goes through a freed object |
| SemsurfOwnership.CurrentIsHarmless | backLib/kernel-open/nvidia-drm/nvidia-drm-fence.c:816-875 | a scan whose reading is still current under the lock always meets that condition |
| SemsurfRuns.CurrentRunsHarmless | backLib/kernel-open/nvidia-drm/nvidia-drm-fence.c:816-875 | so does every scan of a run in which all readings are current |
| SemsurfOwnership.RegisterOkOwned | backLib/kernel-open/nvidia-drm/nvidia-drm-fence.c:1013-1051 | a registered callback passes to NVKMS while its thread keeps the handle |
| SemsurfOwnership.RegisterFailOwned | backLib/kernel-open/nvidia-drm/nvidia-drm-fence.c:1055-1070 | a refused callback is freed once, by the thread that made it |
| SemsurfOwnership.StoreOwned | backLib/kernel-open/nvidia-drm/nvidia-drm-fence.c:940-985 | installing, losing and replacing a callback each keep one owner per object |
| SemsurfOwnership.UnregisterOwned | backLib/kernel-open/nvidia-drm/nvidia-drm-fence.c:1100-1108 | a callback is freed by the thread that unregistered it exactly if its handler had not started |
| SemsurfOwnership.ClearOwned | backLib/kernel-open/nvidia-drm/nvidia-drm-fence.c:898-932 | the handler's locked region takes the context's name off the object |
| SemsurfOwnership.QueueOwned | backLib/kernel-open/nvidia-drm/nvidia-drm-fence.c:898-932 | a handler hands its object to the work queue, or frees it if the queue is shut down |
| SemsurfOwnership.DestroyUnregisterOwned | backLib/kernel-open/nvidia-drm/nvidia-drm-fence.c:1135-1152 | the destructor cancels a callback exactly if it has not started |
| SemsurfOwnership.FreeLocalOwned | backLib/kernel-open/nvidia-drm/nvidia-drm-fence.c:1171-1175 | the destructor frees the installed callback if one is left |
| SemsurfOwnership.StepOwned | backLib/kernel-open/nvidia-drm/nvidia-drm-fence.c:783-1213 | every step but such a scan keeps: one owner per callback object, and the installed callback has not had its locked region |
| SemsurfRuns.OneOwner | backLib/kernel-open/nvidia-drm/nvidia-drm-fence.c:783-1180 | in every run whose scans meet the condition each callback object has exactly one owner among its allocating thread, NVKMS, the work queue, the worker, the destructor, or is gone |
| SemsurfRuns.NoUseAfterFree | backLib/kernel-open/nvidia-drm/nvidia-drm-fence.c:783-1180 | in every such run no step reads or writes through a freed callback object |
| SemsurfRuns.RunSoundIff | backLib/kernel-open/nvidia-drm/nvidia-drm-fence.c:783-1213 | a run is safe in that sense from every one of its states on if and only if all its scans meet the condition, whatever NVKMS answers and whenever the context is destroyed |
| SemsurfRuns.FreedExactlyOnce | backLib/kernel-open/nvidia-drm/nvidia-drm-fence.c:1111-1180 | after destruction, in every such run, every callback object of the context was freed exactly once |
| SemsurfRuns.AllSignalledOnce | backLib/kernel-open/nvidia-drm/nvidia-drm-fence.c:1111-1180 | when the destructor is done, in every such run, every fence ever added was signalled exactly once, for a reason, and the reference is gone |
| SemsurfPromises.OneOwner | backLib/kernel-open/nvidia-drm/nvidia-drm-fence.c:783-1180 | one owner per callback object, in every run with current readings |
| SemsurfPromises.NoUseAfterFree | backLib/kernel-open/nvidia-drm/nvidia-drm-fence.c:783-1180 | no step through a freed object, in every run with current readings |
| SemsurfPromises.FreedExactlyOnce | backLib/kernel-open/nvidia-drm/nvidia-drm-fence.c:1111-1180 | every object freed exactly once by the end of destruction, in every run with current readings |
| SemsurfPromises.AllSignalledOnce | backLib/kernel-open/nvidia-drm/nvidia-drm-fence.c:1111-1180 | every fence signalled exactly once by the end of destruction, in every run with current readings |
| SemsurfWakeup.ScanWakes | backLib/kernel-open/nvidia-drm/nvidia-drm-fence.c:848-875 | a scan, with any reading since it was called, leaves the lowest value tagged already and taken care of by others, or goes on to register it |
| SemsurfWakeup.StoreWakes | backLib/kernel-open/nvidia-drm/nvidia-drm-fence.c:940-985 | storing, or losing to a newer value, never leaves the tagged value without a waiter |
| SemsurfWakeup.HandlerWakes | backLib/kernel-open/nvidia-drm/nvidia-drm-fence.c:898-932 | from its start until its work runs, a fired callback means another scan is due |
| SemsurfWakeup.RegisterSignalledWakes | backLib/kernel-open/nvidia-drm/nvidia-drm-fence.c:1013-1051 | a thread told that its value is already signalled takes care of it with its next reading |
| SemsurfLost.WakesExactly | backLib/kernel-open/nvidia-drm/nvidia-drm-fence.c:811-1109 | in any live state of such a run the invariant of the wake-up proof holds if and only if every continuation without refusals stays awake |
| SemsurfLost.RefusalExactly | backLib/kernel-open/nvidia-drm/nvidia-drm-fence.c:1055-1070 | a registration may be refused (its value is not the tagged one, or somebody else stands for it, or it was reached and a scan that will see so is due or no pending fence needs one) if and only if every continuation without refusals stays awake |
| SemsurfWakeup.StepWakes | backLib/kernel-open/nvidia-drm/nvidia-drm-fence.c:783-1213 | every other step keeps the context awake, old readings included |
| SemsurfLost.RunAwakeIff | backLib/kernel-open/nvidia-drm/nvidia-drm-fence.c:811-1109 | a run with harmless scans is safe in that sense from every one of its states on if and only if every refusal in it meets that condition |
| SemsurfWakeup.AlwaysAwake | backLib/kernel-open/nvidia-drm/nvidia-drm-fence.c:811-1109 | in every run with harmless scans and such refusals, with fences pending, a scan is due or the lowest pending value is tagged and stood for by a registering thread or the installed callback |
| SemsurfPromises.AlwaysAwake | backLib/kernel-open/nvidia-drm/nvidia-drm-fence.c:811-1109 | the same in every run with current readings and without refusals |
| SemsurfWakeup.NoLostWakeup | backLib/kernel-open/nvidia-drm/nvidia-drm-fence.c:811-1109 | in every such run, at quiescence with fences pending, the installed callback is registered, has not fired, and waits for the lowest pending value |
| SemsurfPromises.NoLostWakeup | backLib/kernel-open/nvidia-drm/nvidia-drm-fence.c:811-1109 | the same in every run with current readings and without refusals |
| SemsurfProgress.StepWorks | backLib/kernel-open/nvidia-drm/nvidia-drm-fence.c:783-1180 | every step but an advance of the semaphore or the clock, a new fence or a timeout uses up work, so the retry loops and the destructor cannot go round for ever |
| SemsurfProgress.ComesToRest | backLib/kernel-open/nvidia-drm/nvidia-drm-fence.c:783-1180 | with harmless scans and no new fences and timeouts a run has at most as many steps as there is work, however the semaphore and the clock advance meanwhile |
| SemsurfPromises.ComesToRest | backLib/kernel-open/nvidia-drm/nvidia-drm-fence.c:783-1180 | the same after and in every run with current readings |
| SemsurfRest.RestCompletes | backLib/kernel-open/nvidia-drm/nvidia-drm-fence.c:811-1109 | in every run with harmless scans and tolerable refusals, a live context at rest has signalled every reached fence exactly once and has a registered callback for the lowest of the others |
| SemsurfPromises.RestCompletes | backLib/kernel-open/nvidia-drm/nvidia-drm-fence.c:811-1109 | the same in every run with current readings and without refusals |
| SemsurfTimeout.TimerScans | backLib/kernel-open/nvidia-drm/nvidia-drm-fence.c:1190-1213 | in every run, after the timer has fired and before a live context comes to rest, a scan reads a time no earlier than that and leaves no fence at the head of the list that had expired by then |
| SemsurfTimeout.ExpiredAreSignalled | backLib/kernel-open/nvidia-drm/nvidia-drm-fence.c:829-895 | so the expired fences at the head of the list when the timer fires have each been signalled exactly once by then, unless new fences are added meanwhile |
| SemsurfRest.DestructionEnds | backLib/kernel-open/nvidia-drm/nvidia-drm-fence.c:1111-1180 | once destruction has begun a run with harmless scans has at most as many steps as there is work, advances apart |
| SemsurfRest.RestIsDestroyed | backLib/kernel-open/nvidia-drm/nvidia-drm-fence.c:1111-1180 | the destructor is never stuck: when nothing can move it has run to its end |
| SemsurfRest.DestructionCompletes | backLib/kernel-open/nvidia-drm/nvidia-drm-fence.c:1111-1180 | a run at rest after destruction began has signalled every fence and freed every callback object exactly once |
| SemsurfPromises.DestructionCompletes | backLib/kernel-open/nvidia-drm/nvidia-drm-fence.c:1111-1180 | and has run the destructor to its end, in every run with current readings |
| SemsurfLimits.OldReadingBreaksOwnership | backLib/kernel-open/nvidia-drm/nvidia-drm-fence.c:816-846 | a run in which one semaphore reading is older than the lock leaves the context naming a callback whose handler will free it |
| SemsurfLimits.OldReadingUsesFreed | backLib/kernel-open/nvidia-drm/nvidia-drm-fence.c:1135-1142 | the run goes on to a destructor that reads through the freed callback |
| SemsurfLimits.OldReadingFreesTwice | backLib/kernel-open/nvidia-drm/nvidia-drm-fence.c:1171-1175 | and frees it a second time |
| SemsurfLimits.RefusalLosesWakeup | backLib/kernel-open/nvidia-drm/nvidia-drm-fence.c:1055-1070 | one refused registration leaves a pending fence without a waiter |
| PrimeModel.Ready | backLib/kernel-open/nvidia-drm/nvidia-drm-fence.c:178-200 | how many fences the event handler signals: each at most the value read for it, the next one above its own reading |
| PrimeTheorems.EventExact | backLib/kernel-open/nvidia-drm/nvidia-drm-fence.c:178-200 | an event signals a prefix of the pending fences, each for a reading that has reached it, and nothing the last reading reached stays pending |
| PrimeTheorems.StepOk | backLib/kernel-open/nvidia-drm/nvidia-drm-fence.c:147-389 | each call keeps the list nondecreasing and bounded by the last number, fences signalled in creation order, and every early signal caused by a wrap or destruction |
| PrimeTheorems.RunOk | backLib/kernel-open/nvidia-drm/nvidia-drm-fence.c:147-389 | so does every run of calls, and signals are never taken back |
| PrimeTheorems.SignalledExactlyOnce | backLib/kernel-open/nvidia-drm/nvidia-drm-fence.c:155-168 | in every run the signals are those of the first fences created, in creation order without repetition, and all of them after destruction |
| PrimeTheorems.HoldsWhatWasMade | backLib/kernel-open/nvidia-drm/nvidia-drm-fence.c:348-389 | in every run the fences signalled and pending are those created, with their numbers, in creation order; the last number is that of the newest |
| PrimeTheorems.WrapExactly | backLib/kernel-open/nvidia-drm/nvidia-drm-fence.c:359-366 | a new fence forces the pending ones out if and only if its number is below that of the newest fence before it |
| PrimeTheorems.DestroySignalsAll | backLib/kernel-open/nvidia-drm/nvidia-drm-fence.c:210-230 | a run that ends with destruction has signalled exactly the fences created, in that order |
| PrimeContext.Context.ForceFenceSignal | backLib/kernel-open/nvidia-drm/nvidia-drm-fence.c:155-168 | every pending fence is signalled in order |
| PrimeContext.Context.CreateFence | backLib/kernel-open/nvidia-drm/nvidia-drm-fence.c:348-389 | a wrapped number first force-signals what is pending; a failed allocation changes nothing |
| PrimeContext.Context.FenceEvent | backLib/kernel-open/nvidia-drm/nvidia-drm-fence.c:170-203 | the loop, which reads the semaphore again for every fence, takes the model's step |
| PrimeContext.Context.DestroyContext | backLib/kernel-open/nvidia-drm/nvidia-drm-fence.c:210-230 | destruction leaves nothing pending |
| WaitTheorems.RecordStep | backLib/kernel-open/nvidia-drm/nvidia-drm-fence.c:1547-1731 | each step of a wait keeps its callback, its place and its reference in step |
| WaitTheorems.StepOk | backLib/kernel-open/nvidia-drm/nvidia-drm-fence.c:1547-1731 | every step keeps all wait records, the list and the worker lock consistent |
| WaitTheorems.RunOk | backLib/kernel-open/nvidia-drm/nvidia-drm-fence.c:1547-1731 | so does every run |
| WaitTheorems.ListedUntilFreed | backLib/kernel-open/nvidia-drm/nvidia-drm-fence.c:1547-1731 | a record is on the list exactly from linking to unlinking, freed at most once, its fence reference dropped at most once; and exactly once each when nobody has work left with it, also on a live context |
| WaitTheorems.UpdateFollowsFence | backLib/kernel-open/nvidia-drm/nvidia-drm-fence.c:1560-1623 | in every run the update of the semaphore is asked for only when the fence has signalled or has taken no callback |
| WaitTheorems.UpdatedExactlyOnce | backLib/kernel-open/nvidia-drm/nvidia-drm-fence.c:1560-1715 | it is asked for exactly once by the end of the wait, by the ioctl if the fence took no callback and otherwise by the worker, and not at all exactly if the context was being destroyed when the fence signalled |
| WaitTheorems.ContextOutlivesUse | backLib/kernel-open/nvidia-drm/nvidia-drm-fence.c:765-777 | no step after the context is freed uses the context, although callbacks race with its destruction |
| WaitTheorems.DestructionEnds | backLib/kernel-open/nvidia-drm/nvidia-drm-fence.c:765-777 | once destruction has begun a run has at most as many steps as are left |
| WaitTheorems.NotStuck | backLib/kernel-open/nvidia-drm/nvidia-drm-fence.c:765-777 | until all is freed and dropped there is a next step |
| WaitTheorems.DestructionFreesAll | backLib/kernel-open/nvidia-drm/nvidia-drm-fence.c:739-777 | a run that cannot go on after destruction has freed the context and every record once and dropped every fence reference |
| QueueInvariants.AppendHistory | backLib/kernel-open/nvidia-drm/nv-kthread-q.c:257-275 | linking an item keeps first-in-first-out history and links none twice |
| QueueInvariants.StepTokens | backLib/kernel-open/nvidia-drm/nv-kthread-q.c:75-148 | semaphore count, raises still owed and the worker's token match the list entries and the stop token |
| QueueInvariants.StepHistory | backLib/kernel-open/nvidia-drm/nv-kthread-q.c:75-122 | what has run followed by what is queued is what was accepted |
| QueueInvariants.StepFlushes | backLib/kernel-open/nvidia-drm/nv-kthread-q.c:306-334 | a flush in progress has drained what its stage says |
| QueueInvariants.StepStop | backLib/kernel-open/nvidia-drm/nv-kthread-q.c:124-148 | the exit flag is up only under its one stopper, and its token is raised once |
| QueueInvariants.RunOk | backLib/kernel-open/nvidia-drm/nv-kthread-q.c:75-334 | all of these hold in every run |
| QueueTheorems.NeverAnEmptyQueue | backLib/kernel-open/nvidia-drm/nv-kthread-q.c:86-109 | the worker's empty-queue branch is unreachable in every run |
| QueueTheorems.FirstInFirstOut | backLib/kernel-open/nvidia-drm/nv-kthread-q.c:75-122 | items run in the order accepted, one at a time, none linked twice |
| QueueTheorems.FlushDrainsTwoGenerations | backLib/kernel-open/nvidia-drm/nv-kthread-q.c:306-334 | when a flush returns, all that was queued or running at the call has finished, and so has all that was queued at any moment at which some of that had not, for any contents and any concurrent callers |
| QueueTheorems.FlushRunsChildren | backLib/kernel-open/nvidia-drm/nv-kthread-q.c:326-334 | so every item that the running items schedule themselves has run since and finished |
| QueueTheorems.FlushNotStuck | backLib/kernel-open/nvidia-drm/nv-kthread-q.c:306-319 | while a flush waits on a live queue, the worker or a thread that owes a token can move |
| QueueTheorems.StepLock | backLib/kernel-open/nvidia-drm/nvidia-drm-os-interface.c:193-211 | the shutting-down flag and the lock around add_work keep accepted adders apart from the stop |
| QueueTheorems.RunWrapper | backLib/kernel-open/nvidia-drm/nvidia-drm-os-interface.c:181-211 | behind the stopper's flush items nothing more is queued, in every run of a workthread |
| QueueTheorems.ShutdownRunsAllWork | backLib/kernel-open/nvidia-drm/nvidia-drm-os-interface.c:181-211 | for any race of adders, when the exit flag goes up the list is empty, and when shutdown returns all that was linked has run in order and the worker is gone |
| QueueCalls.AddedWorkRuns | backLib/kernel-open/nvidia-drm/nvidia-drm-os-interface.c:193-211 | when a call to add work to a workthread not shutting down has returned, the item is queued or has begun to run since the call; once the workthread is being stopped, it has |
| QueueCalls.ScheduledWorkRuns | backLib/kernel-open/nvidia-drm/nv-kthread-q.c:287-299 | the same of a call to schedule an item on a queue that is not stopped |
| QueueCalls.OnlyRequestedRuns | backLib/kernel-open/nvidia-drm/nv-kthread-q.c:75-122 | the worker runs nothing but flush items and items that some call asked for |
| QueueProgress.ComesToRest | backLib/kernel-open/nvidia-drm/nv-kthread-q.c:75-334 | without new calls a run has at most as many steps as there is work |
| QueueProgress.WorkthreadFinishes | backLib/kernel-open/nvidia-drm/nvidia-drm-os-interface.c:181-211 | a workthread at rest has run all its items, nobody is inside or holds its lock, a shutdown has returned, and it takes new work |
| QueueTheorems.NoWorkAfterExit | backLib/kernel-open/nvidia-drm/nv-kthread-q.c:86-100 | an exited worker starts no more work |
| KthreadQueue.Queue.RawSchedule | backLib/kernel-open/nvidia-drm/nv-kthread-q.c:257-275 | afterwards the item is linked, behind what was; it is appended and the semaphore raised exactly if it was not linked before |
| KthreadQueue.Queue.ScheduleItem | backLib/kernel-open/nvidia-drm/nv-kthread-q.c:287-299 | afterwards the item is linked, unless the queue is being stopped, which refuses it |
| KthreadQueue.Queue.MainLoop | backLib/kernel-open/nvidia-drm/nv-kthread-q.c:75-122 | a run of the worker's steps: one item per token, in order, with a warning exactly for tokens without an item |
| KthreadQueue.Queue.EndStop | backLib/kernel-open/nvidia-drm/nv-kthread-q.c:138-147 | takes the machine's two steps and keeps its invariants: with the flag up there is one token more than there are list entries, those owed and held included |
| TimerLifecycle.StepOk | backLib/kernel-open/nvidia-modeset/nvidia-modeset-linux.c:582-848 | every step keeps each timer in one place with consistent flags and each weak pointer's count equal to its holders |
| TimerLifecycle.RunOk | backLib/kernel-open/nvidia-modeset/nvidia-modeset-linux.c:582-848 | so does every run |
| TimerTheorems.FreedExactlyOnce | backLib/kernel-open/nvidia-modeset/nvidia-modeset-linux.c:660-718 | a timer is freed exactly once, by callback or owner, when nobody has work left with it and its handle was given back, also if its procedure frees it |
| TimerTheorems.NoUseAfterFree | backLib/kernel-open/nvidia-modeset/nvidia-modeset-linux.c:582-718 | no step goes through a freed timer or weak pointer |
| TimerTheorems.NeverCalled | backLib/kernel-open/nvidia-modeset/nvidia-modeset-linux.c:834-848 | a procedure not started when its timer is freed, or its pointer released, is never called afterwards |
| TimerTheorems.QueuesOnce | backLib/kernel-open/nvidia-modeset/nvidia-modeset-linux.c:720-736 | a kernel timer that fires never finds its work queued already nor the queue stopped, so the warning is dead code |
| TimerFiring.DelayedTimerWaits | backLib/kernel-open/nvidia-modeset/nvidia-modeset-linux.c:785-798 | the worker takes a timer with a delay only after its kernel timer has fired |
| TimerFiring.ImmediateTimerReady | backLib/kernel-open/nvidia-modeset/nvidia-modeset-linux.c:785-788 | a timer without a delay never has a kernel timer, and until it is taken a free worker can take it |
| TimerFiring.CalledUnlessWithdrawn | backLib/kernel-open/nvidia-modeset/nvidia-modeset-linux.c:660-718 | in every run a procedure is called at most once, and by the time nobody has work left with its timer it was called, unless the timer was given back or its pointer released before |
| TimerFiring.GetsItsPointer | backLib/kernel-open/nvidia-modeset/nvidia-modeset-linux.c:692-706 | the procedure of a timer with a weak pointer is called exactly if the owner still holds the pointer, and gets what the owner gave |
| TimerTheorems.CountsReferences | backLib/kernel-open/nvidia-modeset/nvidia-modeset-linux.c:582-625 | a weak pointer's count is the owner's reference plus one per timer yet to look at it; it is freed exactly when the last is gone |
| TimerTheorems.ExitFreesEverything | backLib/kernel-open/nvidia-modeset/nvidia-modeset-linux.c:1779-1815 | after the drain and the queue stop no timer is listed and every timer and weak pointer was freed exactly once |
| TimerTheorems.ExitEnds | backLib/kernel-open/nvidia-modeset/nvidia-modeset-linux.c:1779-1815 | draining and stopping takes boundedly many steps whatever fires meanwhile |
| TimerTheorems.ExitNotStuck | backLib/kernel-open/nvidia-modeset/nvidia-modeset-linux.c:1779-1815 | until the queue is stopped there is a next step |
| NvkmsTimers.TimerObject.FreeTimer | backLib/kernel-open/nvidia-modeset/nvidia-modeset-linux.c:834-848 | takes the machine's step: the owner frees the timer exactly if the kernel, the queue and the worker have no work left with it, otherwise they find it cancelled |
| NvkmsTimers.TimerObject.RunCallback | backLib/kernel-open/nvidia-modeset/nvidia-modeset-linux.c:690-717 | calls the procedure exactly if not cancelled and its pointer is there; frees the timer exactly once, or leaves a completed handle to its owner |
| NvkmsTimers.TimerList.DrainAtExit | backLib/kernel-open/nvidia-modeset/nvidia-modeset-linux.c:1779-1810 | whatever fires and is taken off between its restarts, the loop ends with no timer left that has a pending kernel timer, has freed only timers that had one and dropped the weak pointers they held |
| NvkmsTimers.DrainSplits | backLib/kernel-open/nvidia-modeset/nvidia-modeset-linux.c:1779-1810 | with nobody else at the list it has freed exactly the pending ones and left the others, each in their order |
| NvkmsTimers.FilterExact | backLib/kernel-open/nvidia-modeset/nvidia-modeset-linux.c:1784-1791 | which of them those are |
| FlipTracking.DequeuePlaces | backLib/kernel-open/nvidia-drm/nvidia-drm-crtc.h:246-272 | dequeueing moves a flip and its deferred flips to the handler or leaves them on the list |
| FlipTracking.StepConserved | backLib/kernel-open/nvidia-drm/nvidia-drm-modeset.c:266-285 | every step, timeouts and failed commits included, keeps each flip in exactly one place and every queued flip waiting for an event |
| FlipTracking.RunConserved | backLib/kernel-open/nvidia-drm/nvidia-drm-modeset.c:511-556 | so does every run, so the 32-bit decrement never wraps |
| FlipCounting.DequeueExactly | backLib/kernel-open/nvidia-drm/nvidia-drm-crtc.h:246-272 | an event takes the flip at the head off the list exactly if it is the last one the flip waits for, with what was deferred to it; any other counts it down and changes nothing else |
| FlipCounting.HeadLeaves | backLib/kernel-open/nvidia-drm/nvidia-drm-crtc.h:257-264 | a flip queued for n events stays through n - 1 of them and goes with the next |
| FlipCounting.RunAwaited | backLib/kernel-open/nvidia-drm/nvidia-drm-modeset.c:266-402 | in every run the events announced by commits are those still awaited and those that found a flip |
| FlipCounting.EmptyWhenReported | backLib/kernel-open/nvidia-drm/nvidia-drm-modeset.c:266-402 | so the list is empty if and only if the hardware has reported all that was announced |
| FlipOrder.EventsExactlyOnce | backLib/kernel-open/nvidia-drm/nvidia-drm-modeset.c:360-592 | in every run, timeouts and failed commits included, each event that is due is sent or still to come exactly once, and no other |
| FlipCommits.DueExactly | backLib/kernel-open/nvidia-drm/nvidia-drm-modeset.c:266-302 | the events due are those of the commits that asked for one, except commits that failed with a flip the hardware does not report |
| FlipCommits.BlockingCommitWaits | backLib/kernel-open/nvidia-drm/nvidia-drm-modeset.c:556-592 | when a blocking commit ends other than by a timeout no flip is queued, and every event due so far is sent or being sent |
| FlipCommits.WaitsIfAppliedAndBlocking | backLib/kernel-open/nvidia-drm/nvidia-drm-modeset.c:492-592 | only a commit that was applied comes to the wait at its end, and a nonblocking one never has to stay there |
| FlipOrder.EnqueueOrder | backLib/kernel-open/nvidia-drm/nvidia-drm-crtc.h:235-241 | queueing a flip puts its event in front of all that are queued and behind what is sent or with the handler |
| FlipOrder.DeferOrder | backLib/kernel-open/nvidia-drm/nvidia-drm-modeset.c:522-541 | deferring a flip puts its event in front of those deferred to the same entry |
| FlipOrder.HandlerOrder | backLib/kernel-open/nvidia-drm/nvidia-drm-modeset.c:360-402 | the handler keeps to the order |
| FlipOrder.RunOrderIff | backLib/kernel-open/nvidia-drm/nvidia-drm-modeset.c:360-592 | events sent and to come are in commit order if and only if no event-carrying commit was queued in front of a queued event or deferred in front of a deferred one |
| FlipOrder.HandlerDrains | backLib/kernel-open/nvidia-drm/nvidia-drm-modeset.c:360-402 | the handler can always bring out all that is queued, in that order |
| FlipOrder.SentInOrderIff | backLib/kernel-open/nvidia-drm/nvidia-drm-modeset.c:360-592 | events are sent in commit order, whatever such commits follow, if and only if all commits of the run were such |
| FlipOrder.CalmIsOrderly | backLib/kernel-open/nvidia-drm/nvidia-drm-modeset.c:426-467 | without timeouts at most one flip is queued, the deferring branch is not reached, and every commit is such |
| FlipOrder.EventsInCommitOrder | backLib/kernel-open/nvidia-drm/nvidia-drm-modeset.c:360-592 | in every run without timeouts events are sent in commit order, never twice, and all of them once nothing is under way |
| FlipOrder.TimeoutReorders | backLib/kernel-open/nvidia-drm/nvidia-drm-modeset.c:453-466 | a run with two timed-out waits sends the event of the second commit before that of the first |
| FlipCrtc.WillGenerateFlipEvent | backLib/kernel-open/nvidia-drm/nvidia-drm-modeset.c:88-127 | the number of expected events is the number of planes of the CRTC, cursors apart, scanned out before the commit |
| FlipCrtc.Crtc.Dequeue | backLib/kernel-open/nvidia-drm/nvidia-drm-crtc.h:246-272 | the flip at the head comes off the list, with what was deferred to it, if and only if it waited for exactly one event; otherwise it is counted down |
| FlipCrtc.Crtc.CompleteDeferred | backLib/kernel-open/nvidia-drm/nvidia-drm-modeset.c:380-396 | every deferred flip gets its event and is freed, in list order |
| FlipCrtc.Crtc.HandleFlipEvent | backLib/kernel-open/nvidia-drm/nvidia-drm-modeset.c:360-402 | sends the events of the dequeued flip and of those deferred to it, and frees them all; it sends or frees something only with the last event the head waited for |
| FlipCrtc.Crtc.SettleFlip | backLib/kernel-open/nvidia-drm/nvidia-drm-modeset.c:522-556 | a flip without a hardware event is deferred to the last queued one, or completed at once |
| PermissionModel.StopsAt | backLib/kernel-open/nvidia-drm/nvidia-drm-drv.c:1162-1176 | the loop over connectors stops at the first chosen one whose disable fails |
| PermissionTheorems.GrantRelated | backLib/kernel-open/nvidia-drm/nvidia-drm-drv.c:955-1020 | a grant keeps the relation between connectors and CRTCs |
| PermissionExact.CanGrantExactly | backLib/kernel-open/nvidia-drm/nvidia-drm-drv.c:894-991 | a CRTC can be handed out if and only if the connector is the first one of the display and is free, its encoder can drive the CRTC, the file sees it and nobody holds it, and it is the one that drives the connector if that meets these, and else one that drives no connector |
| PermissionExact.GrantPicks | backLib/kernel-open/nvidia-drm/nvidia-drm-drv.c:955-1020 | what is handed out: the CRTC that drives the connector, if it can be, and otherwise none that drives any connector; the lowest such; and only the fields of the two change |
| PermissionTheorems.RevokeRelated | backLib/kernel-open/nvidia-drm/nvidia-drm-connector.c:629-646 | revoking a connector keeps the relation |
| PermissionTheorems.FirstExact | backLib/kernel-open/nvidia-drm/nvidia-drm-drv.c:1162-1176 | exactly the chosen connectors up to where the loop stops, and their CRTCs, lose their holder |
| PermissionTheorems.FileClearsNothing | backLib/kernel-open/nvidia-drm/nvidia-drm-drv.c:1178-1184 | with the relation the loop over CRTCs finds nothing left to clear |
| PermissionExact.RevokeExactly | backLib/kernel-open/nvidia-drm/nvidia-drm-drv.c:1127-1184 | a revocation takes the holder from exactly the connectors the file holds, with the display if one is given, up to the first that could not be disabled, and from their CRTCs |
| PermissionExact.CloseClearsAll | backLib/kernel-open/nvidia-drm/nvidia-drm-drv.c:1162-1184 | a close that could disable all the file holds leaves no mention of it, also on CRTCs that no connector names |
| PermissionExact.UnplugExactly | backLib/kernel-open/nvidia-drm/nvidia-drm-connector.c:211-214 | an unplugged connector and its CRTC lose their holder and nothing else changes |
| PermissionExact.LeaseExactly | backLib/kernel-open/nvidia-drm/nvidia-drm-drv.c:1372-1417 | revoking a lease takes the holder from exactly its connectors, their CRTCs and its CRTCs |
| PermissionTheorems.CloseLeavesNothingIff | backLib/kernel-open/nvidia-drm/nvidia-drm-drv.c:1265-1279 | after a close nothing names the file if and only if every connector it held could be disabled |
| PermissionTheorems.CloseSparesOthers | backLib/kernel-open/nvidia-drm/nvidia-drm-drv.c:1127-1184 | a close touches nothing another file holds |
| PermissionTheorems.LeaseRelatedIff | backLib/kernel-open/nvidia-drm/nvidia-drm-drv.c:1372-1417 | revoking a lease keeps the relation if and only if every granted connector whose CRTC is listed is listed too |
| PermissionTheorems.StepRelated | backLib/kernel-open/nvidia-drm/nvidia-drm-drv.c:911-1279 | grants, revokes, closes, hot-unplugs and modesets each keep the relation |
| PermissionTheorems.RunRelated | backLib/kernel-open/nvidia-drm/nvidia-drm-drv.c:911-1417 | in every run whose leases list a granted connector with its CRTC, a connector has a holder if and only if it has a CRTC, the CRTC has the same holder, no two connectors share one, and every held CRTC is some connector's |
| PermissionDevice.ModesetDevice.UsableHeads | backLib/kernel-open/nvidia-drm/nvidia-drm-drv.c:965-974 | the heads of exactly the CRTCs that are visible, unheld and possible |
| PermissionDevice.ModesetDevice.RemoveUsed | backLib/kernel-open/nvidia-drm/nvidia-drm-drv.c:980-991 | exactly the heads no connector uses remain, so none of a CRTC that drives a connector |
| PermissionDevice.ModesetDevice.FreeHeads | backLib/kernel-open/nvidia-drm/nvidia-drm-drv.c:965-991 | the connector's own head if it can be given, otherwise the unused ones |
| PermissionDevice.ModesetDevice.GrantPermission | backLib/kernel-open/nvidia-drm/nvidia-drm-drv.c:911-1034 | asks NVKMS if and only if a connector with the display is detected, visible and free and a CRTC for it exists, and about the head of the first such CRTC; hands out that CRTC if and only if NVKMS accepts; otherwise nothing changes |
| PermissionDevice.ModesetDevice.ClearHolders | backLib/kernel-open/nvidia-drm/nvidia-drm-drv.c:1178-1184 | the chosen CRTCs lose their holder, no others |
| PermissionDevice.ModesetDevice.RevokePermission | backLib/kernel-open/nvidia-drm/nvidia-drm-drv.c:1127-1212 | does the model's revocation and reaches the commit exactly if all chosen connectors could be disabled |
| PermissionDevice.ModesetDevice.PostClose | backLib/kernel-open/nvidia-drm/nvidia-drm-drv.c:1265-1279 | revokes everything of the file, if the device has CRTCs and connectors at all |
| PermissionDevice.ModesetDevice.FinishRevokingObjects | backLib/kernel-open/nvidia-drm/nvidia-drm-drv.c:1372-1417 | the listed connectors are revoked, then the listed CRTCs cleared |

## Left out

- SemsurfContext.FenceContext.RegCallbacks: states termination with nobody adding fences meanwhile; with adders it may go round again, and `SemsurfProgress.ComesToRest` bounds all threads together once no fences are added.
- SemsurfRuns.OneOwner: covers the runs whose scans are harmless, because the property is false otherwise (`RunSoundIff`); so do the other theorems on whole runs of the fence context.
- SemsurfWakeup.AlwaysAwake: covers the runs whose refusals are tolerable besides, because the property is false otherwise (`RunAwakeIff`).
- FlipOrder.EventsInCommitOrder: covers runs in which no three-second wait expires; `SentInOrderIff` covers all runs.
- TimerTheorems.ExitFreesEverything: assumes that core NVKMS has given back every handle and pointer at unload, which is core NVKMS's part.
- A failed callback allocation, after which the code has no waiter: callback allocation is taken to succeed.
- SemsurfTimeout.TimerScans: the timer may fire at any time; how it is armed, and wall-clock bounds on timeouts and waits, are not modelled.
- SemsurfTimeout.ExpiredAreSignalled: assumes that no fence is added meanwhile, because a new one with a lower value may go in front of an expired one and has to be taken off first.
- Sync-fd wait records are modelled on values only; their intrusive list is a set, and the two values of a wait are not followed into NVKMS.
- Several CRTCs in one commit: the flip machine follows one CRTC; a commit visits its CRTCs one after the other.
- The order in which the worker takes items in the timer, fence and wait machines is any order, which covers the first-in-first-out order proved of the queue.
- Which of several blocked threads a semaphore or a spinlock wakes.
- NVKMS's own record of grants: it is told of a revocation only while the connector's encoder is detected.
- What the atomic commit at the end of a revocation does to the display, and sub-ownership grants.
- Module parameters, procfs, character devices, ioctl argument copying, GEM and mmap wrappers, suspend and resume, NUMA placement of the worker thread.
- Display modes, formats, colour conversion, firmware packing and the other programs in the repository: they would only add easy members.
