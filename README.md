# CPU hotplug and thermal unit conversions, modelled in Dafny

This project models two pieces of an Android kernel tree.

The first is the bookkeeping and transition logic of the CPU hotplug core in
`kernel/cpu.c`, as a sequential state machine:

- the `cpu_hotplug_disabled` gate;
- the `cpu_hotplug` reader/writer barrier (`active_writer`, `refcount`);
- the per-CPU `hotplug_pcp` pin descriptors;
- the possible/present/online/active/isolated membership masks;
- the checks `cpu_down`, `cpu_up` and `cpus_down` make before they start;
- the phases of `_cpu_down`, `_cpu_up`, `cpus_down` and `cpus_up`, with their
  notifier rollback;
- suspend and resume (`disable_nonboot_cpus`, `enable_nonboot_cpus`) and the
  `frozen_cpus` set;
- the `mitigations=` boot parameter.

The second is the temperature conversion macros and `cdev_is_power_actor` of
`include/linux/thermal.h`.

Layout:

- `types.dfy` holds the shared vocabulary: CPU ids (`NR_CPUS` = 8), return
  codes, notifier messages, and the trace of external effects.
- The state the code updates in place is modelled by classes, whose methods
  carry `modifies` clauses: `CpuMasks`, `HotplugLock`, `HotplugPcp`, and the
  `CpuHotplug` engine.
- Each method is proved to leave the state a pure function describes:
  - `Gate.Step` and `Barrier.ReadRelease` for the gate and the barrier;
  - `Phases.DownStageOf`/`DownEvents` for `_cpu_down`;
  - `Phases.UpStageOf`/`UpEvents` for `_cpu_up`;
  - `Batch.CpusDownStage` for `cpus_down` and `UpBatch.CpusUpRun` for `cpus_up`;
  - `Suspend.DisableNonboot` and `Suspend.EnableNonboot` for suspend and resume.
- The properties the code promises are lemmas about those functions.

The notifier chain is an input. A `Chain` has a number of subscribers and the
answer each one gives to each message. A veto by subscriber `k` makes
`nr_calls` equal to `k + 1`. The opaque steps are inputs too, as the records
`DownEnv` and `UpEnv`:

- `alloc_cpumask_var`;
- the move off the target CPU;
- `kthread_create`;
- `stop_machine`;
- `try_online_node`, `idle_thread_get`, `smpboot_create_threads` and `__cpu_up`.

The following effects outside the file are appended to a trace, in order:

- notifier calls;
- the cpuidle enable and disable;
- smpboot park and unpark;
- the pinned-section drain;
- `irq_lock_sparse` and `irq_unlock_sparse`;
- stop_machine and `__cpu_die`;
- the scheduler's unplug begin and end;
- the perf interrupt affinity calls.

The other calls these functions make are listed under "## Left out".

`cpus_down` as modelled by the engine releases the sparse-irq lock on its
stop_machine failure path, which the code does not. The code as written is
kept beside it as `Batch.CpusDownEventsAsWritten`; see "## Findings".

Two behaviours of the code that the model keeps as written:

- The rollback after a refused CPU_DOWN_PREPARE or CPU_UP_PREPARE does not
  replay the chain in reverse. It calls `__cpu_notify` again with
  `nr_calls - 1` (or `nr_calls`), so the subscribers that accepted are walked
  again from the front of the chain, in forward order. The model does the same
  (`Phases.DownVetoRollback`, `Phases.UpRollback`,
  `Batch.CpusDownVetoRollback`).
- `enable_nonboot_cpus` returns before `reaffine_perf_irqs` when
  `frozen_cpus` is empty. After a suspend that froze nothing, the perf
  interrupts moved by `unaffine_perf_irqs` are never moved back. The model
  keeps that behaviour and states it (`Suspend.NothingFrozenNoReaffine`).

## Model

| member | source | states |
|---|---|---|
| Thermal.TruncDiv | include/linux/thermal.h:55 | C division: the quotient is truncated toward zero, so the remainder has the sign of the dividend and is smaller than the divisor |
| Thermal.DeciKelvinToCelsius | include/linux/thermal.h:53-56 | the result is (t − 2732)/10 rounded to the nearest whole degree, with halves rounded away from zero on both sides of 0 °C |
| Thermal.CelsiusRoundTrip | include/linux/thermal.h:53-57 | whole degrees Celsius converted to deci-Kelvin and back come back unchanged, for every integer |
| Thermal.DeciKelvinRoundTripWithinHalfDegree | include/linux/thermal.h:53-57 | deci-Kelvin converted to Celsius and back lands within 5 dK of the input |
| Thermal.DeciKelvinToCelsiusOddSymmetric | include/linux/thermal.h:53-56 | the conversion is odd-symmetric about 2732 dK: f(2732 + d) == −f(2732 − d) |
| Thermal.DeciKelvinToCelsiusMonotone | include/linux/thermal.h:53-56 | a warmer reading never converts to fewer degrees |
| Thermal.MilliCelsiusRoundTripWithOffset | include/linux/thermal.h:58-60 | deci-Kelvin to milli-Celsius and back is the identity, for every offset |
| Thermal.MilliCelsiusRoundTrip | include/linux/thermal.h:58-61 | the same round trip with the default 2732 offset |
| Thermal.DeciKelvinRoundTripExactIff | include/linux/thermal.h:58-60 | milli-Celsius to deci-Kelvin and back returns the input exactly when it is a multiple of 100 |
| Thermal.PowerActorIgnoresOtherCallbacks | include/linux/thermal.h:422-426 | the answer depends on the three power callbacks alone: devices that agree on them get the same answer whatever else they supply |
| Gate.Step | kernel/cpu.c:477-490 | a disable raises the counter; an enable lowers a positive counter and leaves 0 at 0; a non-negative counter stays non-negative |
| Gate.ReplayNeverNegative | kernel/cpu.c:477-490 | no sequence of disables and enables drives the counter below zero |
| Gate.ReplayDisables | kernel/cpu.c:477-482 | n disables raise the counter by n |
| Gate.ReplayEnables | kernel/cpu.c:485-497 | m enables lower the counter by m, clamped at 0 |
| Gate.DisablesThenEnables | kernel/cpu.c:477-497 | from an open gate, n disables then m enables leave max(n − m, 0), so the gate reopens exactly when m ≥ n |
| Gate.BalancedPairsRestore | kernel/cpu.c:477-497 | n disables followed by n enables restore any starting count |
| Engine.CpuHotplug.CpuHotplugDisable | kernel/cpu.c:477-482 | the gate takes one disable step; nothing else changes |
| Engine.CpuHotplug.CpuHotplugEnable | kernel/cpu.c:485-497 | the gate takes one enable step, and `warned` is the unbalanced-enable condition WARN_ONCE tests: it holds exactly when the gate was already open |
| Barrier.ReadAcquire | kernel/cpu.c:381-390 | get_online_cpus by the active writer changes nothing; by anyone else it adds one reader |
| Barrier.ReadRelease | kernel/cpu.c:393-409 | put_online_cpus by the active writer changes nothing; otherwise it removes one reader, and an underflow is undone |
| Barrier.ReplayKeepsCountNonNegative | kernel/cpu.c:381-409 | whatever readers do, however unbalanced, the reader count never goes negative and the writer is untouched |
| Barrier.ReadPairRestores | kernel/cpu.c:381-409 | a get followed by the same task's put leaves the barrier as it was |
| Barrier.HotplugLock.constructor | kernel/cpu.c:82-89 | the barrier starts with no writer and no reader |
| Barrier.HotplugLock.GetOnlineCpus | kernel/cpu.c:381-390 | the barrier becomes ReadAcquire of its old state |
| Barrier.HotplugLock.PutOnlineCpus | kernel/cpu.c:393-409 | the barrier becomes ReadRelease of its old state, with a warning exactly on an unbalanced release |
| Barrier.HotplugLock.Begin | kernel/cpu.c:438-458 | cpu_hotplug_begin returns with the caller as active writer and no reader inside |
| Barrier.HotplugLock.Done | kernel/cpu.c:460-468 | cpu_hotplug_done clears the active writer |
| Pin.PinDecision | kernel/cpu.c:153-191 | a pin blocks on the descriptor lock exactly when the fast path is refused and grab_lock is set; it migrates exactly when the fast path is refused, grab_lock is clear and migrate_me succeeds |
| Pin.PinWithoutUnplugNeverWaits | kernel/cpu.c:161-165 | with no unplug pending, or for the unplugger itself, a pin is taken at once |
| Pin.BlockedOnlyWhileDraining | kernel/cpu.c:161-188 | a caller blocks only while another task's unplug holds grab_lock, with no pin held and preemption not nested |
| Pin.PinUnpinRestores | kernel/cpu.c:153-207 | a pin taken and released leaves the descriptor as it was; the release wakes the unplugger exactly when it was the last pin and the caller is not the unplugger |
| Pin.HotplugPcp.constructor | kernel/cpu.c:143 | a descriptor starts zeroed |
| Pin.HotplugPcp.PinCurrentCpu | kernel/cpu.c:153-191 | the outcome is PinDecision, and the descriptor changes as that outcome says |
| Pin.HotplugPcp.UnpinCurrentCpu | kernel/cpu.c:198-207 | the count drops by one; the unplugger is woken as UnpinWakes says; a warning is given exactly when no pin was held |
| Pin.HotplugPcp.UnplugBegin | kernel/cpu.c:299-336 | the lock is marked initialised, and the helper is recorded when its creation succeeds and cleared otherwise; its error is returned |
| Pin.HotplugPcp.UnplugWait | kernel/cpu.c:218-225 | the helper becomes the unplugger |
| Pin.HotplugPcp.UnplugSync | kernel/cpu.c:338-360 | grab_lock is set and the helper is stopped and forgotten |
| Pin.HotplugPcp.UnplugDone | kernel/cpu.c:362-379 | unplug and grab_lock are cleared; nothing else changes |
| Masks.SetBit | kernel/cpu.c:1369-1409 | setting or clearing one CPU's bit decides that bit and leaves every other bit as it was |
| Masks.SetBitIdempotentAndCommutes | kernel/cpu.c:1369-1409 | setting a bit twice is setting it once, and updates of two different CPUs commute |
| Masks.CpuMasks.constructor | kernel/cpu.c:1329-1366 | the masks start as given |
| Masks.CpuMasks.SetCpuPossible | kernel/cpu.c:1369-1375 | only the possible mask changes, in one bit |
| Masks.CpuMasks.SetCpuPresent | kernel/cpu.c:1377-1383 | only the present mask changes, in one bit |
| Masks.CpuMasks.SetCpuOnline | kernel/cpu.c:1385-1393 | going online adds the CPU to both the online and the active mask; going offline removes it from the online mask only |
| Masks.CpuMasks.SetCpuActive | kernel/cpu.c:1395-1401 | only the active mask changes, in one bit |
| Masks.CpuMasks.SetCpuIsolated | kernel/cpu.c:1403-1409 | only the isolated mask changes, in one bit |
| Masks.CpuMasks.InitCpuPresent | kernel/cpu.c:1411-1414 | the present mask becomes a copy of the source; the others are untouched |
| Masks.CpuMasks.InitCpuPossible | kernel/cpu.c:1416-1419 | the possible mask becomes a copy of the source; the others are untouched |
| Masks.CpuMasks.InitCpuOnline | kernel/cpu.c:1421-1424 | the online mask becomes a copy of the source; the others are untouched |
| Masks.CpuMasks.InitCpuIsolated | kernel/cpu.c:1426-1429 | the isolated mask becomes a copy of the source; the others are untouched |
| Mitigations.Parse | kernel/cpu.c:1433-1444 | the setting is off exactly when the word is "off", or when the word is unsupported and the setting was already off |
| Mitigations.ParseFacts | kernel/cpu.c:1433-1444 | an unsupported word changes nothing; a supported word decides the setting whatever came before; parsing the same word twice is parsing it once |
| Engine.CpuHotplug.MitigationsParseCmdline | kernel/cpu.c:1431-1444 | it returns 0 and leaves the setting Parse describes |
| Notifier.FirstVeto | kernel/cpu.c:522-531 | the position of the first refusal: every subscriber before it accepted |
| Notifier.NrCalls | kernel/cpu.c:522-531 | nr_calls counts the subscribers called, up to and including the first that refuses |
| Notifier.ChainErr | kernel/cpu.c:527-530 | the call fails exactly when some subscriber refuses, and then with the first refuser's error |
| Notifier.CalledCalls | kernel/cpu.c:522-531 | a call limited to n subscribers reaches, about that CPU and with that message, exactly subscribers 0..n−1, each once and in chain order |
| Notifier.VetoedCallReachesVetoer | kernel/cpu.c:743-746 | after a refusal, nr_calls − 1 is exactly the position of the refusing subscriber, so the rollback reaches every subscriber that accepted and no other |
| Phases.PrepareOutcome | kernel/cpu.c:741-773 | once its helper exists, `_cpu_down` stops at a DOWN_PREPARE veto, at a stop_machine failure, or with the CPU dead |
| Phases.DownErr | kernel/cpu.c:694-818 | `_cpu_down` returns 0 exactly when the CPU died |
| Phases.DownRefusals | kernel/cpu.c:706-710 | the last online CPU gets -EBUSY and an offline CPU -EINVAL; a refused down changes no mask, no descriptor and no trace |
| Phases.DownSucceedsIff | kernel/cpu.c:694-818 | `_cpu_down` succeeds exactly when more than one CPU is online, the CPU is online, every opaque step succeeds and no subscriber refuses; then that CPU alone leaves the online mask and at least one CPU stays |
| Phases.DownVetoRollback | kernel/cpu.c:743-751 | on a DOWN_PREPARE veto the subscribers that accepted, exactly the first nr_calls − 1 walked from the front, get DOWN_FAILED; cpuidle is disabled and then re-enabled; the online mask is untouched |
| Phases.VetoedDownCalls | kernel/cpu.c:743-751 | the trace of a vetoed down sends DOWN_PREPARE to subscribers 0..k and DOWN_FAILED to 0..k−1, inside the cpuidle disable/enable pair |
| Phases.DownReleasesIrqLock | kernel/cpu.c:765-789 | every `_cpu_down` that takes irq_lock_sparse releases it before returning, and only a down that reaches stop_machine takes it |
| Phases.StopFailedReleasesIrqLock | kernel/cpu.c:765-773 | a stop_machine failure in `_cpu_down` takes and then releases the sparse-irq lock |
| Phases.DiedReleasesIrqLock | kernel/cpu.c:765-789 | a successful `_cpu_down` takes and then releases the sparse-irq lock |
| Phases.DownLeavesPinsFree | kernel/cpu.c:362-379 | after any `_cpu_down` that created its helper, no unplug is pending, grab_lock is clear, the pin count is unchanged, and every pin takes the fast path |
| Phases.UpErr | kernel/cpu.c:1024-1075 | `_cpu_up` returns 0 exactly when the CPU came up |
| Phases.UpRefusals | kernel/cpu.c:1033-1036 | a CPU that is already online or not present gets -EINVAL, no subscriber is notified, and the mask is unchanged |
| Phases.UpSucceedsIff | kernel/cpu.c:1024-1075 | `_cpu_up` succeeds exactly when the CPU is offline and present, every opaque step succeeds and no subscriber refuses; then that CPU alone joins the mask |
| Phases.UpRollback | kernel/cpu.c:1048-1069 | a failed bring-up sends UP_CANCELED to exactly the subscribers that accepted UP_PREPARE, from the front of the chain; ONLINE is never sent; the mask is untouched |
| Phases.UpThenDownRestoresOnline | kernel/cpu.c:1024-1075 | bringing an offline CPU up and taking it down again, with every step succeeding, restores the online mask |
| Policy.ClusterCheck | kernel/cpu.c:825-830 | the rule passes (0) exactly when some online CPU other than the one leaving is in the big cluster and some is in the little cluster; otherwise -EINVAL |
| Policy.CpuDownRefusals | kernel/cpu.c:820-844 | the cluster rule (-EINVAL) is checked before the gate (-EBUSY), and both before `_cpu_down`, whose result is returned otherwise |
| Policy.CpuDownKeepsBothClusters | kernel/cpu.c:825-839 | whatever `_cpu_down` then does, a `cpu_down` that passes the cluster rule leaves a big and a little CPU online |
| Policy.ClusterRuleScenario | kernel/cpu.c:825-830 | with little {0,1} and big {2,3} online, CPU 1 may go, then CPU 0 may not, but CPU 3 may |
| Policy.CpuUpRefusals | kernel/cpu.c:1077-1124 | `cpu_up` refuses a CPU that is not possible or not in the early mask (-EINVAL), then a closed gate (-EBUSY), and succeeds exactly when every check passes and `_cpu_up` succeeds |
| Policy.CpusDownCheck | kernel/cpu.c:861-867 | the checks pass (0) exactly when the gate is open, some requested CPU is online and some online CPU was not requested; otherwise -EBUSY |
| Policy.CpusDownCheckLeavesOne | kernel/cpu.c:861-867 | a `cpus_down` that passes its checks acts on at least one CPU and leaves at least one online |
| Batch.VetoFrom | kernel/cpu.c:871-882 | the first CPU of the target whose DOWN_PREPARE is refused, with every earlier target CPU accepted |
| Batch.CpusDownErr | kernel/cpu.c:847-970 | `cpus_down` returns 0 exactly when the whole batch went down |
| Batch.CpusDownSucceedsIff | kernel/cpu.c:847-970 | `cpus_down` succeeds exactly when its checks pass, nobody refuses any CPU of the target, and stop_machine succeeds; then exactly the target leaves the online mask, at least one CPU stays, and on failure the mask is unchanged |
| Batch.CpusDownVetoRollback | kernel/cpu.c:871-964 | on a refusal about CPU v, each earlier target CPU gets DOWN_FAILED from every subscriber, v only from those that accepted it, later CPUs were never asked, and the online mask is unchanged |
| Batch.CpusDownNotifiesDead | kernel/cpu.c:924-943 | a successful `cpus_down` sends CPU_DEAD and CPU_POST_DEAD about each CPU of the target to every subscriber, and about no other CPU |
| Batch.StopPrefixHoldsIrqLock | kernel/cpu.c:884-896 | the effects up to stop_machine leave the sparse-irq lock held |
| Batch.StopFailureLeaksIrqLock | kernel/cpu.c:949-955 | as written, a `cpus_down` whose stop_machine fails returns with the sparse-irq lock still held |
| Batch.StopFailureLeakExample | kernel/cpu.c:894-955 | a concrete call that reaches that path: CPUs {0,1} online, `cpus_down({1})`, stop_machine fails |
| Batch.CpusDownReleasesIrqLock | kernel/cpu.c:894-955 | with the unlock on the failure path, every `cpus_down` returns with the sparse-irq lock released |
| UpBatch.CpuUpStep | kernel/cpu.c:1077-1124 | one `cpu_up` returns 0 exactly when its CPU joins both the online and active masks; otherwise neither mask moves |
| UpBatch.CpusUpFromMasks | kernel/cpu.c:973-987 | the loop only adds CPUs of the target to the online mask and adds the same CPUs to the active mask; when none of the target was online at the start, it ends without error exactly when every target CPU is online |
| UpBatch.CpusUpSucceedsIff | kernel/cpu.c:973-987 | `cpus_up` never takes a CPU offline, brings up only requested CPUs, marks active exactly those, and returns 0 exactly when every requested CPU is online afterwards |
| UpBatch.CpusUpGateClosed | kernel/cpu.c:973-987 | with the gate closed nothing changes and nobody is notified, and the call fails exactly when some CPU needed bringing up |
| Suspend.FirstCpu | kernel/cpu.c:1136 | cpumask_first: the lowest CPU of the mask, or NR_CPUS when it is empty |
| Suspend.DisableFromMasks | kernel/cpu.c:1144-1156 | the loop only takes CPUs other than the first offline, and exactly the CPUs it takes offline join frozen_cpus |
| Suspend.DisableFromErr | kernel/cpu.c:1144-1156 | the loop ends without error exactly when every CPU except the first is offline afterwards |
| Suspend.DisableFromPcps | kernel/cpu.c:1144-1156 | CPUs the loop does not try to take down keep their hotplug_pcp descriptors |
| Suspend.DisableNonbootOutcome | kernel/cpu.c:1130-1171 | the first online CPU stays online; frozen_cpus is exactly the CPUs taken offline; the result is 0 exactly when at most one CPU is left online; perf interrupts are moved off first |
| Suspend.EnableFromMasks | kernel/cpu.c:1197-1212 | the resume loop only brings frozen CPUs online and marks active exactly those; when each can come up, all of them do |
| Suspend.EnableNonbootReaffines | kernel/cpu.c:1182-1220 | with nothing frozen there are no effects and no mask changes; otherwise the last effect puts perf interrupts back |
| Suspend.EnableNonbootRestores | kernel/cpu.c:1182-1220 | when every frozen CPU is offline and can come up, the resume brings exactly the frozen CPUs online and active |
| Suspend.SuspendResumeRestoresOnline | kernel/cpu.c:1130-1220 | a suspend followed by a resume in which every frozen CPU can come up restores the online mask and marks the returning CPUs active |
| Suspend.NothingFrozenNoReaffine | kernel/cpu.c:1130-1220 | when the suspend froze nothing, perf interrupts were moved off but the resume never puts them back |
| Engine.CpuHotplug.constructor | kernel/cpu.c:63-89 | the boot state: the given masks, an idle barrier, zeroed descriptors, an open gate, nothing frozen, mitigations on auto |
| Engine.CpuHotplug.NotifyCancelable | kernel/cpu.c:522-531 | a cancelable call returns the chain's error and nr_calls, and notifies exactly the first nr_calls subscribers |
| Engine.CpuHotplug.Notify | kernel/cpu.c:522-570 | a call with a bound notifies the first n subscribers, and every subscriber when n is −1 |
| Engine.CpuHotplug.CpuUnplugBegin | kernel/cpu.c:299-336 | the scheduler is told the CPU is going down; the descriptor is updated as UnplugBegin says |
| Engine.CpuHotplug.CpuUnplugDone | kernel/cpu.c:362-379 | unplug and grab_lock are cleared and the scheduler is told |
| Engine.CpuHotplug.DownStopMachine | kernel/cpu.c:753-767 | CPU_DOWN_LATE_PREPARE, the pinned sections drained, threads parked, the sparse-irq lock taken, stop_machine, with the descriptor engaged |
| Engine.CpuHotplug.DownAftermath | kernel/cpu.c:767-802 | on failure every subscriber gets DOWN_FAILED; on success the CPU leaves the online mask, dies and CPU_DEAD goes out; either way the sparse-irq lock is released |
| Engine.CpuHotplug.DownTakeDown | kernel/cpu.c:753-802 | the steps after an accepted DOWN_PREPARE, with the mask and the trace DownAfterPrepare describes |
| Engine.CpuHotplug.DownCancel | kernel/cpu.c:744-747 | the first nr_calls − 1 subscribers get DOWN_FAILED and cpuidle is re-enabled |
| Engine.CpuHotplug.DownPrepareRound | kernel/cpu.c:741-802 | the DOWN_PREPARE round and what follows it leave the result, mask, descriptor and trace that PrepareOutcome and DownRound describe |
| Engine.CpuHotplug.CpuDownLocked | kernel/cpu.c:694-818 | `_cpu_down` returns DownErr of DownStageOf and leaves the mask, descriptor and trace that stage describes; the barrier is idle again |
| Engine.CpuHotplug.UpBringUp | kernel/cpu.c:1057-1069 | `__cpu_up`, then either the CPU joins online and active and ONLINE goes out, or every subscriber gets UP_CANCELED |
| Engine.CpuHotplug.CpuUpLocked | kernel/cpu.c:1024-1075 | `_cpu_up` returns UpErr of UpStageOf and leaves the masks and trace that stage describes; the barrier is idle again |
| Engine.CpuHotplug.CpuDown | kernel/cpu.c:820-844 | `cpu_down` returns CpuDownErr; the state changes exactly as the `_cpu_down` it reaches describes, or not at all when refused |
| Engine.CpuHotplug.CpuUp | kernel/cpu.c:1077-1124 | `cpu_up` returns CpuUpErr, and the masks and trace change exactly as the `_cpu_up` it reaches describes |
| Engine.CpuHotplug.RunBlock | kernel/cpu.c:886-943 | the body of one non-cancelable per-CPU loop of `cpus_down`, for one CPU |
| Engine.CpuHotplug.RunBlocks | kernel/cpu.c:886-943 | one non-cancelable for_each_cpu loop of `cpus_down`, in ascending CPU order |
| Engine.CpuHotplug.PrepareCpu | kernel/cpu.c:871-882 | one DOWN_PREPARE round: nr_calls[cpu] becomes the number of subscribers that accepted, and the other entries are untouched |
| Engine.CpuHotplug.BatchPrepare | kernel/cpu.c:869-882 | the loop stops at the first refused CPU (VetoFrom), with every earlier target CPU fully accepted and its effects in order |
| Engine.CpuHotplug.BatchRollback | kernel/cpu.c:957-964 | each prepared CPU, in order, gets cpuidle back and DOWN_FAILED sent to its own nr_calls subscribers |
| Engine.CpuHotplug.TakeCpusDown | kernel/cpu.c:896-901 | stop_machine takes the whole target out of the online mask |
| Engine.CpuHotplug.BatchTakeDown | kernel/cpu.c:884-934 | from CPU_DOWN_LATE_PREPARE to the CPU_DEAD loop, or the stop_machine failure path, with the effects BatchAfterPrepare describes; the failure path also releases the sparse-irq lock (the corrected path of the finding) |
| Engine.CpuHotplug.BatchRun | kernel/cpu.c:869-970 | once the checks pass, the result and mask are those of BatchOutcome and the trace is the corrected CpusDownEvents; the writer lock is released |
| Engine.CpuHotplug.CpusDown | kernel/cpu.c:847-970 | `cpus_down` returns CpusDownErr of CpusDownStage and leaves the mask that stage describes and the corrected CpusDownEvents trace, in which a stop_machine failure releases the sparse-irq lock |
| Engine.CpuHotplug.CpusUp | kernel/cpu.c:973-987 | `cpus_up` returns the error of CpusUpRun and leaves its masks and trace |
| Engine.CpuHotplug.CpusUpAt | kernel/cpu.c:980-984 | one `cpu_up` of the loop moves its effects from the rest of the run to the effects already caused |
| Engine.CpuHotplug.DisableNonbootCpus | kernel/cpu.c:1130-1171 | the result, online mask, frozen_cpus, descriptors and trace are those of DisableNonboot, and the gate takes one disable step even on failure |
| Engine.CpuHotplug.DisableLoop | kernel/cpu.c:1141-1156 | the loop leaves the result, mask, frozen set, descriptors and trace of DisableFrom |
| Engine.CpuHotplug.DisableAt | kernel/cpu.c:1144-1155 | one `_cpu_down(cpu, 1)` of the loop, and the CPU is frozen only on success |
| Engine.CpuHotplug.EnableNonbootCpus | kernel/cpu.c:1182-1220 | the gate takes one enable step; the masks and trace are those of EnableNonboot; frozen_cpus is emptied |
| Engine.CpuHotplug.EnableAt | kernel/cpu.c:1197-1212 | one `_cpu_up(cpu, 1)` of the resume loop, with its error ignored |

## Left out

- Blocking and waking are not modelled: wait queues, `schedule()` loops, completions, mutexes and the `sync_unplug` kthread handshake. A writer entering `cpu_hotplug_begin` is required to find no reader (`Barrier.HotplugLock.Begin`); the helper's drain of pinned sections is a trace event.
- Concurrency is left out: the model is sequential, and `cpu_maps_update_begin`/`done` serialise nothing here.
- Engine.CpuHotplug.CpusDown: the engine follows the corrected stop_machine failure path and releases the sparse-irq lock there, where kernel/cpu.c:949-955 does not. The code as written is `Batch.CpusDownEventsAsWritten`, and `Batch.StopFailureLeaksIrqLock` shows its leak.
- Engine.CpuHotplug.BatchRun: its trace is the corrected `Batch.CpusDownEvents`, not the as-written trace of kernel/cpu.c:869-970; they differ only in the `IrqUnlocked` that ends the stop_machine failure path.
- Engine.CpuHotplug.BatchTakeDown: on a stop_machine failure it appends `IrqUnlocked` after the unpark loop, which kernel/cpu.c:949-955 never does.
- These calls are not traced or modelled: `tick_handover_do_timer` and `stop_machine_park` (kernel/cpu.c:687-689), `hotplug_cpu__broadcast_tick_pull` (791, 919), `tick_cleanup_dead_cpu` (801, 930), restoring the caller's affinity with `set_cpus_allowed_ptr(current, cpumask_org)` (814), and `arch_smt_update` (816, 1073). They touch timers, the scheduler's view of the calling task or architecture state, none of which this model holds.
- Thermal.CelsiusRoundTrip: C `int` width is not modelled. For an `int` argument, `c * 10 + 2732` overflows (undefined behaviour in C) once c is above 214748091 or below −214748364; the round trip is proved over unbounded integers.
- Thermal.DeciKelvinRoundTripWithinHalfDegree: C `long` width is not modelled. `DECI_KELVIN_TO_CELSIUS` copies its argument into a `long`, so on this 64-bit arm64 tree an `int` reading cannot overflow, and a `long` reading overflows `_t - 2732` only within 2732 dK of LONG_MIN (−2^63); `CELSIUS_TO_DECI_KELVIN` then works on that `long` result, about a tenth of the reading, and cannot overflow. The bound is proved over unbounded integers.
- Thermal.MilliCelsiusRoundTripWithOffset: C `int` width is not modelled. `(t - off) * 100` overflows once |t − off| exceeds 21474836; the identity is proved over unbounded integers.
- Thermal.MilliCelsiusRoundTrip: C `int` width is not modelled; as above with the 2732 offset.
- Thermal.DeciKelvinRoundTripExactIff: C `int` width is not modelled. Adding the offset overflows for offsets near the 32-bit limits; the equivalence is proved over unbounded integers.
- The spin on `cpu_dead_idle` is a hardware busy-wait and is left out.
- CPU_DYING, sent from inside `take_cpu_down`, is folded into the StopMachine event. A stop_machine failure is one outcome for the whole target.
- Notifier.FirstVeto: a subscriber answer is either an acceptance or a veto with an error. An answer that stops the walk without an error (NOTIFY_STOP, which `notifier_to_errno` turns into 0) is outside the model. With it, CPU_DOWN_PREPARE or CPU_UP_PREPARE could succeed with `nr_calls` below the chain length and later subscribers never asked. So `Notifier.ChainErr`, `Phases.DownSucceedsIff`, `Phases.UpSucceedsIff`, `Batch.CpusDownSucceedsIff` and `Batch.CpusDownVetoRollback` state that every subscriber is called only for chains whose answers are accept or veto.
- Engine.CpuHotplug.CpuHotplugEnable: `warned` is the condition WARN_ONCE tests on every call; that the message is printed only once per boot is not modelled.
- Engine.CpuHotplug.Notify: the phases sent through `cpu_notify_nofail` are assumed to be accepted by every subscriber. The BUG_ON on a refusal is not modelled, and a chain answer is consulted only for UP_PREPARE and DOWN_PREPARE.
- The CONFIG_SCHED_HMP and CONFIG_HMP_SCHED blocks of `cpu_up` and `_cpu_down` are not modelled (CPUS_UP_PREPARE and the extra CPUS_DOWN_COMPLETE).
- Registering and unregistering notifiers is not modelled: the chain is a fixed input.
- These are opaque ok/error inputs, and their internals are not part of this model: `alloc_cpumask_var`, `set_cpus_allowed_ptr`/`migrate_me`, `kthread_create`, `stop_machine`, `__cpu_disable`, `__cpu_up`, `__cpu_die`, `idle_thread_get`, `smpboot_create_threads` and `try_online_node`.
- `clear_tasks_mm_cpumask` and `check_for_tasks` walk the task list and only log, so they are left out.
- The `cpu_bit_bitmap` table, lockdep, the rcu_expedited save and restore, tracing, `printk`, `kobject_uevent` and the idle notifier wrappers are left out.
- `arch_enable_nonboot_cpus_begin`/`end` are empty weak hooks and are left out.
- `notify_cpu_starting` is called by architecture code on the new CPU and is not part of this model.
- The `cpu_hotplug_pm_callback` hook only forwards to the gate and is left out.
- The stubs `include/linux/thermal.h` provides when the thermal framework is not built in are not modelled. Neither are its structure and ops declarations.
- include/linux/devfreq_boost.h holds only empty stubs and is not part of this model.
- Suspend.DisableFrom: the loop walks the live online mask, as `for_each_online_cpu` does, but `first_cpu` can never be taken down. A CPU that leaves the mask during the loop is the one just handled, so no CPU is visited twice or skipped.

## Findings

| source | as written | input that shows it | evidently intended | confidence | as-written member | corrected member |
|---|---|---|---|---|---|---|
| kernel/cpu.c:949-955 | the err_stop_machine path of `cpus_down` unparks the threads and sends CPU_DOWN_FAILED, then returns without calling `irq_unlock_sparse`, which was taken at line 894 | CPUs {0,1} online, an open gate, no subscribers, `cpus_down({1})`, and stop_machine returns -EBUSY | release the sparse-irq lock on that path, as `_cpu_down` does on its own stop_machine failure (line 771) | high; not executed | Batch.StopFailureLeaksIrqLock | Batch.CpusDownReleasesIrqLock |
