/** The hotplug state of the system and the operations of kernel/cpu.c that
    change it, run one at a time. Each operation is proved to leave the
    state its specification function in `Phases`, `Policy`, `Batch` or
    `Suspend` describes. */
module Engine {
  import opened HotplugTypes
  import opened Notifier
  import opened Gate
  import opened Barrier
  import opened Pin
  import opened Masks
  import opened Phases
  import opened Policy
  import opened Batch
  import opened UpBatch
  import opened Suspend
  import Mitigations

  class CpuHotplug {
    /** The membership bitmaps. */
    const masks: CpuMasks
    /** The `cpu_hotplug` reader/writer barrier. */
    const lock: HotplugLock
    /** The `hotplug_pcp` descriptor of each CPU. */
    const pcp: seq<HotplugPcp>
    /** The per-CPU notifier chain. */
    const chain: Chain
    /** CONFIG_BIG_CPU_MASK and CONFIG_LITTLE_CPU_MASK; when a mask is not
        configured the possible mask stands in for it. */
    const perfConfig: Option<set<CpuId>>
    const lpConfig: Option<set<CpuId>>
    /** `early_cpu_mask`, kept outside this file. */
    const earlyCpus: set<CpuId>
    /** `cpu_hotplug_disabled`. */
    var disabled: int
    /** `frozen_cpus`: the CPUs taken down for suspend. */
    var frozenCpus: set<CpuId>
    /** The effects caused so far, in order. */
    var trace: seq<Event>
    /** `cpu_mitigations`. */
    var mitigations: Mitigations.Setting

    ghost predicate Valid()
      reads this
    {
      |pcp| == NR_CPUS
      && (forall i, j :: 0 <= i < j < NR_CPUS ==> pcp[i] != pcp[j])
      && disabled >= 0
    }

    /** `cpu_perf_mask`. */
    function PerfMask(): set<CpuId>
      reads this, masks
    {
      if perfConfig.Some? then perfConfig.value else masks.possible
    }

    /** `cpu_lp_mask`. */
    function LpMask(): set<CpuId>
      reads this, masks
    {
      if lpConfig.Some? then lpConfig.value else masks.possible
    }

    /** The boot-time state: the given masks, an idle barrier, zeroed
        descriptors, an open gate, nothing frozen and mitigations on auto. */
    constructor (m: MaskState, c: Chain, perf: Option<set<CpuId>>, lp: Option<set<CpuId>>, early: set<CpuId>)
      ensures Valid()
      ensures masks.State() == m && lock.State() == LockState(None, 0)
      ensures forall i :: 0 <= i < NR_CPUS ==> pcp[i].State() == PcpState(None, None, 0, false, false)
      ensures chain == c && perfConfig == perf && lpConfig == lp && earlyCpus == early
      ensures disabled == 0 && frozenCpus == {} && trace == [] && mitigations == Mitigations.Default
    {
      var ms := new CpuMasks(m);
      var lk := new HotplugLock();
      var ps: seq<HotplugPcp> := [];
      while |ps| < NR_CPUS
        invariant |ps| <= NR_CPUS
        invariant forall i, j :: 0 <= i < j < |ps| ==> ps[i] != ps[j]
        invariant forall i :: 0 <= i < |ps| ==> fresh(ps[i]) && ps[i].State() == PcpState(None, None, 0, false, false)
        invariant ms.State() == m && lk.State() == LockState(None, 0)
      {
        var p := new HotplugPcp();
        ps := ps + [p];
      }
      masks, lock := ms, lk;
      pcp := ps;
      chain, perfConfig, lpConfig, earlyCpus := c, perf, lp, early;
      disabled, frozenCpus, trace, mitigations := 0, {}, [], Mitigations.Default;
    }

    /* ---------------- The gate ---------------- */

    /** cpu_hotplug_disable. */
    method CpuHotplugDisable()
      requires Valid()
      modifies this
      ensures Valid()
      ensures disabled == Step(old(disabled), Disable)
      ensures frozenCpus == old(frozenCpus) && trace == old(trace) && mitigations == old(mitigations)
    {
      disabled := disabled + 1;
    }

    /** cpu_hotplug_enable (and `__cpu_hotplug_enable`); `warned` is the
        unbalanced-enable condition that WARN_ONCE tests on every call. The
        message itself is printed only the first time the condition holds. */
    method CpuHotplugEnable() returns (warned: bool)
      requires Valid()
      modifies this
      ensures Valid()
      ensures disabled == Step(old(disabled), Enable)
      ensures warned <==> old(disabled) == 0
      ensures frozenCpus == old(frozenCpus) && trace == old(trace) && mitigations == old(mitigations)
    {
      if disabled == 0 {
        return true;
      }
      disabled := disabled - 1;
      warned := false;
    }

    /* ---------------- Notifier calls and unplug bracketing ---------------- */

    /** `__cpu_notify(m, cpu, -1, &nr_calls)` for a phase subscribers may
        refuse: the chain is walked up to the first veto. */
    method NotifyCancelable(m: Msg, cpu: CpuId) returns (err: Status, nrCalls: int)
      modifies this
      ensures err == ChainErr(Answers(chain, m, cpu)) && nrCalls == NrCalls(Answers(chain, m, cpu))
      ensures trace == old(trace) + Calls(m, cpu, NrCalls(Answers(chain, m, cpu)))
      ensures disabled == old(disabled) && frozenCpus == old(frozenCpus) && mitigations == old(mitigations)
    {
      var rs := Answers(chain, m, cpu);
      nrCalls := NrCalls(rs);
      trace := trace + Calls(m, cpu, nrCalls);
      err := ChainErr(rs);
    }

    /** `__cpu_notify(m, cpu, n, NULL)` for a phase nobody refuses: the first
        `n` subscribers, or every subscriber when `n` is negative (`-1`, as
        `cpu_notify` and `cpu_notify_nofail` pass) or beyond the chain. */
    method Notify(m: Msg, cpu: CpuId, n: int)
      modifies this
      ensures trace == old(trace) + Calls(m, cpu, if 0 <= n <= chain.size then n else chain.size)
      ensures disabled == old(disabled) && frozenCpus == old(frozenCpus) && mitigations == old(mitigations)
    {
      var k := if 0 <= n <= chain.size then n else chain.size;
      trace := trace + Calls(m, cpu, k);
    }

    /** cpu_unplug_begin: the scheduler is told the CPU is going down, then
        the descriptor's lock is initialised and the helper created. */
    method CpuUnplugBegin(cpu: CpuId, helperErr: Status, helper: Task) returns (err: Status)
      requires Valid()
      modifies this, pcp[cpu]
      ensures err == helperErr
      ensures pcp[cpu].State() == old(pcp[cpu].State()).(mutexInit := true,
                                    syncTsk := if helperErr == 0 then Some(helper) else None)
      ensures trace == old(trace) + [SchedDownBegin(cpu)]
      ensures disabled == old(disabled) && frozenCpus == old(frozenCpus) && mitigations == old(mitigations)
    {
      trace := trace + [SchedDownBegin(cpu)];
      err := pcp[cpu].UnplugBegin(helperErr, helper);
    }

    /** cpu_unplug_done: the unplug ends and the scheduler is told so. */
    method CpuUnplugDone(cpu: CpuId)
      requires Valid()
      modifies this, pcp[cpu]
      ensures pcp[cpu].State() == old(pcp[cpu].State()).(unplug := None, grabLock := false)
      ensures trace == old(trace) + [SchedDownDone(cpu)]
      ensures disabled == old(disabled) && frozenCpus == old(frozenCpus) && mitigations == old(mitigations)
    {
      pcp[cpu].UnplugDone();
      trace := trace + [SchedDownDone(cpu)];
    }

    /* ---------------- Single-CPU transitions ---------------- */

    /** The steps of `_cpu_down` from CPU_DOWN_LATE_PREPARE, which goes to
        the chain of CPU 0, up to stop_machine: the pinned sections are
        drained before and after the per-CPU threads are parked, and the
        sparse-irq lock is taken. */
    method DownStopMachine(cpu: CpuId, frozen: bool)
      requires Valid()
      requires pcp[cpu].syncTsk.Some?
      modifies this, pcp[cpu]
      ensures pcp[cpu].State() == old(pcp[cpu].State()).(unplug := old(pcp[cpu].syncTsk), grabLock := true, syncTsk := None)
      ensures trace == old(trace) + DownStopSteps(chain, cpu, frozen)
      ensures disabled == old(disabled) && frozenCpus == old(frozenCpus) && mitigations == old(mitigations)
    {
      Notify(Msg(DownLatePrepare, frozen), 0, -1);
      pcp[cpu].UnplugWait();
      trace := trace + [PinnedDrained(cpu), ThreadsParked(cpu)];
      pcp[cpu].UnplugSync();
      trace := trace + [PinnedDrained(cpu), IrqLocked, StopMachine({cpu})];
    }

    /** What follows stop_machine in `_cpu_down`: on failure every
        subscriber gets DOWN_FAILED; on success the CPU has left the online
        mask, and once it is dead every subscriber gets CPU_DEAD. Either way
        the sparse-irq lock is released. */
    method DownAftermath(cpu: CpuId, frozen: bool, stopErr: Status) returns (err: Status)
      modifies this, masks
      ensures err == stopErr
      ensures masks.State() == old(masks.State()).(online := if stopErr == 0 then old(masks.online) - {cpu} else old(masks.online))
      ensures trace == old(trace) + (if stopErr == 0 then [IrqUnlocked, CpuDied(cpu)] + Calls(Msg(Dead, frozen), cpu, chain.size)
                                     else Calls(Msg(DownFailed, frozen), cpu, chain.size) + [IrqUnlocked])
      ensures disabled == old(disabled) && frozenCpus == old(frozenCpus) && mitigations == old(mitigations)
    {
      err := stopErr;
      if err != 0 {
        Notify(Msg(DownFailed, frozen), cpu, -1);
        trace := trace + [IrqUnlocked];
        return;
      }
      masks.SetCpuOnline(cpu, false);
      trace := trace + [IrqUnlocked, CpuDied(cpu)];
      Notify(Msg(Dead, frozen), cpu, -1);
    }

    /** The part of `_cpu_down` between a DOWN_PREPARE nobody refused and
        the out_release label. */
    method DownTakeDown(cpu: CpuId, frozen: bool, stopErr: Status) returns (err: Status)
      requires Valid()
      requires pcp[cpu].syncTsk.Some?
      modifies this, masks, pcp[cpu]
      ensures err == stopErr
      ensures pcp[cpu].State() == old(pcp[cpu].State()).(unplug := old(pcp[cpu].syncTsk), grabLock := true, syncTsk := None)
      ensures masks.State() == old(masks.State()).(online := if stopErr == 0 then old(masks.online) - {cpu} else old(masks.online))
      ensures trace == old(trace) + DownAfterPrepare(chain, cpu, frozen, if stopErr != 0 then StopFailed(stopErr) else Died)
      ensures disabled == old(disabled) && frozenCpus == old(frozenCpus) && mitigations == old(mitigations)
    {
      DownStopMachine(cpu, frozen);
      err := DownAftermath(cpu, frozen, stopErr);
    }

    /** The state `_cpu_down` of `cpu` leaves, relative to the masks,
        descriptor and trace it started from. */
    ghost predicate DownApplied(m0: MaskState, p0: PcpState, t0: seq<Event>, cpu: CpuId, frozen: bool,
                                helper: Task, s: DownStage)
      requires Valid()
      reads this, masks, pcp[cpu]
    {
      masks.State() == m0.(online := DownOnline(m0.online, cpu, s))
      && pcp[cpu].State() == PcpAfterDown(p0, s, helper)
      && trace == t0 + DownEvents(chain, cpu, frozen, s)
    }

    /** The rollback of `_cpu_down` after a DOWN_PREPARE veto: the first
        `nrCalls - 1` subscribers, those that accepted, get DOWN_FAILED and
        cpuidle is re-enabled. */
    method DownCancel(cpu: CpuId, frozen: bool, nrCalls: int)
      modifies this
      ensures trace == old(trace) + Calls(Msg(DownFailed, frozen), cpu, if 1 <= nrCalls <= chain.size + 1 then nrCalls - 1 else chain.size)
        + [IdleEnabled(cpu)]
      ensures disabled == old(disabled) && frozenCpus == old(frozenCpus) && mitigations == old(mitigations)
    {
      Notify(Msg(DownFailed, frozen), cpu, nrCalls - 1);
      trace := trace + [IdleEnabled(cpu)];
    }

    /** The DOWN_PREPARE round of `_cpu_down` and what follows it up to
        cpu_unplug_done: cpuidle is disabled and the chain asked; on a veto
        the subscribers that accepted are rolled back, otherwise the CPU is
        taken down. */
    method DownPrepareRound(cpu: CpuId, frozen: bool, stopErr: Status) returns (err: Status)
      requires Valid()
      requires pcp[cpu].syncTsk.Some?
      modifies this, masks, pcp[cpu]
      ensures var s := PrepareOutcome(chain, cpu, frozen, stopErr);
        err == DownErr(s)
        && masks.State() == old(masks.State()).(online := DownOnline(old(masks.online), cpu, s))
        && pcp[cpu].State() == (if s.Vetoed? then old(pcp[cpu].State())
                                else old(pcp[cpu].State()).(unplug := old(pcp[cpu].syncTsk), grabLock := true, syncTsk := None))
        && trace == old(trace) + DownRound(chain, cpu, frozen, s)
      ensures disabled == old(disabled) && frozenCpus == old(frozenCpus) && mitigations == old(mitigations)
    {
      ghost var t0 := trace;
      trace := trace + [IdleDisabled(cpu)];
      var nrCalls: int;
      err, nrCalls := NotifyCancelable(Msg(DownPrepare, frozen), cpu);
      if err != 0 {
        VetoedCallReachesVetoer(DownAnswers(chain, cpu, frozen));
        DownCancel(cpu, frozen, nrCalls);
        DownRoundVetoedAppend(chain, cpu, frozen, err, nrCalls - 1, t0);
      } else {
        assert nrCalls == chain.size;
        err := DownTakeDown(cpu, frozen, stopErr);
        DownRoundTakenAppend(chain, cpu, frozen, if stopErr != 0 then StopFailed(stopErr) else Died, t0);
      }
    }

    /** `_cpu_down(cpu, frozen)`. The wait of cpu_hotplug_begin for readers
        to leave is modelled by requiring the barrier to be idle. */
    method CpuDownLocked(cpu: CpuId, frozen: bool, env: DownEnv, current: Task) returns (err: Status)
      requires Valid()
      requires lock.State() == LockState(None, 0)
      modifies this, masks, lock, pcp[cpu]
      ensures Valid()
      ensures var s := DownStageOf(chain, old(masks.online), cpu, frozen, env);
        err == DownErr(s)
        && DownApplied(old(masks.State()), old(pcp[cpu].State()), old(trace), cpu, frozen, env.helper, s)
      ensures lock.State() == old(lock.State())
      ensures disabled == old(disabled) && frozenCpus == old(frozenCpus) && mitigations == old(mitigations)
    {
      if |masks.online| == 1 {
        return -EBUSY;
      }
      if cpu !in masks.online {
        return -EINVAL;
      }
      if !env.allocOk {
        return -ENOMEM;
      }
      if !env.offTarget {
        return -EBUSY;
      }
      ghost var s := DownStageOf(chain, masks.online, cpu, frozen, env);
      ghost var t0 := trace;
      lock.Begin(current);
      err := CpuUnplugBegin(cpu, env.helperErr, env.helper);
      if err != 0 {
        lock.Done();
        return;
      }
      err := DownPrepareRound(cpu, frozen, env.stopErr);
      CpuUnplugDone(cpu);
      lock.Done();
      if err == 0 {
        Notify(Msg(PostDead, frozen), cpu, -1);
      }
      DownEventsAppend(chain, cpu, frozen, s, t0);
    }

    /** The part of `_cpu_up` after an UP_PREPARE nobody refused: the arch
        bring-up, then either the CPU joins the online and active masks and
        ONLINE goes out, or every subscriber gets UP_CANCELED. */
    method UpBringUp(cpu: CpuId, frozen: bool, archErr: Status) returns (err: Status)
      modifies this, masks
      ensures err == archErr
      ensures masks.State() == old(masks.State()).(online := if archErr == 0 then old(masks.online) + {cpu} else old(masks.online),
                                                   active := if archErr == 0 then old(masks.active) + {cpu} else old(masks.active))
      ensures trace == old(trace) + [ArchCpuUp(cpu)]
        + (if archErr == 0 then Calls(Msg(Online, frozen), cpu, chain.size) + [IdleEnabled(cpu)]
           else Calls(Msg(UpCanceled, frozen), cpu, chain.size))
      ensures disabled == old(disabled) && frozenCpus == old(frozenCpus) && mitigations == old(mitigations)
    {
      trace := trace + [ArchCpuUp(cpu)];
      err := archErr;
      if err == 0 {
        masks.SetCpuOnline(cpu, true);
        Notify(Msg(Online, frozen), cpu, -1);
        trace := trace + [IdleEnabled(cpu)];
      } else {
        Notify(Msg(UpCanceled, frozen), cpu, -1);
      }
    }

    /** `_cpu_up(cpu, frozen)`. */
    method CpuUpLocked(cpu: CpuId, frozen: bool, env: UpEnv, current: Task) returns (err: Status)
      requires Valid()
      requires lock.State() == LockState(None, 0)
      modifies this, masks, lock
      ensures Valid()
      ensures var s := UpStageOf(chain, old(masks.online), old(masks.present), cpu, frozen, env);
        err == UpErr(s)
        && masks.State() == old(masks.State()).(online := UpMask(old(masks.online), cpu, s),
                                                 active := UpMask(old(masks.active), cpu, s))
        && trace == old(trace) + UpEvents(chain, cpu, frozen, s)
      ensures lock.State() == old(lock.State())
      ensures disabled == old(disabled) && frozenCpus == old(frozenCpus) && mitigations == old(mitigations)
    {
      lock.Begin(current);
      if cpu in masks.online || cpu !in masks.present {
        err := -EINVAL;
        lock.Done();
        return;
      }
      if env.idleErr != 0 {
        err := env.idleErr;
        lock.Done();
        return;
      }
      if env.threadsErr != 0 {
        err := env.threadsErr;
        lock.Done();
        return;
      }
      ghost var t0 := trace;
      var nrCalls: int;
      err, nrCalls := NotifyCancelable(Msg(UpPrepare, frozen), cpu);
      if err != 0 {
        VetoedCallReachesVetoer(UpAnswers(chain, cpu, frozen));
        nrCalls := nrCalls - 1;
        Notify(Msg(UpCanceled, frozen), cpu, nrCalls);
        UpEventsVetoedAppend(chain, cpu, frozen, err, nrCalls, t0);
      } else {
        assert nrCalls == chain.size;
        err := UpBringUp(cpu, frozen, env.archErr);
        UpEventsTakenAppend(chain, cpu, frozen, env.archErr, t0);
      }
      lock.Done();
    }

    /** `cpu_down`: the cluster rule and the gate, then `_cpu_down`. */
    method CpuDown(cpu: CpuId, env: DownEnv, current: Task) returns (err: Status)
      requires Valid()
      requires lock.State() == LockState(None, 0)
      modifies this, masks, lock, pcp[cpu]
      ensures Valid()
      ensures err == CpuDownErr(chain, old(masks.online), old(PerfMask()), old(LpMask()), old(disabled), cpu, env)
      ensures var s := if CpuDownProceeds(old(masks.online), old(PerfMask()), old(LpMask()), old(disabled), cpu)
                       then DownStageOf(chain, old(masks.online), cpu, false, env)
                       else Refused(-EINVAL);
        DownApplied(old(masks.State()), old(pcp[cpu].State()), old(trace), cpu, false, env.helper, s)
      ensures lock.State() == old(lock.State())
      ensures disabled == old(disabled) && frozenCpus == old(frozenCpus) && mitigations == old(mitigations)
    {
      err := ClusterCheck(masks.online, PerfMask(), LpMask(), cpu);
      if err != 0 {
        return;
      }
      if disabled != 0 {
        return -EBUSY;
      }
      err := CpuDownLocked(cpu, false, env, current);
    }

    /** `cpu_up`: the possible and early masks, the memory node and the
        gate, then `_cpu_up`. */
    method CpuUp(cpu: CpuId, env: UpEnv, current: Task) returns (err: Status)
      requires Valid()
      requires lock.State() == LockState(None, 0)
      modifies this, masks, lock
      ensures Valid()
      ensures err == CpuUpErr(chain, old(masks.possible), old(masks.present), old(masks.online), earlyCpus,
                              old(disabled), cpu, env)
      ensures var s := CpuUpStage(chain, UpConfig(old(masks.possible), old(masks.present), earlyCpus, old(disabled)),
                                  old(masks.online), cpu, env);
        masks.State() == old(masks.State()).(online := UpMask(old(masks.online), cpu, s),
                                             active := UpMask(old(masks.active), cpu, s))
        && trace == old(trace) + UpEvents(chain, cpu, false, s)
      ensures lock.State() == old(lock.State())
      ensures disabled == old(disabled) && frozenCpus == old(frozenCpus) && mitigations == old(mitigations)
    {
      if cpu !in masks.possible {
        return -EINVAL;
      }
      if cpu !in earlyCpus {
        return -EINVAL;
      }
      if env.nodeErr != 0 {
        return env.nodeErr;
      }
      if disabled != 0 {
        return -EBUSY;
      }
      err := CpuUpLocked(cpu, false, env, current);
    }

    /* ---------------- Batches ---------------- */

    /** The body of one of the for_each_cpu loops of `cpus_down` that
        nobody can refuse, for one CPU. */
    method RunBlock(cpu: CpuId, b: Block)
      requires b.Park? || b.Unpark? || b.Die? || b.DeadNotice? || b.PostDeadNotice?
      modifies this
      ensures trace == old(trace) + BlockEvents(chain, b, cpu)
      ensures disabled == old(disabled) && frozenCpus == old(frozenCpus) && mitigations == old(mitigations)
    {
      if b == Park {
        trace := trace + [ThreadsParked(cpu)];
      } else if b == Unpark {
        trace := trace + [ThreadsUnparked(cpu)];
        Notify(Msg(DownFailed, false), cpu, -1);
      } else if b == Die {
        trace := trace + [CpuDied(cpu)];
      } else if b == DeadNotice {
        Notify(Msg(Dead, false), cpu, -1);
      } else {
        Notify(Msg(PostDead, false), cpu, -1);
      }
    }

    /** One for_each_cpu loop of `cpus_down` over the target. */
    method RunBlocks(dest: set<CpuId>, b: Block)
      requires b.Park? || b.Unpark? || b.Die? || b.DeadNotice? || b.PostDeadNotice?
      modifies this
      ensures trace == old(trace) + PerCpu(chain, dest, b, NR_CPUS)
      ensures disabled == old(disabled) && frozenCpus == old(frozenCpus) && mitigations == old(mitigations)
    {
      var cpu := 0;
      while cpu < NR_CPUS
        invariant cpu <= NR_CPUS
        invariant trace == old(trace) + PerCpu(chain, dest, b, cpu)
        invariant disabled == old(disabled) && frozenCpus == old(frozenCpus) && mitigations == old(mitigations)
      {
        PerCpuAppend(chain, dest, b, cpu, old(trace));
        if cpu in dest {
          RunBlock(cpu, b);
        }
        cpu := cpu + 1;
      }
    }

    /** One round of the DOWN_PREPARE loop of `cpus_down`: cpuidle is
        disabled for `cpu` and the chain asked; `nr[cpu]` becomes the number
        of subscribers that accepted. */
    method PrepareCpu(cpu: CpuId, nr: array<int>) returns (err: Status)
      requires nr.Length == NR_CPUS
      modifies this, nr
      ensures var rs := DownAnswers(chain, cpu, false);
        err == ChainErr(rs) && nr[cpu] == FirstVeto(rs)
        && (err != 0 ==> FirstVeto(rs) < chain.size)
        && trace == old(trace) + [IdleDisabled(cpu)]
                    + Calls(Msg(DownPrepare, false), cpu, if err != 0 then FirstVeto(rs) + 1 else chain.size)
      ensures forall x :: 0 <= x < NR_CPUS && x != cpu ==> nr[x] == old(nr[x])
      ensures disabled == old(disabled) && frozenCpus == old(frozenCpus) && mitigations == old(mitigations)
    {
      trace := trace + [IdleDisabled(cpu)];
      var nrCalls: int;
      err, nrCalls := NotifyCancelable(Msg(DownPrepare, false), cpu);
      nr[cpu] := nrCalls;
      if err != 0 {
        VetoedCallReachesVetoer(DownAnswers(chain, cpu, false));
        nr[cpu] := nr[cpu] - 1;
      }
    }

    /** The DOWN_PREPARE loop of `cpus_down`: each CPU of the target, in
        ascending order, joins `prepared`, has cpuidle disabled and is
        offered to the chain, until a subscriber refuses; `nr[x]` keeps how
        many subscribers accepted CPU `x`. The loop stops at `v`, the first
        CPU of the target that is refused, or runs to NR_CPUS. */
    method BatchPrepare(dest: set<CpuId>, nr: array<int>) returns (v: nat, err: Status)
      requires nr.Length == NR_CPUS
      modifies this, nr
      ensures v == VetoFrom(chain, dest, 0)
      ensures forall x: CpuId :: x in dest && x < v ==> nr[x] == chain.size
      ensures v < NR_CPUS ==>
        var rs := DownAnswers(chain, v, false);
        err == ChainErr(rs) && nr[v] == FirstVeto(rs) && FirstVeto(rs) < chain.size
        && trace == old(trace) + PerCpu(chain, dest, Prepare, v) + [IdleDisabled(v)]
                    + Calls(Msg(DownPrepare, false), v, FirstVeto(rs) + 1)
      ensures v == NR_CPUS ==> err == 0 && trace == old(trace) + PerCpu(chain, dest, Prepare, NR_CPUS)
      ensures disabled == old(disabled) && frozenCpus == old(frozenCpus) && mitigations == old(mitigations)
    {
      var cpu: nat := 0;
      while cpu < NR_CPUS
        invariant cpu <= NR_CPUS
        invariant VetoFrom(chain, dest, 0) == VetoFrom(chain, dest, cpu)
        invariant forall x: CpuId :: x in dest && x < cpu ==> nr[x] == chain.size
        invariant trace == old(trace) + PerCpu(chain, dest, Prepare, cpu)
        invariant disabled == old(disabled) && frozenCpus == old(frozenCpus) && mitigations == old(mitigations)
      {
        if cpu in dest {
          err := PrepareCpu(cpu, nr);
          if err != 0 {
            return cpu, err;
          }
          PrepareAppend(chain, dest, cpu, old(trace));
        } else {
          PerCpuAppend(chain, dest, Prepare, cpu, old(trace));
        }
        cpu := cpu + 1;
      }
      return NR_CPUS, 0;
    }

    /** The err_down_prepare loop of `cpus_down`: each prepared CPU, in
        ascending order, has cpuidle re-enabled and its first `nr[x]`
        subscribers get DOWN_FAILED. */
    method BatchRollback(dest: set<CpuId>, prepared: set<CpuId>, nr: array<int>, v: CpuId)
      requires v in dest && prepared == set x: CpuId | x in dest && x <= v
      requires nr.Length == NR_CPUS && 0 <= nr[v] <= chain.size
      requires forall x: CpuId :: x in dest && x < v ==> nr[x] == chain.size
      modifies this
      ensures trace == old(trace) + RollbackUpTo(chain, dest, v, nr[v], NR_CPUS)
      ensures disabled == old(disabled) && frozenCpus == old(frozenCpus) && mitigations == old(mitigations)
    {
      var cpu: nat := 0;
      while cpu < NR_CPUS
        invariant cpu <= NR_CPUS
        invariant trace == old(trace) + RollbackUpTo(chain, dest, v, nr[v], cpu)
        invariant disabled == old(disabled) && frozenCpus == old(frozenCpus) && mitigations == old(mitigations)
      {
        RollbackStep(chain, dest, v, nr[v], cpu, old(trace));
        if cpu in prepared {
          trace := trace + [IdleEnabled(cpu)];
          Notify(Msg(DownFailed, false), cpu, nr[cpu]);
        }
        cpu := cpu + 1;
      }
    }

    /** stop_machine(take_cpu_down) on the target: each CPU of the target
        leaves the online mask. */
    method TakeCpusDown(dest: set<CpuId>)
      modifies masks
      ensures masks.State() == old(masks.State()).(online := old(masks.online) - dest)
    {
      var cpu: nat := 0;
      while cpu < NR_CPUS
        invariant cpu <= NR_CPUS
        invariant masks.State() == old(masks.State()).(online := old(masks.online) - set x: CpuId | x in dest && x < cpu)
      {
        if cpu in dest {
          masks.SetCpuOnline(cpu, false);
        }
        cpu := cpu + 1;
      }
      assert (set x: CpuId | x in dest && x < NR_CPUS) == dest;
    }

    /** `cpus_down` from CPU_DOWN_LATE_PREPARE, once every CPU of the target
        was accepted, to the end of the CPU_DEAD loop; on a stop_machine
        failure the threads are unparked, every subscriber gets DOWN_FAILED
        and the sparse-irq lock is released. */
    method BatchTakeDown(dest: set<CpuId>, stopErr: Status) returns (err: Status)
      modifies this, masks
      ensures err == stopErr
      ensures masks.State() == old(masks.State()).(online := if stopErr == 0 then old(masks.online) - dest else old(masks.online))
      ensures trace == old(trace) + BatchAfterPrepare(chain, old(masks.online), dest, stopErr)
      ensures disabled == old(disabled) && frozenCpus == old(frozenCpus) && mitigations == old(mitigations)
    {
      ghost var t0 := trace;
      Notify(Msg(DownLatePrepare, false), 0, -1);
      RunBlocks(dest, Park);
      trace := trace + [IrqLocked, StopMachine(dest)];
      ghost var t1 := trace;
      if stopErr != 0 {
        RunBlocks(dest, Unpark);
        trace := trace + [IrqUnlocked];
        Assoc3(t1, PerCpu(chain, dest, Unpark, NR_CPUS), [IrqUnlocked]);
        AfterPrepareAppend(chain, old(masks.online), dest, stopErr, t0, PerCpu(chain, dest, Unpark, NR_CPUS) + [IrqUnlocked]);
        return stopErr;
      }
      TakeCpusDown(dest);
      trace := trace + [IrqUnlocked];
      RunBlocks(dest, Die);
      trace := trace + [SetNotified(CpusDownComplete, masks.online)];
      RunBlocks(dest, DeadNotice);
      ghost var note := [SetNotified(CpusDownComplete, old(masks.online) - dest)];
      Assoc5(t1, [IrqUnlocked], PerCpu(chain, dest, Die, NR_CPUS), note, PerCpu(chain, dest, DeadNotice, NR_CPUS));
      AfterPrepareAppend(chain, old(masks.online), dest, stopErr, t0,
                         [IrqUnlocked] + PerCpu(chain, dest, Die, NR_CPUS) + note + PerCpu(chain, dest, DeadNotice, NR_CPUS));
      err := 0;
    }

    /** `cpus_down` once its checks have passed and the writer lock is held,
        to the end: the DOWN_PREPARE loop, then either the rollback or the
        take-down, with the writer lock released before CPU_POST_DEAD. */
    method BatchRun(dest: set<CpuId>, stopErr: Status) returns (err: Status)
      modifies this, masks, lock
      ensures var s := BatchOutcome(chain, dest, stopErr);
        err == CpusDownErr(s)
        && masks.State() == old(masks.State()).(online := CpusDownOnline(old(masks.online), dest, s))
        && trace == old(trace) + CpusDownEvents(chain, old(masks.online), dest, s)
      ensures lock.State() == LockState(None, old(lock.refcount))
      ensures disabled == old(disabled) && frozenCpus == old(frozenCpus) && mitigations == old(mitigations)
    {
      ghost var online0, t0 := masks.online, trace;
      var nr := new int[NR_CPUS](_ => 0);
      var v;
      v, err := BatchPrepare(dest, nr);
      if v < NR_CPUS {
        // The CPUs the loop reached: those of the target up to the refused one.
        var prepared := set x: CpuId | x in dest && x <= v;
        ghost var rs := DownAnswers(chain, v, false);
        BatchRollback(dest, prepared, nr, v);
        CpusDownVetoedAppend(chain, online0, dest, v, err, FirstVeto(rs), t0);
        lock.Done();
        return;
      }
      err := BatchTakeDown(dest, stopErr);
      lock.Done();
      if err == 0 {
        RunBlocks(dest, PostDeadNotice);
      }
      CpusDownTakenAppend(chain, online0, dest, stopErr, t0);
    }

    /** `cpus_down(cpus)`: the CPUs of `cpus` that are online are taken down
        together. The wait of cpu_hotplug_begin for readers to leave is
        modelled by requiring the barrier to be idle; `stopErr` is what
        stop_machine returns. */
    method CpusDown(cpus: set<CpuId>, stopErr: Status, current: Task) returns (err: Status)
      requires Valid()
      requires lock.State() == LockState(None, 0)
      modifies this, masks, lock
      ensures Valid()
      ensures var dest := cpus * old(masks.online);
        var s := CpusDownStage(chain, old(masks.online), cpus, old(disabled), stopErr);
        err == CpusDownErr(s)
        && masks.State() == old(masks.State()).(online := CpusDownOnline(old(masks.online), dest, s))
        && trace == old(trace) + CpusDownEvents(chain, old(masks.online), dest, s)
      ensures lock.State() == old(lock.State())
      ensures disabled == old(disabled) && frozenCpus == old(frozenCpus) && mitigations == old(mitigations)
    {
      lock.Begin(current);
      var dest := cpus * masks.online;
      if disabled != 0 || |dest| == 0 || |masks.online| <= |dest| {
        lock.Done();
        return -EBUSY;
      }
      err := BatchRun(dest, stopErr);
    }

    /** `cpus_up(cpus)`: `cpu_up` on each CPU of `cpus` that was offline when
        the call began, in ascending order, up to the first error. */
    method CpusUp(cpus: set<CpuId>, envs: CpuId -> UpEnv, current: Task) returns (err: Status)
      requires Valid()
      requires lock.State() == LockState(None, 0)
      modifies this, masks, lock
      ensures Valid()
      ensures var r := CpusUpRun(chain, UpConfig(old(masks.possible), old(masks.present), earlyCpus, old(disabled)),
                                 cpus, envs, old(masks.online), old(masks.active));
        err == r.err
        && masks.State() == old(masks.State()).(online := r.online, active := r.active)
        && trace == old(trace) + r.events
      ensures lock.State() == old(lock.State())
      ensures disabled == old(disabled) && frozenCpus == old(frozenCpus) && mitigations == old(mitigations)
    {
      ghost var t0 := trace;
      var dest := cpus - masks.online;
      ghost var g := UpConfig(masks.possible, masks.present, earlyCpus, disabled);
      ghost var whole := CpusUpFrom(chain, g, dest, envs, masks.online, masks.active, 0);
      ghost var done: seq<Event> := [];
      var cpu := 0;
      err := 0;
      while cpu < NR_CPUS && err == 0
        invariant cpu <= NR_CPUS
        invariant Valid() && lock.State() == LockState(None, 0)
        invariant masks.State() == old(masks.State()).(online := masks.online, active := masks.active)
        invariant disabled == old(disabled) && frozenCpus == old(frozenCpus) && mitigations == old(mitigations)
        invariant trace == t0 + done
        invariant g == UpConfig(masks.possible, masks.present, earlyCpus, disabled)
        invariant err == 0 ==> whole == Stitch(done, CpusUpFrom(chain, g, dest, envs, masks.online, masks.active, cpu))
        invariant err != 0 ==> whole == UpRun(err, masks.online, masks.active, done)
      {
        if cpu in dest {
          err, done := CpusUpAt(cpu, envs, current, g, dest, whole, t0, done);
        }
        cpu := cpu + 1;
      }
    }

    /** One `cpu_up` of `cpus_up`, on a CPU of `dest`: the run from `cpu`
        that is still to come loses its first step, and the effects caused
        so far gain it. */
    method CpusUpAt(cpu: CpuId, envs: CpuId -> UpEnv, current: Task, ghost g: UpConfig, ghost dest: set<CpuId>,
                    ghost whole: UpRun, ghost t0: seq<Event>, ghost done: seq<Event>)
      returns (err: Status, ghost done': seq<Event>)
      requires Valid() && lock.State() == LockState(None, 0)
      requires cpu in dest && g == UpConfig(masks.possible, masks.present, earlyCpus, disabled)
      requires trace == t0 + done
      requires whole == Stitch(done, CpusUpFrom(chain, g, dest, envs, masks.online, masks.active, cpu))
      modifies this, masks, lock
      ensures Valid() && lock.State() == LockState(None, 0)
      ensures masks.State() == old(masks.State()).(online := masks.online, active := masks.active)
      ensures disabled == old(disabled) && frozenCpus == old(frozenCpus) && mitigations == old(mitigations)
      ensures trace == t0 + done'
      ensures err == 0 ==> whole == Stitch(done', CpusUpFrom(chain, g, dest, envs, masks.online, masks.active, cpu + 1))
      ensures err != 0 ==> whole == UpRun(err, masks.online, masks.active, done')
    {
      ghost var s := CpuUpStage(chain, g, masks.online, cpu, envs(cpu));
      ghost var es := UpEvents(chain, cpu, false, s);
      CpusUpFromUnfold(chain, g, dest, envs, masks.online, masks.active, cpu);
      err := CpuUp(cpu, envs(cpu), current);
      if err == 0 {
        PrependStep(whole, done, es, CpusUpFrom(chain, g, dest, envs, masks.online, masks.active, cpu + 1));
      }
      done' := done + es;
    }

    /* ---------------- Suspend and resume ---------------- */

    /** The states of the `hotplug_pcp` descriptors, CPU by CPU. */
    ghost function PcpStates(): (ps: seq<PcpState>)
      reads pcp
      ensures |ps| == |pcp| && forall i :: 0 <= i < |pcp| ==> ps[i] == pcp[i].State()
    {
      seq(|pcp|, i reads pcp requires 0 <= i < |pcp| => pcp[i].State())
    }

    /** `disable_nonboot_cpus`; `envs` gives the outcomes of the opaque steps
        of each `_cpu_down`. */
    method DisableNonbootCpus(envs: CpuId -> DownEnv, current: Task) returns (err: Status)
      requires Valid()
      requires lock.State() == LockState(None, 0)
      modifies this, masks, lock, pcp
      ensures Valid()
      ensures var r := DisableNonboot(chain, envs, old(masks.online), old(PcpStates()));
        err == r.err
        && masks.State() == old(masks.State()).(online := r.online)
        && frozenCpus == r.frozen && PcpStates() == r.pcps
        && trace == old(trace) + r.events
      ensures disabled == Step(old(disabled), Disable)
      ensures lock.State() == old(lock.State()) && mitigations == old(mitigations)
    {
      trace := trace + [PerfIrqsUnaffined];
      var first := FirstCpu(masks.online);
      frozenCpus := {};
      err := DisableLoop(envs, current, first);
      disabled := disabled + 1;
      ghost var r := DisableFrom(chain, envs, SuspendDown(chain, envs), first, old(masks.online), {}, old(PcpStates()), 0);
      assert trace == old(trace) + ([PerfIrqsUnaffined] + r.events);
    }

    /** The loop of `disable_nonboot_cpus`: `_cpu_down(cpu, 1)` on every
        online CPU but `first`, in ascending order, freezing each CPU taken
        down, until the first error. */
    method DisableLoop(envs: CpuId -> DownEnv, current: Task, first: nat) returns (err: Status)
      requires Valid()
      requires lock.State() == LockState(None, 0)
      modifies this, masks, lock, pcp
      ensures Valid() && lock.State() == LockState(None, 0)
      ensures var r := DisableFrom(chain, envs, SuspendDown(chain, envs), first, old(masks.online), old(frozenCpus),
                                   old(PcpStates()), 0);
        err == r.err
        && masks.State() == old(masks.State()).(online := r.online)
        && frozenCpus == r.frozen && PcpStates() == r.pcps
        && trace == old(trace) + r.events
      ensures disabled == old(disabled) && mitigations == old(mitigations)
    {
      ghost var t0 := trace;
      ghost var whole := DisableFrom(chain, envs, SuspendDown(chain, envs), first, masks.online, frozenCpus, PcpStates(), 0);
      ghost var done: seq<Event> := [];
      var cpu := 0;
      err := 0;
      while cpu < NR_CPUS && err == 0
        invariant cpu <= NR_CPUS
        invariant Valid() && lock.State() == LockState(None, 0)
        invariant masks.State() == old(masks.State()).(online := masks.online)
        invariant disabled == old(disabled) && mitigations == old(mitigations)
        invariant trace == t0 + done
        invariant err == 0 ==> whole == SuspendStitch(done, DisableFrom(chain, envs, SuspendDown(chain, envs), first,
                                                                        masks.online, frozenCpus, PcpStates(), cpu))
        invariant err != 0 ==> whole == Suspended(err, masks.online, frozenCpus, PcpStates(), done)
      {
        if cpu in masks.online && cpu != first {
          err, done := DisableAt(cpu, envs, current, first, whole, t0, done);
        }
        cpu := cpu + 1;
      }
      assert whole.events == done;
    }

    /** One `_cpu_down(cpu, 1)` of `disable_nonboot_cpus`, on an online CPU
        other than the first: the run from `cpu` that is still to come loses
        its first step, and the effects caused so far gain it. */
    method DisableAt(cpu: CpuId, envs: CpuId -> DownEnv, current: Task, ghost first: nat,
                     ghost whole: Suspended, ghost t0: seq<Event>, ghost done: seq<Event>)
      returns (err: Status, ghost done': seq<Event>)
      requires Valid() && lock.State() == LockState(None, 0)
      requires cpu in masks.online && cpu != first
      requires trace == t0 + done
      requires whole == SuspendStitch(done, DisableFrom(chain, envs, SuspendDown(chain, envs), first,
                                                        masks.online, frozenCpus, PcpStates(), cpu))
      modifies this, masks, lock, pcp[cpu]
      ensures Valid() && lock.State() == LockState(None, 0)
      ensures masks.State() == old(masks.State()).(online := masks.online)
      ensures disabled == old(disabled) && mitigations == old(mitigations)
      ensures trace == t0 + done'
      ensures err == 0 ==> whole == SuspendStitch(done', DisableFrom(chain, envs, SuspendDown(chain, envs), first,
                                                                     masks.online, frozenCpus, PcpStates(), cpu + 1))
      ensures err != 0 ==> whole == Suspended(err, masks.online, frozenCpus, PcpStates(), done')
    {
      ghost var down := SuspendDown(chain, envs);
      ghost var s := DownStageOf(chain, masks.online, cpu, true, envs(cpu));
      assert s == down(masks.online, cpu);
      ghost var es := DownEvents(chain, cpu, true, s);
      ghost var online, ps := masks.online, PcpStates();
      err := CpuDownLocked(cpu, true, envs(cpu), current);
      assert PcpStates() == ps[cpu := PcpAfterDown(ps[cpu], s, envs(cpu).helper)];
      DisableStep(chain, envs, down, first, online, frozenCpus, ps, cpu, whole, done, s, es, err, masks.online, PcpStates());
      if err == 0 {
        frozenCpus := frozenCpus + {cpu};
      }
      done' := done + es;
      Assoc3(t0, done, es);
    }

    /** `enable_nonboot_cpus`; `envs` gives the outcomes of the opaque steps
        of each `_cpu_up`. */
    method EnableNonbootCpus(envs: CpuId -> UpEnv, current: Task)
      requires Valid()
      requires lock.State() == LockState(None, 0)
      modifies this, masks, lock
      ensures Valid()
      ensures var r := EnableNonboot(chain, old(masks.present), old(frozenCpus), envs, old(masks.online), old(masks.active));
        masks.State() == old(masks.State()).(online := r.online, active := r.active)
        && trace == old(trace) + r.events
      ensures disabled == Step(old(disabled), Enable) && frozenCpus == {}
      ensures lock.State() == old(lock.State()) && mitigations == old(mitigations)
    {
      var warned := CpuHotplugEnable();
      if frozenCpus == {} {
        return;
      }
      ghost var t0 := trace;
      ghost var whole := EnableFrom(chain, masks.present, frozenCpus, envs, masks.online, masks.active, 0);
      ghost var done: seq<Event> := [];
      var cpu := 0;
      while cpu < NR_CPUS
        invariant cpu <= NR_CPUS
        invariant Valid() && lock.State() == LockState(None, 0)
        invariant masks.State() == old(masks.State()).(online := masks.online, active := masks.active)
        invariant disabled == Step(old(disabled), Enable) && frozenCpus == old(frozenCpus) && mitigations == old(mitigations)
        invariant trace == t0 + done
        invariant whole == ResumeStitch(done, EnableFrom(chain, masks.present, frozenCpus, envs, masks.online, masks.active, cpu))
      {
        if cpu in frozenCpus {
          done := EnableAt(cpu, envs, current, whole, t0, done);
        }
        cpu := cpu + 1;
      }
      frozenCpus := {};
      trace := trace + [PerfIrqsReaffined];
      assert whole.events == done;
    }

    /** One `_cpu_up(cpu, 1)` of `enable_nonboot_cpus`, on a frozen CPU; its
        error is ignored. */
    method EnableAt(cpu: CpuId, envs: CpuId -> UpEnv, current: Task,
                    ghost whole: Resumed, ghost t0: seq<Event>, ghost done: seq<Event>)
      returns (ghost done': seq<Event>)
      requires Valid() && lock.State() == LockState(None, 0)
      requires cpu in frozenCpus
      requires trace == t0 + done
      requires whole == ResumeStitch(done, EnableFrom(chain, masks.present, frozenCpus, envs, masks.online, masks.active, cpu))
      modifies this, masks, lock
      ensures Valid() && lock.State() == LockState(None, 0)
      ensures masks.State() == old(masks.State()).(online := masks.online, active := masks.active)
      ensures disabled == old(disabled) && frozenCpus == old(frozenCpus) && mitigations == old(mitigations)
      ensures trace == t0 + done'
      ensures whole == ResumeStitch(done', EnableFrom(chain, masks.present, frozenCpus, envs, masks.online, masks.active, cpu + 1))
    {
      ghost var s := UpStageOf(chain, masks.online, masks.present, cpu, true, envs(cpu));
      EnableFromUnfold(chain, masks.present, frozenCpus, envs, masks.online, masks.active, cpu);
      var err := CpuUpLocked(cpu, true, envs(cpu), current);
      ResumePrepend(whole, done, UpEvents(chain, cpu, true, s),
                    EnableFrom(chain, masks.present, frozenCpus, envs, masks.online, masks.active, cpu + 1));
      done' := done + UpEvents(chain, cpu, true, s);
    }

    /* ---------------- Boot parameter ---------------- */

    /** mitigations_parse_cmdline; it always returns 0. */
    method MitigationsParseCmdline(arg: string) returns (ret: int)
      requires Valid()
      modifies this
      ensures Valid()
      ensures ret == 0
      ensures mitigations == Mitigations.Parse(old(mitigations), arg)
      ensures disabled == old(disabled) && frozenCpus == old(frozenCpus) && trace == old(trace)
    {
      if arg == "off" {
        mitigations := Mitigations.Off;
      } else if arg == "auto" {
        mitigations := Mitigations.Auto;
      }
      return 0;
    }
  }
}
