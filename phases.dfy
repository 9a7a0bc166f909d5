/** What one `_cpu_down` or `_cpu_up` does, as a function of the state it
    starts from and of the results of its opaque steps: the stage at which it
    stops, the error it returns, the effects it causes in order, and the new
    online mask and per-CPU descriptor. The methods of `CpuHotplug` are
    proved to behave as these functions say; the lemmas here state what the
    transitions promise. */
module Phases {
  import opened HotplugTypes
  import opened Notifier
  import opened Pin

  /* ---------------- The sparse-irq lock ---------------- */

  predicate IsIrq(e: Event)
  {
    e.IrqLocked? || e.IrqUnlocked?
  }

  /** Effects none of which takes or releases the sparse-irq lock. */
  predicate NoIrq(es: seq<Event>)
  {
    forall i :: 0 <= i < |es| ==> !IsIrq(es[i])
  }

  lemma {:induction false} NoIrqAppend(a: seq<Event>, b: seq<Event>)
    requires NoIrq(a) && NoIrq(b)
    ensures NoIrq(a + b)
  {
    forall i | 0 <= i < |a + b|
      ensures !IsIrq((a + b)[i])
    {
      if i < |a| { assert (a + b)[i] == a[i]; } else { assert (a + b)[i] == b[i - |a|]; }
    }
  }

  /** Whether `irq_lock_sparse` is held after the effects `es`, when it was
      held (`held`) before them. */
  function IrqHeldAfter(held: bool, es: seq<Event>): bool
    decreases |es|
  {
    if es == [] then held
    else
      var next := if es[0].IrqLocked? then true else if es[0].IrqUnlocked? then false else held;
      IrqHeldAfter(next, es[1..])
  }

  lemma {:induction false} IrqHeldAppend(held: bool, a: seq<Event>, b: seq<Event>)
    ensures IrqHeldAfter(held, a + b) == IrqHeldAfter(IrqHeldAfter(held, a), b)
    decreases |a|
  {
    if a == [] {
      assert a + b == b;
    } else {
      assert (a + b)[1..] == a[1..] + b;
      var next := if a[0].IrqLocked? then true else if a[0].IrqUnlocked? then false else held;
      IrqHeldAppend(next, a[1..], b);
    }
  }

  lemma {:induction false} IrqHeldUnchanged(held: bool, es: seq<Event>)
    requires NoIrq(es)
    ensures IrqHeldAfter(held, es) == held
    decreases |es|
  {
    if es != [] {
      IrqHeldUnchanged(held, es[1..]);
    }
  }

  /* ---------------- _cpu_down ---------------- */

  /** Where a `_cpu_down` stops. */
  datatype DownStage =
    | Refused(err: ErrorCode)                 // rejected before the writer lock is taken
    | HelperFailed(err: ErrorCode)            // the sync_unplug helper could not be created
    | Vetoed(err: ErrorCode, accepted: nat)   // a DOWN_PREPARE subscriber vetoed after `accepted` accepted
    | StopFailed(err: ErrorCode)              // stop_machine(take_cpu_down) failed
    | Died                                    // the CPU is down

  /** The answers of the chain to DOWN_PREPARE about `cpu`. */
  function DownAnswers(c: Chain, cpu: CpuId, frozen: bool): seq<Response>
  {
    Answers(c, Msg(DownPrepare, frozen), cpu)
  }

  /** The checks and steps of `_cpu_down` (kernel/cpu.c:694-818), in order. */
  function DownStageOf(c: Chain, online: set<CpuId>, cpu: CpuId, frozen: bool, env: DownEnv): DownStage
  {
    if |online| == 1 then Refused(-EBUSY)
    else if cpu !in online then Refused(-EINVAL)
    else if !env.allocOk then Refused(-ENOMEM)
    else if !env.offTarget then Refused(-EBUSY)
    else if env.helperErr != 0 then HelperFailed(env.helperErr)
    else PrepareOutcome(c, cpu, frozen, env.stopErr)
  }

  /** Where `_cpu_down` stops once the helper exists: at a DOWN_PREPARE
      veto, at a stop_machine failure, or with the CPU down. */
  function PrepareOutcome(c: Chain, cpu: CpuId, frozen: bool, stopErr: Status): (s: DownStage)
    ensures s.Vetoed? || s.StopFailed? || s.Died?
  {
    var rs := DownAnswers(c, cpu, frozen);
    if ChainErr(rs) != 0 then Vetoed(ChainErr(rs), FirstVeto(rs))
    else if stopErr != 0 then StopFailed(stopErr)
    else Died
  }

  /** The value `_cpu_down` returns. */
  function DownErr(s: DownStage): (err: Status)
    ensures err == 0 <==> s == Died
  {
    match s
    case Refused(e) => e
    case HelperFailed(e) => e
    case Vetoed(e, _) => e
    case StopFailed(e) => e
    case Died => 0
  }

  /** The online mask after `_cpu_down`: only a CPU that died leaves it. */
  function DownOnline(online: set<CpuId>, cpu: CpuId, s: DownStage): set<CpuId>
  {
    if s == Died then online - {cpu} else online
  }

  /** The effects `_cpu_down` causes from CPU_DOWN_LATE_PREPARE up to and
      including stop_machine. */
  function DownStopSteps(c: Chain, cpu: CpuId, frozen: bool): seq<Event>
  {
    Calls(Msg(DownLatePrepare, frozen), 0, c.size)
    + [PinnedDrained(cpu), ThreadsParked(cpu), PinnedDrained(cpu), IrqLocked, StopMachine({cpu})]
  }

  /** The effects `_cpu_down` causes once DOWN_PREPARE went through: the
      steps up to stop_machine, then DOWN_FAILED to every subscriber, or the
      CPU's death and CPU_DEAD. */
  function DownAfterPrepare(c: Chain, cpu: CpuId, frozen: bool, s: DownStage): seq<Event>
  {
    DownStopSteps(c, cpu, frozen)
    + (if s == Died then [IrqUnlocked, CpuDied(cpu)] + Calls(Msg(Dead, frozen), cpu, c.size)
       else Calls(Msg(DownFailed, frozen), cpu, c.size) + [IrqUnlocked])
  }

  /** The effects `_cpu_down` causes between cpu_unplug_begin and
      cpu_unplug_done. */
  function DownRound(c: Chain, cpu: CpuId, frozen: bool, s: DownStage): seq<Event>
  {
    match s
    case Vetoed(_, k) =>
      [IdleDisabled(cpu)]
      + Calls(Msg(DownPrepare, frozen), cpu, k + 1)
      + Calls(Msg(DownFailed, frozen), cpu, k)
      + [IdleEnabled(cpu)]
    case StopFailed(_) =>
      [IdleDisabled(cpu)] + Calls(Msg(DownPrepare, frozen), cpu, c.size) + DownAfterPrepare(c, cpu, frozen, s)
    case Died =>
      [IdleDisabled(cpu)] + Calls(Msg(DownPrepare, frozen), cpu, c.size) + DownAfterPrepare(c, cpu, frozen, s)
    case _ => []
  }

  /** The rounds of `_cpu_down` appended to a trace, as the effects occur. */
  lemma {:induction false} DownRoundVetoedAppend(c: Chain, cpu: CpuId, frozen: bool, e: ErrorCode, k: nat, t0: seq<Event>)
    ensures t0 + [IdleDisabled(cpu)] + Calls(Msg(DownPrepare, frozen), cpu, k + 1)
      + Calls(Msg(DownFailed, frozen), cpu, k) + [IdleEnabled(cpu)]
      == t0 + DownRound(c, cpu, frozen, Vetoed(e, k))
  {
  }

  lemma {:induction false} DownRoundTakenAppend(c: Chain, cpu: CpuId, frozen: bool, s: DownStage, t0: seq<Event>)
    requires s.StopFailed? || s == Died
    ensures t0 + [IdleDisabled(cpu)] + Calls(Msg(DownPrepare, frozen), cpu, c.size) + DownAfterPrepare(c, cpu, frozen, s)
      == t0 + DownRound(c, cpu, frozen, s)
  {
  }

  /** The effects of `_cpu_down`, in the order it causes them. */
  function DownEvents(c: Chain, cpu: CpuId, frozen: bool, s: DownStage): seq<Event>
  {
    match s
    case Refused(_) => []
    case HelperFailed(_) => [SchedDownBegin(cpu)]
    case _ =>
      [SchedDownBegin(cpu)] + DownRound(c, cpu, frozen, s) + [SchedDownDone(cpu)]
      + (if s == Died then Calls(Msg(PostDead, frozen), cpu, c.size) else [])
  }

  lemma {:induction false} DownEventsAppend(c: Chain, cpu: CpuId, frozen: bool, s: DownStage, t0: seq<Event>)
    requires s.Vetoed? || s.StopFailed? || s == Died
    ensures t0 + [SchedDownBegin(cpu)] + DownRound(c, cpu, frozen, s) + [SchedDownDone(cpu)]
      + (if s == Died then Calls(Msg(PostDead, frozen), cpu, c.size) else [])
      == t0 + DownEvents(c, cpu, frozen, s)
  {
  }

  /** The target CPU's `hotplug_pcp` after `_cpu_down`: cpu_unplug_begin
      initialises the lock and records the helper; a vetoed down stops the
      helper in cpu_unplug_done but leaves its pointer; a down that went past
      cpu_unplug_sync has cleared it. Every down that started the unplug ends
      it, so `unplug` and `grab_lock` are clear again. */
  function PcpAfterDown(p: PcpState, s: DownStage, helper: Task): PcpState
  {
    match s
    case Refused(_) => p
    case HelperFailed(_) => p.(mutexInit := true, syncTsk := None)
    case Vetoed(_, _) => p.(mutexInit := true, syncTsk := Some(helper), unplug := None, grabLock := false)
    case StopFailed(_) => p.(mutexInit := true, syncTsk := None, unplug := None, grabLock := false)
    case Died => p.(mutexInit := true, syncTsk := None, unplug := None, grabLock := false)
  }

  /** The refusals of `_cpu_down`: the last online CPU is never taken down
      (-EBUSY) and an offline CPU is rejected (-EINVAL); a refused down has no
      effect at all. */
  lemma {:induction false} DownRefusals(c: Chain, online: set<CpuId>, cpu: CpuId, frozen: bool, env: DownEnv, p: PcpState)
    ensures |online| == 1 ==> DownStageOf(c, online, cpu, frozen, env) == Refused(-EBUSY)
    ensures |online| != 1 && cpu !in online ==> DownStageOf(c, online, cpu, frozen, env) == Refused(-EINVAL)
    ensures DownStageOf(c, online, cpu, frozen, env).Refused? ==>
      DownEvents(c, cpu, frozen, DownStageOf(c, online, cpu, frozen, env)) == []
      && DownOnline(online, cpu, DownStageOf(c, online, cpu, frozen, env)) == online
      && PcpAfterDown(p, DownStageOf(c, online, cpu, frozen, env), env.helper) == p
  {
  }

  /** `_cpu_down` returns 0 exactly when every check and step succeeds and no
      subscriber vetoes; then the CPU, which was online, is the only one to
      leave the online mask, and at least one CPU stays online. */
  lemma {:induction false} DownSucceedsIff(c: Chain, online: set<CpuId>, cpu: CpuId, frozen: bool, env: DownEnv)
    ensures var s := DownStageOf(c, online, cpu, frozen, env);
      DownErr(s) == 0 <==>
        |online| != 1 && cpu in online && env.allocOk && env.offTarget && env.helperErr == 0
        && (forall i :: 0 <= i < c.size ==> c.answer(Msg(DownPrepare, frozen), cpu, i) == Accept)
        && env.stopErr == 0
    ensures var s := DownStageOf(c, online, cpu, frozen, env);
      DownErr(s) == 0 ==>
        cpu in online && DownOnline(online, cpu, s) == online - {cpu}
        && |DownOnline(online, cpu, s)| == |online| - 1 >= 1
    ensures var s := DownStageOf(c, online, cpu, frozen, env);
      DownErr(s) != 0 ==> DownOnline(online, cpu, s) == online
  {
    var rs := DownAnswers(c, cpu, frozen);
    if |online| != 1 && cpu in online && env.allocOk && env.offTarget && env.helperErr == 0 {
      if ChainErr(rs) != 0 {
        var k := FirstVeto(rs);
        assert rs[k] == c.answer(Msg(DownPrepare, frozen), cpu, k);
      } else {
        forall i | 0 <= i < c.size
          ensures c.answer(Msg(DownPrepare, frozen), cpu, i) == Accept
        {
          assert rs[i] == c.answer(Msg(DownPrepare, frozen), cpu, i);
        }
      }
    }
  }

  /** On a DOWN_PREPARE veto, the subscribers that accepted — exactly the
      first `nr_calls - 1`, walked again from the front of the chain — get
      DOWN_FAILED, the vetoer and those after it do not; cpuidle is
      re-enabled and the online mask is untouched. */
  lemma {:induction false} DownVetoRollback(c: Chain, online: set<CpuId>, cpu: CpuId, frozen: bool, env: DownEnv)
    requires DownStageOf(c, online, cpu, frozen, env).Vetoed?
    ensures var s := DownStageOf(c, online, cpu, frozen, env);
      var rs := DownAnswers(c, cpu, frozen);
      var es := DownEvents(c, cpu, frozen, s);
      s.accepted + 1 == NrCalls(rs)
      && rs[s.accepted] == Veto(s.err)
      && (forall i :: 0 <= i < s.accepted ==> rs[i] == Accept)
      && Called(es, Msg(DownPrepare, frozen), cpu) == Range(s.accepted + 1)
      && Called(es, Msg(DownFailed, frozen), cpu) == Range(s.accepted)
      && es[1] == IdleDisabled(cpu) && es[|es| - 2] == IdleEnabled(cpu)
      && DownOnline(online, cpu, s) == online
  {
    var s := DownStageOf(c, online, cpu, frozen, env);
    VetoedCallReachesVetoer(DownAnswers(c, cpu, frozen));
    VetoedDownCalls(c, cpu, frozen, s.err, s.accepted);
  }

  /** The trace of a vetoed `_cpu_down` calls subscribers 0..k with
      DOWN_PREPARE and 0..k-1 with DOWN_FAILED, inside the cpuidle
      disable/enable pair. */
  lemma {:induction false} VetoedDownCalls(c: Chain, cpu: CpuId, frozen: bool, e: ErrorCode, k: nat)
    ensures var es := DownEvents(c, cpu, frozen, Vetoed(e, k));
      Called(es, Msg(DownPrepare, frozen), cpu) == Range(k + 1)
      && Called(es, Msg(DownFailed, frozen), cpu) == Range(k)
      && es[1] == IdleDisabled(cpu) && es[|es| - 2] == IdleEnabled(cpu)
  {
    var head := [SchedDownBegin(cpu), IdleDisabled(cpu)];
    var tail := [IdleEnabled(cpu), SchedDownDone(cpu)];
    var mp, mf := Msg(DownPrepare, frozen), Msg(DownFailed, frozen);
    VetoedDownShape(c, cpu, frozen, e, k);
    CalledTwoCalls(head, mp, k + 1, [], mf, k, tail, mp, cpu);
    CalledTwoCalls(head, mp, k + 1, [], mf, k, tail, mf, cpu);
  }

  lemma {:induction false} VetoedDownShape(c: Chain, cpu: CpuId, frozen: bool, e: ErrorCode, k: nat)
    ensures DownEvents(c, cpu, frozen, Vetoed(e, k))
         == [SchedDownBegin(cpu), IdleDisabled(cpu)] + Calls(Msg(DownPrepare, frozen), cpu, k + 1) + []
            + Calls(Msg(DownFailed, frozen), cpu, k) + [IdleEnabled(cpu), SchedDownDone(cpu)]
  {
    var cp, cf := Calls(Msg(DownPrepare, frozen), cpu, k + 1), Calls(Msg(DownFailed, frozen), cpu, k);
    var round := DownRound(c, cpu, frozen, Vetoed(e, k));
    assert round == [IdleDisabled(cpu)] + cp + cf + [IdleEnabled(cpu)];
    assert DownEvents(c, cpu, frozen, Vetoed(e, k)) == [SchedDownBegin(cpu)] + round + [SchedDownDone(cpu)] + [];
  }

  /** Every `_cpu_down` that takes `irq_lock_sparse` releases it before it
      returns, and only a down that reaches stop_machine takes it. */
  lemma {:induction false} DownReleasesIrqLock(c: Chain, cpu: CpuId, frozen: bool, s: DownStage)
    ensures !IrqHeldAfter(false, DownEvents(c, cpu, frozen, s))
    ensures IrqLocked in DownEvents(c, cpu, frozen, s) <==> s.StopFailed? || s == Died
  {
    var es := DownEvents(c, cpu, frozen, s);
    match s
    case Refused(_) =>
    case HelperFailed(_) =>
      IrqHeldUnchanged(false, es);
    case Vetoed(_, _) =>
      IrqHeldUnchanged(false, es);
    case StopFailed(_) =>
      StopFailedReleasesIrqLock(c, cpu, frozen, s);
    case Died =>
      DiedReleasesIrqLock(c, cpu, frozen);
  }

  lemma {:induction false} StopFailedReleasesIrqLock(c: Chain, cpu: CpuId, frozen: bool, s: DownStage)
    requires s.StopFailed?
    ensures !IrqHeldAfter(false, DownEvents(c, cpu, frozen, s))
    ensures IrqLocked in DownEvents(c, cpu, frozen, s)
  {
    var steps := DownStopSteps(c, cpu, frozen);
    var pre := [SchedDownBegin(cpu), IdleDisabled(cpu)] + Calls(Msg(DownPrepare, frozen), cpu, c.size) + steps
               + Calls(Msg(DownFailed, frozen), cpu, c.size);
    StopFailedShape(c, cpu, frozen, s);
    assert IrqLocked in pre by {
      assert steps[|steps| - 2] == IrqLocked;
    }
    ReleasedAfter(DownEvents(c, cpu, frozen, s), pre, [SchedDownDone(cpu)]);
  }

  lemma {:induction false} StopFailedShape(c: Chain, cpu: CpuId, frozen: bool, s: DownStage)
    requires s.StopFailed?
    ensures DownEvents(c, cpu, frozen, s)
         == [SchedDownBegin(cpu), IdleDisabled(cpu)] + Calls(Msg(DownPrepare, frozen), cpu, c.size) + DownStopSteps(c, cpu, frozen)
            + Calls(Msg(DownFailed, frozen), cpu, c.size) + [IrqUnlocked] + [SchedDownDone(cpu)]
  {
    var cp, steps := Calls(Msg(DownPrepare, frozen), cpu, c.size), DownStopSteps(c, cpu, frozen);
    var df := Calls(Msg(DownFailed, frozen), cpu, c.size);
    var round := DownRound(c, cpu, frozen, s);
    assert round == [IdleDisabled(cpu)] + cp + (steps + (df + [IrqUnlocked]));
    assert DownEvents(c, cpu, frozen, s) == [SchedDownBegin(cpu)] + round + [SchedDownDone(cpu)];
  }

  lemma {:induction false} DiedReleasesIrqLock(c: Chain, cpu: CpuId, frozen: bool)
    ensures !IrqHeldAfter(false, DownEvents(c, cpu, frozen, Died))
    ensures IrqLocked in DownEvents(c, cpu, frozen, Died)
  {
    var steps := DownStopSteps(c, cpu, frozen);
    var dead, pd := Calls(Msg(Dead, frozen), cpu, c.size), Calls(Msg(PostDead, frozen), cpu, c.size);
    var pre := [SchedDownBegin(cpu), IdleDisabled(cpu)] + Calls(Msg(DownPrepare, frozen), cpu, c.size) + steps;
    var post := [CpuDied(cpu)] + dead + [SchedDownDone(cpu)] + pd;
    DiedShape(c, cpu, frozen);
    assert IrqLocked in pre by {
      assert steps[|steps| - 2] == IrqLocked;
    }
    assert NoIrq(post) by {
      NoIrqCalls(Msg(Dead, frozen), cpu, c.size);
      NoIrqCalls(Msg(PostDead, frozen), cpu, c.size);
      NoIrqAppend([CpuDied(cpu)], dead);
      NoIrqAppend([CpuDied(cpu)] + dead, [SchedDownDone(cpu)]);
      NoIrqAppend([CpuDied(cpu)] + dead + [SchedDownDone(cpu)], pd);
    }
    ReleasedAfter(DownEvents(c, cpu, frozen, Died), pre, post);
  }

  lemma {:induction false} DiedShape(c: Chain, cpu: CpuId, frozen: bool)
    ensures DownEvents(c, cpu, frozen, Died)
         == [SchedDownBegin(cpu), IdleDisabled(cpu)] + Calls(Msg(DownPrepare, frozen), cpu, c.size) + DownStopSteps(c, cpu, frozen)
            + [IrqUnlocked]
            + ([CpuDied(cpu)] + Calls(Msg(Dead, frozen), cpu, c.size) + [SchedDownDone(cpu)] + Calls(Msg(PostDead, frozen), cpu, c.size))
  {
    var cp, steps := Calls(Msg(DownPrepare, frozen), cpu, c.size), DownStopSteps(c, cpu, frozen);
    var dead, pd := Calls(Msg(Dead, frozen), cpu, c.size), Calls(Msg(PostDead, frozen), cpu, c.size);
    var round := DownRound(c, cpu, frozen, Died);
    assert round == [IdleDisabled(cpu)] + cp + (steps + ([IrqUnlocked, CpuDied(cpu)] + dead));
    assert DownEvents(c, cpu, frozen, Died) == [SchedDownBegin(cpu)] + round + [SchedDownDone(cpu)] + pd;
  }

  lemma {:induction false} NoIrqCalls(m: Msg, cpu: CpuId, n: nat)
    ensures NoIrq(Calls(m, cpu, n))
  {
  }

  /** Effects in which the lock is taken and later released, with nothing
      touching it after the release, leave it released. */
  lemma {:induction false} ReleasedAfter(es: seq<Event>, pre: seq<Event>, post: seq<Event>)
    requires es == pre + [IrqUnlocked] + post
    requires IrqLocked in pre && NoIrq(post)
    ensures !IrqHeldAfter(false, es) && IrqLocked in es
  {
    UnlockThenQuiet(false, pre, post);
  }

  /** Effects that end with an unlock followed only by effects that do not
      touch the lock leave it released. */
  lemma {:induction false} UnlockThenQuiet(held: bool, pre: seq<Event>, post: seq<Event>)
    requires NoIrq(post)
    ensures !IrqHeldAfter(held, pre + [IrqUnlocked] + post)
  {
    IrqHeldAppend(held, pre + [IrqUnlocked], post);
    IrqHeldAppend(held, pre, [IrqUnlocked]);
    assert [IrqUnlocked][1..] == [];
    IrqHeldUnchanged(false, post);
  }

  /** Once a `_cpu_down` that got its helper returns, the descriptor no
      longer blocks anyone: pinning takes the fast path for every caller, and
      the count of pinned sections is what it was. */
  lemma {:induction false} DownLeavesPinsFree(p: PcpState, s: DownStage, helper: Task, t: Task, preemptCount: nat, migrated: bool)
    requires s.Vetoed? || s.StopFailed? || s == Died
    ensures PcpAfterDown(p, s, helper).unplug == None && !PcpAfterDown(p, s, helper).grabLock
    ensures PcpAfterDown(p, s, helper).refcount == p.refcount && PcpAfterDown(p, s, helper).mutexInit
    ensures PinDecision(PcpAfterDown(p, s, helper), t, preemptCount, migrated) == Pinned
  {
    PinWithoutUnplugNeverWaits(PcpAfterDown(p, s, helper), t, preemptCount, migrated);
  }

  /* ---------------- _cpu_up ---------------- */

  /** Where a `_cpu_up` stops. */
  datatype UpStage =
    | UpRefused(err: ErrorCode)                 // already online or not present
    | IdleFailed(err: ErrorCode)                // idle_thread_get failed
    | ThreadsFailed(err: ErrorCode)             // smpboot_create_threads failed
    | UpVetoed(err: ErrorCode, accepted: nat)   // an UP_PREPARE subscriber vetoed after `accepted` accepted
    | ArchFailed(err: ErrorCode)                // __cpu_up failed
    | Up                                        // the CPU is online

  /** The answers of the chain to UP_PREPARE about `cpu`. */
  function UpAnswers(c: Chain, cpu: CpuId, frozen: bool): seq<Response>
  {
    Answers(c, Msg(UpPrepare, frozen), cpu)
  }

  /** The checks and steps of `_cpu_up` (kernel/cpu.c:1024-1075), in order. */
  function UpStageOf(c: Chain, online: set<CpuId>, present: set<CpuId>, cpu: CpuId, frozen: bool, env: UpEnv): UpStage
  {
    if cpu in online || cpu !in present then UpRefused(-EINVAL)
    else if env.idleErr != 0 then IdleFailed(env.idleErr)
    else if env.threadsErr != 0 then ThreadsFailed(env.threadsErr)
    else
      var rs := UpAnswers(c, cpu, frozen);
      if ChainErr(rs) != 0 then UpVetoed(ChainErr(rs), FirstVeto(rs))
      else if env.archErr != 0 then ArchFailed(env.archErr)
      else Up
  }

  /** The value `_cpu_up` returns. */
  function UpErr(s: UpStage): (err: Status)
    ensures err == 0 <==> s == Up
  {
    match s
    case UpRefused(e) => e
    case IdleFailed(e) => e
    case ThreadsFailed(e) => e
    case UpVetoed(e, _) => e
    case ArchFailed(e) => e
    case Up => 0
  }

  /** The online (and active) mask after `_cpu_up`: only a CPU that came up
      joins it. */
  function UpMask(m: set<CpuId>, cpu: CpuId, s: UpStage): set<CpuId>
  {
    if s == Up then m + {cpu} else m
  }

  /** The effects of `_cpu_up`, in the order it causes them. */
  function UpEvents(c: Chain, cpu: CpuId, frozen: bool, s: UpStage): seq<Event>
  {
    match s
    case UpRefused(_) => []
    case IdleFailed(_) => []
    case ThreadsFailed(_) => []
    case UpVetoed(_, k) =>
      Calls(Msg(UpPrepare, frozen), cpu, k + 1) + Calls(Msg(UpCanceled, frozen), cpu, k)
    case ArchFailed(_) =>
      Calls(Msg(UpPrepare, frozen), cpu, c.size) + [ArchCpuUp(cpu)] + Calls(Msg(UpCanceled, frozen), cpu, c.size)
    case Up =>
      Calls(Msg(UpPrepare, frozen), cpu, c.size) + [ArchCpuUp(cpu)]
      + Calls(Msg(Online, frozen), cpu, c.size) + [IdleEnabled(cpu)]
  }

  /** The effects of `_cpu_up` appended to a trace, as they occur. */
  lemma {:induction false} UpEventsVetoedAppend(c: Chain, cpu: CpuId, frozen: bool, e: ErrorCode, k: nat, t0: seq<Event>)
    ensures t0 + Calls(Msg(UpPrepare, frozen), cpu, k + 1) + Calls(Msg(UpCanceled, frozen), cpu, k)
      == t0 + UpEvents(c, cpu, frozen, UpVetoed(e, k))
  {
  }

  lemma {:induction false} UpEventsTakenAppend(c: Chain, cpu: CpuId, frozen: bool, archErr: Status, t0: seq<Event>)
    ensures t0 + Calls(Msg(UpPrepare, frozen), cpu, c.size) + [ArchCpuUp(cpu)]
      + (if archErr == 0 then Calls(Msg(Online, frozen), cpu, c.size) + [IdleEnabled(cpu)]
         else Calls(Msg(UpCanceled, frozen), cpu, c.size))
      == t0 + UpEvents(c, cpu, frozen, if archErr != 0 then ArchFailed(archErr) else Up)
  {
  }

  /** An up request for a CPU that is already online or not present fails
      with -EINVAL and notifies nobody. */
  lemma {:induction false} UpRefusals(c: Chain, online: set<CpuId>, present: set<CpuId>, cpu: CpuId, frozen: bool, env: UpEnv)
    requires cpu in online || cpu !in present
    ensures UpStageOf(c, online, present, cpu, frozen, env) == UpRefused(-EINVAL)
    ensures UpEvents(c, cpu, frozen, UpStageOf(c, online, present, cpu, frozen, env)) == []
    ensures UpMask(online, cpu, UpStageOf(c, online, present, cpu, frozen, env)) == online
  {
  }

  /** `_cpu_up` returns 0 exactly when the CPU was offline and present,
      every step succeeds and nobody vetoes; then the CPU is the only one to
      join the mask. */
  lemma {:induction false} UpSucceedsIff(c: Chain, online: set<CpuId>, present: set<CpuId>, cpu: CpuId, frozen: bool, env: UpEnv)
    ensures var s := UpStageOf(c, online, present, cpu, frozen, env);
      UpErr(s) == 0 <==>
        cpu !in online && cpu in present && env.idleErr == 0 && env.threadsErr == 0
        && (forall i :: 0 <= i < c.size ==> c.answer(Msg(UpPrepare, frozen), cpu, i) == Accept)
        && env.archErr == 0
    ensures var s := UpStageOf(c, online, present, cpu, frozen, env);
      UpErr(s) == 0 ==> cpu !in online && UpMask(online, cpu, s) == online + {cpu}
    ensures var s := UpStageOf(c, online, present, cpu, frozen, env);
      UpErr(s) != 0 ==> UpMask(online, cpu, s) == online
  {
    var rs := UpAnswers(c, cpu, frozen);
    if cpu !in online && cpu in present && env.idleErr == 0 && env.threadsErr == 0 {
      if ChainErr(rs) != 0 {
        var k := FirstVeto(rs);
        assert rs[k] == c.answer(Msg(UpPrepare, frozen), cpu, k);
      } else {
        forall i | 0 <= i < c.size
          ensures c.answer(Msg(UpPrepare, frozen), cpu, i) == Accept
        {
          assert rs[i] == c.answer(Msg(UpPrepare, frozen), cpu, i);
        }
      }
    }
  }

  /** A failed bring-up sends UP_CANCELED to exactly the subscribers that
      got UP_PREPARE and accepted it, from the front of the chain: the first
      `nr_calls - 1` after a veto, all of them after an arch failure. ONLINE
      is never sent, and the mask is untouched. */
  lemma {:induction false} UpRollback(c: Chain, online: set<CpuId>, present: set<CpuId>, cpu: CpuId, frozen: bool, env: UpEnv)
    requires UpStageOf(c, online, present, cpu, frozen, env).UpVetoed?
          || UpStageOf(c, online, present, cpu, frozen, env).ArchFailed?
    ensures var s := UpStageOf(c, online, present, cpu, frozen, env);
      var rs := UpAnswers(c, cpu, frozen);
      var es := UpEvents(c, cpu, frozen, s);
      var accepted := if s.UpVetoed? then s.accepted else c.size;
      (forall i :: 0 <= i < accepted ==> rs[i] == Accept)
      && (s.UpVetoed? ==> s.accepted + 1 == NrCalls(rs) && rs[s.accepted] == Veto(s.err))
      && Called(es, Msg(UpCanceled, frozen), cpu) == Range(accepted)
      && Called(es, Msg(UpPrepare, frozen), cpu) == Range(if s.UpVetoed? then accepted + 1 else accepted)
      && Called(es, Msg(Online, frozen), cpu) == []
      && UpMask(online, cpu, s) == online
  {
    var s := UpStageOf(c, online, present, cpu, frozen, env);
    var rs := UpAnswers(c, cpu, frozen);
    var mp, mc, mo := Msg(UpPrepare, frozen), Msg(UpCanceled, frozen), Msg(Online, frozen);
    var n1, mid, n2 := if s.UpVetoed? then s.accepted + 1 else c.size,
                       if s.UpVetoed? then [] else [ArchCpuUp(cpu)],
                       if s.UpVetoed? then s.accepted else c.size;
    if s.UpVetoed? {
      VetoedCallReachesVetoer(rs);
    }
    assert UpEvents(c, cpu, frozen, s) == [] + Calls(mp, cpu, n1) + mid + Calls(mc, cpu, n2) + [];
    CalledTwoCalls([], mp, n1, mid, mc, n2, [], mp, cpu);
    CalledTwoCalls([], mp, n1, mid, mc, n2, [], mc, cpu);
    CalledTwoCalls([], mp, n1, mid, mc, n2, [], mo, cpu);
  }

  /** Bringing an offline CPU up and then taking it down again restores the
      online mask, provided the opaque steps succeed and nobody vetoes: the
      CPU just brought up is never the last one online. */
  lemma {:induction false} UpThenDownRestoresOnline(c: Chain, online: set<CpuId>, present: set<CpuId>, cpu: CpuId,
                                 frozen: bool, uenv: UpEnv, denv: DownEnv)
    requires UpStageOf(c, online, present, cpu, frozen, uenv) == Up
    requires online != {}
    requires denv.allocOk && denv.offTarget && denv.helperErr == 0 && denv.stopErr == 0
    requires forall i :: 0 <= i < c.size ==> c.answer(Msg(DownPrepare, frozen), cpu, i) == Accept
    ensures var up := UpMask(online, cpu, Up);
      DownStageOf(c, up, cpu, frozen, denv) == Died
      && DownOnline(up, cpu, DownStageOf(c, up, cpu, frozen, denv)) == online
  {
    var up := online + {cpu};
    var other :| other in online;
    assert other != cpu;
    assert {other, cpu} <= up;
    assert |{other, cpu}| == 2;
    SubsetCard({other, cpu}, up);
    DownSucceedsIff(c, up, cpu, frozen, denv);
    assert up - {cpu} == online;
  }

  lemma {:induction false} SubsetCard(a: set<CpuId>, b: set<CpuId>)
    requires a <= b
    ensures |a| <= |b|
  {
    assert b == a + (b - a);
  }
}
