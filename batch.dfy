/** What `cpus_down` and `cpus_up` do, as functions of the state they start
    from and of the results of their opaque steps. `cpus_down` takes a set of
    CPUs down together under a single stop_machine; `cpus_up` brings a set of
    CPUs up one at a time. Both walk their CPUs in ascending order, as
    for_each_cpu does. */
module Batch {
  import opened HotplugTypes
  import opened Notifier
  import opened Phases
  import opened Policy

  /* ---------------- Per-CPU loops ---------------- */

  /** The body of one for_each_cpu loop of `cpus_down`. */
  datatype Block =
    | Prepare         // cpuidle disabled, DOWN_PREPARE accepted by every subscriber
    | Rollback        // cpuidle re-enabled, DOWN_FAILED to every subscriber
    | Park            // smpboot_park_threads
    | Unpark          // smpboot_unpark_threads, DOWN_FAILED to every subscriber
    | Die             // __cpu_die
    | DeadNotice      // CPU_DEAD to every subscriber
    | PostDeadNotice  // CPU_POST_DEAD to every subscriber

  /** The message a block sends to the chain, if any. */
  function BlockMsg(b: Block): Option<Msg>
  {
    match b
    case Prepare => Some(Msg(DownPrepare, false))
    case Rollback => Some(Msg(DownFailed, false))
    case Park => None
    case Unpark => Some(Msg(DownFailed, false))
    case Die => None
    case DeadNotice => Some(Msg(Dead, false))
    case PostDeadNotice => Some(Msg(PostDead, false))
  }

  /** The effects of one block for CPU `x`. */
  function BlockEvents(c: Chain, b: Block, x: CpuId): seq<Event>
  {
    match b
    case Prepare => [IdleDisabled(x)] + Calls(Msg(DownPrepare, false), x, c.size)
    case Rollback => [IdleEnabled(x)] + Calls(Msg(DownFailed, false), x, c.size)
    case Park => [ThreadsParked(x)]
    case Unpark => [ThreadsUnparked(x)] + Calls(Msg(DownFailed, false), x, c.size)
    case Die => [CpuDied(x)]
    case DeadNotice => Calls(Msg(Dead, false), x, c.size)
    case PostDeadNotice => Calls(Msg(PostDead, false), x, c.size)
  }

  /** A block never touches the sparse-irq lock. */
  lemma {:induction false} BlockNoIrq(c: Chain, b: Block, x: CpuId)
    ensures NoIrq(BlockEvents(c, b, x))
  {
    var es := BlockEvents(c, b, x);
    if BlockMsg(b).Some? && |es| != c.size {
      var m0 := BlockMsg(b).value;
      assert es == es[..1] + Calls(m0, x, c.size);
      NoIrqAppend(es[..1], Calls(m0, x, c.size));
    }
  }

  /** The effects of running block `b` for every CPU of `dest` below `i`,
      in ascending order. (`dest` leads the measure, although it never
      changes, so that a call on the constant bound is not unfolded eagerly.) */
  function PerCpu(c: Chain, dest: set<CpuId>, b: Block, i: nat): seq<Event>
    requires i <= NR_CPUS
    decreases dest, i
  {
    if i == 0 then []
    else PerCpu(c, dest, b, i - 1) + (if (i - 1) in dest then BlockEvents(c, b, i - 1) else [])
  }

  /** A per-CPU loop never touches the sparse-irq lock. */
  lemma {:induction false} PerCpuNoIrq(c: Chain, dest: set<CpuId>, b: Block, i: nat)
    requires i <= NR_CPUS
    ensures NoIrq(PerCpu(c, dest, b, i))
    decreases i
  {
    if i > 0 {
      PerCpuNoIrq(c, dest, b, i - 1);
      if (i - 1) in dest {
        BlockNoIrq(c, b, i - 1);
        NoIrqAppend(PerCpu(c, dest, b, i - 1), BlockEvents(c, b, i - 1));
      } else {
        assert PerCpu(c, dest, b, i) == PerCpu(c, dest, b, i - 1) + [];
      }
    }
  }

  /** The subscribers a block for CPU `x` calls about CPU `y`: every
      subscriber with the block's message when `y` is `x`, nobody
      otherwise. */
  lemma {:induction false} CalledBlock(c: Chain, b: Block, x: CpuId, m: Msg, y: CpuId)
    ensures Called(BlockEvents(c, b, x), m, y) == if x == y && BlockMsg(b) == Some(m) then Range(c.size) else []
  {
    var es := BlockEvents(c, b, x);
    if BlockMsg(b).None? {
      CalledUnrelated(es, m, y);
    } else {
      var m0 := BlockMsg(b).value;
      var body := Calls(m0, x, c.size);
      var head := if |es| == c.size then [] else es[..1];
      assert es == head + body;
      CalledAppend(head, body, m, y);
      CalledUnrelated(head, m, y);
      if x == y && m == m0 { CalledCalls(m, x, c.size); } else { CalledUnrelated(body, m, y); }
    }
  }

  /** A per-CPU loop calls subscribers about CPU `y` only in `y`'s own
      block: those of a CPU of `dest` below `i`, nobody otherwise. */
  lemma {:induction false} CalledPerCpu(c: Chain, dest: set<CpuId>, b: Block, i: nat, m: Msg, y: CpuId)
    requires i <= NR_CPUS
    ensures Called(PerCpu(c, dest, b, i), m, y)
         == if y < i && y in dest && BlockMsg(b) == Some(m) then Range(c.size) else []
    decreases i
  {
    if i > 0 {
      var x: CpuId := i - 1;
      var prev := PerCpu(c, dest, b, x);
      CalledPerCpu(c, dest, b, x, m, y);
      if x in dest {
        var blk := BlockEvents(c, b, x);
        assert PerCpu(c, dest, b, i) == prev + blk;
        CalledAppend(prev, blk, m, y);
        CalledBlock(c, b, x, m, y);
      } else {
        assert PerCpu(c, dest, b, i) == prev + [];
        CalledAppend(prev, [], m, y);
        assert Called([], m, y) == [];
      }
    }
  }

  /** One more round of a per-CPU loop. */
  lemma {:induction false} PerCpuAppend(c: Chain, dest: set<CpuId>, b: Block, i: nat, t0: seq<Event>)
    requires i < NR_CPUS
    ensures t0 + PerCpu(c, dest, b, i) + (if i in dest then BlockEvents(c, b, i) else [])
         == t0 + PerCpu(c, dest, b, i + 1)
  {
  }

  /** One more round of the DOWN_PREPARE loop, for a CPU of the target that
      every subscriber accepted. */
  lemma {:induction false} PrepareAppend(c: Chain, dest: set<CpuId>, i: CpuId, t0: seq<Event>)
    requires i in dest
    ensures t0 + PerCpu(c, dest, Prepare, i) + [IdleDisabled(i)] + Calls(Msg(DownPrepare, false), i, c.size)
         == t0 + PerCpu(c, dest, Prepare, i + 1)
  {
  }

  /* ---------------- cpus_down ---------------- */

  /** Whether some subscriber refuses DOWN_PREPARE about `x`. */
  predicate DownVetoes(c: Chain, x: CpuId)
  {
    ChainErr(DownAnswers(c, x, false)) != 0
  }

  /** The first CPU of `dest`, from `i` up, whose DOWN_PREPARE is refused,
      or NR_CPUS when there is none. */
  function VetoFrom(c: Chain, dest: set<CpuId>, i: nat): (v: nat)
    requires i <= NR_CPUS
    ensures i <= v <= NR_CPUS
    ensures v < NR_CPUS ==> v in dest && DownVetoes(c, v)
    ensures forall x: CpuId :: i <= x < v && x in dest ==> !DownVetoes(c, x)
    decreases dest, NR_CPUS - i
  {
    if i == NR_CPUS then NR_CPUS
    else if i in dest && DownVetoes(c, i) then i
    else VetoFrom(c, dest, i + 1)
  }

  /** Where a `cpus_down` stops. */
  datatype BatchStage =
    | BatchRefused                                              // -EBUSY before anything is done
    | BatchVetoed(cpu: CpuId, err: ErrorCode, accepted: nat)    // DOWN_PREPARE about `cpu` refused
    | BatchStopFailed(err: ErrorCode)                           // stop_machine failed
    | BatchDown                                                 // every CPU of the target is down

  /** The checks and steps of `cpus_down` (kernel/cpu.c:847-970), in order,
      on dest = cpus ∩ online. */
  function CpusDownStage(c: Chain, online: set<CpuId>, cpus: set<CpuId>, disabled: int, stopErr: Status): BatchStage
  {
    if CpusDownCheck(online, cpus, disabled) != 0 then BatchRefused
    else BatchOutcome(c, cpus * online, stopErr)
  }

  /** Where a `cpus_down` on `dest` stops once its checks have passed. */
  function BatchOutcome(c: Chain, dest: set<CpuId>, stopErr: Status): BatchStage
  {
    var v := VetoFrom(c, dest, 0);
    if v < NR_CPUS then
      var rs := DownAnswers(c, v, false);
      BatchVetoed(v, ChainErr(rs), FirstVeto(rs))
    else if stopErr != 0 then BatchStopFailed(stopErr)
    else BatchDown
  }

  /** The value `cpus_down` returns. */
  function CpusDownErr(s: BatchStage): (err: Status)
    ensures err == 0 <==> s == BatchDown
  {
    match s
    case BatchRefused => -EBUSY
    case BatchVetoed(_, e, _) => e
    case BatchStopFailed(e) => e
    case BatchDown => 0
  }

  /** The online mask after `cpus_down`: the target leaves it only when the
      whole batch went down. */
  function CpusDownOnline(online: set<CpuId>, dest: set<CpuId>, s: BatchStage): set<CpuId>
  {
    if s == BatchDown then online - dest else online
  }

  /** The effects of `cpus_down` up to and including stop_machine. */
  function BatchStopPrefix(c: Chain, dest: set<CpuId>): seq<Event>
  {
    PerCpu(c, dest, Prepare, NR_CPUS)
    + Calls(Msg(DownLatePrepare, false), 0, c.size)
    + PerCpu(c, dest, Park, NR_CPUS)
    + [IrqLocked, StopMachine(dest)]
  }

  /** The effects of `cpus_down`, in order. `unlockOnStopFailure` says
      whether the stop_machine failure path releases the sparse-irq lock:
      the code does not (see `CpusDownEventsAsWritten`); the model uses the
      corrected path (`CpusDownEvents`). */
  function CpusDownTrace(c: Chain, online: set<CpuId>, dest: set<CpuId>, s: BatchStage,
                         unlockOnStopFailure: bool): seq<Event>
  {
    match s
    case BatchRefused => []
    case BatchVetoed(v, _, k) =>
      PerCpu(c, dest, Prepare, v)
      + [IdleDisabled(v)] + Calls(Msg(DownPrepare, false), v, k + 1)
      + PerCpu(c, dest, Rollback, v)
      + [IdleEnabled(v)] + Calls(Msg(DownFailed, false), v, k)
    case BatchStopFailed(_) =>
      BatchStopPrefix(c, dest)
      + PerCpu(c, dest, Unpark, NR_CPUS)
      + (if unlockOnStopFailure then [IrqUnlocked] else [])
    case BatchDown =>
      BatchStopPrefix(c, dest)
      + [IrqUnlocked]
      + PerCpu(c, dest, Die, NR_CPUS)
      + [SetNotified(CpusDownComplete, online - dest)]
      + PerCpu(c, dest, DeadNotice, NR_CPUS)
      + PerCpu(c, dest, PostDeadNotice, NR_CPUS)
  }

  /** The effects of `cpus_down` as the code is written. */
  function CpusDownEventsAsWritten(c: Chain, online: set<CpuId>, dest: set<CpuId>, s: BatchStage): seq<Event>
  {
    CpusDownTrace(c, online, dest, s, false)
  }

  /** The effects of `cpus_down` with the sparse-irq lock released on the
      stop_machine failure path, as on every other path. */
  function CpusDownEvents(c: Chain, online: set<CpuId>, dest: set<CpuId>, s: BatchStage): seq<Event>
  {
    CpusDownTrace(c, online, dest, s, true)
  }

  /** The effects of the rollback loop of `cpus_down` over the CPUs below
      `i`, after DOWN_PREPARE about `v` was refused by subscriber `k`: the
      CPUs of the target before `v` get DOWN_FAILED from every subscriber,
      `v` itself from the first `k`. */
  function RollbackUpTo(c: Chain, dest: set<CpuId>, v: CpuId, k: nat, i: nat): seq<Event>
    requires i <= NR_CPUS
  {
    if i <= v then PerCpu(c, dest, Rollback, i)
    else PerCpu(c, dest, Rollback, v) + [IdleEnabled(v)] + Calls(Msg(DownFailed, false), v, k)
  }

  /** One more round of the rollback loop: a CPU of the target before `v`
      is rolled back in full, `v` for its first `k` subscribers, any other
      CPU not at all. */
  lemma {:induction false} RollbackStep(c: Chain, dest: set<CpuId>, v: CpuId, k: nat, i: nat, t0: seq<Event>)
    requires i < NR_CPUS
    ensures i < v ==>
      t0 + RollbackUpTo(c, dest, v, k, i) + (if i in dest then BlockEvents(c, Rollback, i) else [])
      == t0 + RollbackUpTo(c, dest, v, k, i + 1)
    ensures i == v ==>
      t0 + RollbackUpTo(c, dest, v, k, i) + [IdleEnabled(v)] + Calls(Msg(DownFailed, false), v, k)
      == t0 + RollbackUpTo(c, dest, v, k, i + 1)
    ensures i > v ==> RollbackUpTo(c, dest, v, k, i + 1) == RollbackUpTo(c, dest, v, k, i)
  {
    if i < v {
      PerCpuAppend(c, dest, Rollback, i, t0);
    }
  }

  /** The effects of a vetoed `cpus_down`, assembled from its loops. */
  lemma {:induction false} CpusDownVetoedAppend(c: Chain, online: set<CpuId>, dest: set<CpuId>, v: CpuId, e: ErrorCode, k: nat,
                                                t0: seq<Event>)
    ensures t0 + PerCpu(c, dest, Prepare, v) + [IdleDisabled(v)] + Calls(Msg(DownPrepare, false), v, k + 1)
           + RollbackUpTo(c, dest, v, k, NR_CPUS)
         == t0 + CpusDownEvents(c, online, dest, BatchVetoed(v, e, k))
  {
  }

  /** The effects of `cpus_down` from CPU_DOWN_LATE_PREPARE to the end of
      the CPU_DEAD loop, or to the end of the stop_machine failure path. */
  function BatchAfterPrepare(c: Chain, online: set<CpuId>, dest: set<CpuId>, stopErr: Status): seq<Event>
  {
    Calls(Msg(DownLatePrepare, false), 0, c.size) + PerCpu(c, dest, Park, NR_CPUS) + [IrqLocked, StopMachine(dest)]
    + (if stopErr != 0 then PerCpu(c, dest, Unpark, NR_CPUS) + [IrqUnlocked]
       else [IrqUnlocked] + PerCpu(c, dest, Die, NR_CPUS) + [SetNotified(CpusDownComplete, online - dest)]
            + PerCpu(c, dest, DeadNotice, NR_CPUS))
  }

  lemma {:induction false} Assoc3(a: seq<Event>, b: seq<Event>, c: seq<Event>)
    ensures a + b + c == a + (b + c)
  {
  }

  lemma {:induction false} Assoc5(a: seq<Event>, b: seq<Event>, c: seq<Event>, d: seq<Event>, e: seq<Event>)
    ensures a + b + c + d + e == a + (b + c + d + e)
  {
  }

  /** The effects of `cpus_down` from CPU_DOWN_LATE_PREPARE on, assembled
      from its steps. */
  lemma {:induction false} AfterPrepareAppend(c: Chain, online: set<CpuId>, dest: set<CpuId>, stopErr: Status,
                                              t0: seq<Event>, x: seq<Event>)
    requires x == if stopErr != 0 then PerCpu(c, dest, Unpark, NR_CPUS) + [IrqUnlocked]
                  else [IrqUnlocked] + PerCpu(c, dest, Die, NR_CPUS) + [SetNotified(CpusDownComplete, online - dest)]
                       + PerCpu(c, dest, DeadNotice, NR_CPUS)
    ensures t0 + Calls(Msg(DownLatePrepare, false), 0, c.size) + PerCpu(c, dest, Park, NR_CPUS)
            + [IrqLocked, StopMachine(dest)] + x
         == t0 + BatchAfterPrepare(c, online, dest, stopErr)
  {
    var l := Calls(Msg(DownLatePrepare, false), 0, c.size);
    var k := PerCpu(c, dest, Park, NR_CPUS);
    var t := [IrqLocked, StopMachine(dest)];
    assert BatchAfterPrepare(c, online, dest, stopErr) == l + k + t + x;
    Assoc3(t0, l, k);
    Assoc3(t0, l + k, t);
    Assoc3(t0, l + k + t, x);
  }

  /** The effects of a `cpus_down` nobody vetoed, assembled from its loops. */
  lemma {:induction false} CpusDownTakenAppend(c: Chain, online: set<CpuId>, dest: set<CpuId>, stopErr: Status, t0: seq<Event>)
    ensures t0 + PerCpu(c, dest, Prepare, NR_CPUS) + BatchAfterPrepare(c, online, dest, stopErr)
           + (if stopErr == 0 then PerCpu(c, dest, PostDeadNotice, NR_CPUS) else [])
         == t0 + CpusDownEvents(c, online, dest, if stopErr != 0 then BatchStopFailed(stopErr) else BatchDown)
  {
    var p := PerCpu(c, dest, Prepare, NR_CPUS);
    var l := Calls(Msg(DownLatePrepare, false), 0, c.size);
    var k := PerCpu(c, dest, Park, NR_CPUS);
    var t := [IrqLocked, StopMachine(dest)];
    assert BatchStopPrefix(c, dest) == p + l + k + t;
    if stopErr != 0 {
      var u := PerCpu(c, dest, Unpark, NR_CPUS);
      assert BatchAfterPrepare(c, online, dest, stopErr) == l + k + t + (u + [IrqUnlocked]);
      assert CpusDownEvents(c, online, dest, BatchStopFailed(stopErr)) == p + l + k + t + u + [IrqUnlocked];
    } else {
      var d, n, q := PerCpu(c, dest, Die, NR_CPUS), PerCpu(c, dest, DeadNotice, NR_CPUS), PerCpu(c, dest, PostDeadNotice, NR_CPUS);
      var note := [SetNotified(CpusDownComplete, online - dest)];
      assert BatchAfterPrepare(c, online, dest, stopErr) == l + k + t + ([IrqUnlocked] + d + note + n);
      assert CpusDownEvents(c, online, dest, BatchDown) == p + l + k + t + [IrqUnlocked] + d + note + n + q;
    }
  }

  /** `cpus_down` succeeds exactly when its checks pass, nobody refuses
      DOWN_PREPARE about any CPU of the target, and stop_machine succeeds;
      then the whole target, and only it, leaves the online mask, and at
      least one CPU stays online. */
  lemma {:induction false} CpusDownSucceedsIff(c: Chain, online: set<CpuId>, cpus: set<CpuId>, disabled: int, stopErr: Status)
    ensures var s := CpusDownStage(c, online, cpus, disabled, stopErr);
      CpusDownErr(s) == 0 <==>
        CpusDownCheck(online, cpus, disabled) == 0
        && (forall x :: x in cpus * online ==> !DownVetoes(c, x))
        && stopErr == 0
    ensures var s := CpusDownStage(c, online, cpus, disabled, stopErr);
      CpusDownErr(s) == 0 ==>
        cpus * online != {}
        && CpusDownOnline(online, cpus * online, s) == online - cpus
        && CpusDownOnline(online, cpus * online, s) != {}
    ensures var s := CpusDownStage(c, online, cpus, disabled, stopErr);
      CpusDownErr(s) != 0 ==> CpusDownOnline(online, cpus * online, s) == online
  {
    var s := CpusDownStage(c, online, cpus, disabled, stopErr);
    if CpusDownCheck(online, cpus, disabled) == 0 {
      CpusDownCheckLeavesOne(online, cpus, disabled);
      var v := VetoFrom(c, cpus * online, 0);
      if v < NR_CPUS {
        assert v in cpus * online && DownVetoes(c, v);
      }
    }
  }

  /** The subscribers a trace of shape p, e1, q, r, e2, s calls about `cpu`
      with `m`, when e1 and e2 are not subscriber calls. */
  lemma {:induction false} CalledAround(p: seq<Event>, e1: Event, q: seq<Event>, r: seq<Event>, e2: Event, s: seq<Event>, m: Msg, cpu: CpuId)
    requires !e1.Notified? && !e2.Notified?
    ensures Called(p + [e1] + q + r + [e2] + s, m, cpu)
         == Called(p, m, cpu) + Called(q, m, cpu) + Called(r, m, cpu) + Called(s, m, cpu)
  {
    CalledSkip(p + [e1] + q + r, e2, s, m, cpu);
    CalledAppend(p + [e1] + q, r, m, cpu);
    CalledSkip(p, e1, q, m, cpu);
  }

  /** An effect that is not a subscriber call adds nobody. */
  lemma {:induction false} CalledSkip(p: seq<Event>, e: Event, q: seq<Event>, m: Msg, cpu: CpuId)
    requires !e.Notified?
    ensures Called(p + [e] + q, m, cpu) == Called(p, m, cpu) + Called(q, m, cpu)
  {
    CalledAppend(p + [e], q, m, cpu);
    CalledAppend(p, [e], m, cpu);
    CalledUnrelated([e], m, cpu);
  }

  /** Who gets DOWN_PREPARE, and who DOWN_FAILED, when the chain refuses
      DOWN_PREPARE about `v` after `k` subscribers accepted. */
  lemma {:induction false} VetoedCalls(c: Chain, online: set<CpuId>, dest: set<CpuId>, v: CpuId, e: ErrorCode, k: nat, y: CpuId)
    ensures var es := CpusDownEvents(c, online, dest, BatchVetoed(v, e, k));
      Called(es, Msg(DownPrepare, false), y)
        == (if y in dest && y < v then Range(c.size) else if y == v then Range(k + 1) else [])
      && Called(es, Msg(DownFailed, false), y)
        == (if y in dest && y < v then Range(c.size) else if y == v then Range(k) else [])
  {
    VetoedCalledMsg(c, online, dest, v, e, k, y, Msg(DownPrepare, false));
    VetoedCalledMsg(c, online, dest, v, e, k, y, Msg(DownFailed, false));
  }

  lemma {:induction false} VetoedCalledMsg(c: Chain, online: set<CpuId>, dest: set<CpuId>, v: CpuId, e: ErrorCode, k: nat,
                                           y: CpuId, m: Msg)
    requires m == Msg(DownPrepare, false) || m == Msg(DownFailed, false)
    ensures Called(CpusDownEvents(c, online, dest, BatchVetoed(v, e, k)), m, y)
         == (if y in dest && y < v then Range(c.size)
             else if y == v then (if m == Msg(DownPrepare, false) then Range(k + 1) else Range(k))
             else [])
  {
    var mp, mf := Msg(DownPrepare, false), Msg(DownFailed, false);
    var a, b := PerCpu(c, dest, Prepare, v), PerCpu(c, dest, Rollback, v);
    var cp, cf := Calls(mp, v, k + 1), Calls(mf, v, k);
    assert CpusDownEvents(c, online, dest, BatchVetoed(v, e, k))
        == a + [IdleDisabled(v)] + cp + b + [IdleEnabled(v)] + cf;
    CalledAround(a, IdleDisabled(v), cp, b, IdleEnabled(v), cf, m, y);
    VetoedPieces(c, dest, v, k, m, y);
  }

  /** The subscribers each piece of a vetoed `cpus_down` trace calls. */
  lemma {:induction false} VetoedPieces(c: Chain, dest: set<CpuId>, v: CpuId, k: nat, m: Msg, y: CpuId)
    requires m == Msg(DownPrepare, false) || m == Msg(DownFailed, false)
    ensures var mp, mf := Msg(DownPrepare, false), Msg(DownFailed, false);
      Called(PerCpu(c, dest, Prepare, v), m, y) == (if y in dest && y < v && m == mp then Range(c.size) else [])
      && Called(PerCpu(c, dest, Rollback, v), m, y) == (if y in dest && y < v && m == mf then Range(c.size) else [])
      && Called(Calls(mp, v, k + 1), m, y) == (if y == v && m == mp then Range(k + 1) else [])
      && Called(Calls(mf, v, k), m, y) == (if y == v && m == mf then Range(k) else [])
  {
    var mp, mf := Msg(DownPrepare, false), Msg(DownFailed, false);
    CalledPerCpu(c, dest, Prepare, v, m, y);
    CalledPerCpu(c, dest, Rollback, v, m, y);
    if y == v && m == mp { CalledCalls(mp, v, k + 1); } else { CalledUnrelated(Calls(mp, v, k + 1), m, y); }
    if y == v && m == mf { CalledCalls(mf, v, k); } else { CalledUnrelated(Calls(mf, v, k), m, y); }
  }

  /** On a DOWN_PREPARE veto about CPU `v`, the CPUs of the target before
      `v` are rolled back in full (every subscriber gets DOWN_FAILED), `v`
      itself only for the subscribers that accepted it, and the CPUs after
      `v` were never asked; the online mask is untouched. */
  lemma {:induction false} CpusDownVetoRollback(c: Chain, online: set<CpuId>, cpus: set<CpuId>, disabled: int, stopErr: Status, y: CpuId)
    requires CpusDownStage(c, online, cpus, disabled, stopErr).BatchVetoed?
    ensures var s := CpusDownStage(c, online, cpus, disabled, stopErr);
      var dest := cpus * online;
      var es := CpusDownEvents(c, online, dest, s);
      var rs := DownAnswers(c, s.cpu, false);
      s.cpu in dest
      && s.accepted + 1 == NrCalls(rs) && rs[s.accepted] == Veto(s.err)
      && Called(es, Msg(DownPrepare, false), y)
         == (if y in dest && y < s.cpu then Range(c.size) else if y == s.cpu then Range(s.accepted + 1) else [])
      && Called(es, Msg(DownFailed, false), y)
         == (if y in dest && y < s.cpu then Range(c.size) else if y == s.cpu then Range(s.accepted) else [])
      && CpusDownOnline(online, dest, s) == online
  {
    var s := CpusDownStage(c, online, cpus, disabled, stopErr);
    VetoedCallReachesVetoer(DownAnswers(c, s.cpu, false));
    VetoedCalls(c, online, cpus * online, s.cpu, s.err, s.accepted, y);
  }

  /** A `cpus_down` that succeeds sends CPU_DEAD and then CPU_POST_DEAD
      about each CPU of the target to every subscriber, and about no other
      CPU. */
  lemma {:induction false} CpusDownNotifiesDead(c: Chain, online: set<CpuId>, cpus: set<CpuId>, disabled: int, stopErr: Status, y: CpuId)
    requires CpusDownStage(c, online, cpus, disabled, stopErr) == BatchDown
    ensures var dest := cpus * online;
      var es := CpusDownEvents(c, online, dest, BatchDown);
      Called(es, Msg(Dead, false), y) == (if y in dest then Range(c.size) else [])
      && Called(es, Msg(PostDead, false), y) == (if y in dest then Range(c.size) else [])
  {
    DownCalls(c, online, cpus * online, Msg(Dead, false), y);
    DownCalls(c, online, cpus * online, Msg(PostDead, false), y);
  }

  /** The effects of a successful `cpus_down` before the CPU_DEAD loop. */
  function DownHead(c: Chain, online: set<CpuId>, dest: set<CpuId>): seq<Event>
  {
    BatchStopPrefix(c, dest) + [IrqUnlocked] + PerCpu(c, dest, Die, NR_CPUS)
    + [SetNotified(CpusDownComplete, online - dest)]
  }

  lemma {:induction false} DownHeadNoDeadCalls(c: Chain, online: set<CpuId>, dest: set<CpuId>, m: Msg, y: CpuId)
    requires m == Msg(Dead, false) || m == Msg(PostDead, false)
    ensures Called(DownHead(c, online, dest), m, y) == []
  {
    var a, b := BatchStopPrefix(c, dest), PerCpu(c, dest, Die, NR_CPUS);
    var note := SetNotified(CpusDownComplete, online - dest);
    assert Called(a + [IrqUnlocked] + b, m, y) == [] by {
      CalledSkip(a, IrqUnlocked, b, m, y);
      CalledPerCpu(c, dest, Die, NR_CPUS, m, y);
      StopPrefixNoDeadCalls(c, dest, m, y);
    }
    CalledAppend(a + [IrqUnlocked] + b, [note], m, y);
    CalledUnrelated([note], m, y);
  }

  lemma {:induction false} DownCalls(c: Chain, online: set<CpuId>, dest: set<CpuId>, m: Msg, y: CpuId)
    requires m == Msg(Dead, false) || m == Msg(PostDead, false)
    ensures Called(CpusDownEvents(c, online, dest, BatchDown), m, y) == (if y in dest then Range(c.size) else [])
  {
    var x := DownHead(c, online, dest);
    var d, p := PerCpu(c, dest, DeadNotice, NR_CPUS), PerCpu(c, dest, PostDeadNotice, NR_CPUS);
    DownPieces(c, online, dest, m, y);
    CalledSum(CpusDownEvents(c, online, dest, BatchDown), x, d, p, m, y, if y in dest then Range(c.size) else []);
  }

  /** The pieces of a successful `cpus_down` trace: before the CPU_DEAD
      loop nobody gets CPU_DEAD or CPU_POST_DEAD; the two loops call every
      subscriber about each CPU of the target, one message each. */
  lemma {:induction false} DownPieces(c: Chain, online: set<CpuId>, dest: set<CpuId>, m: Msg, y: CpuId)
    requires m == Msg(Dead, false) || m == Msg(PostDead, false)
    ensures CpusDownEvents(c, online, dest, BatchDown)
         == DownHead(c, online, dest) + PerCpu(c, dest, DeadNotice, NR_CPUS) + PerCpu(c, dest, PostDeadNotice, NR_CPUS)
    ensures Called(DownHead(c, online, dest), m, y) == []
    ensures Called(PerCpu(c, dest, DeadNotice, NR_CPUS), m, y) + Called(PerCpu(c, dest, PostDeadNotice, NR_CPUS), m, y)
         == if y in dest then Range(c.size) else []
  {
    DownHeadNoDeadCalls(c, online, dest, m, y);
    CalledPerCpu(c, dest, DeadNotice, NR_CPUS, m, y);
    CalledPerCpu(c, dest, PostDeadNotice, NR_CPUS, m, y);
  }

  lemma {:induction false} CalledSum(es: seq<Event>, x: seq<Event>, d: seq<Event>, p: seq<Event>, m: Msg, y: CpuId, r: seq<nat>)
    requires es == x + d + p
    requires Called(x, m, y) == [] && Called(d, m, y) + Called(p, m, y) == r
    ensures Called(es, m, y) == r
  {
    CalledThree(x, d, p, m, y);
  }

  lemma {:induction false} StopPrefixNoDeadCalls(c: Chain, dest: set<CpuId>, m: Msg, y: CpuId)
    requires m == Msg(Dead, false) || m == Msg(PostDead, false)
    ensures Called(BatchStopPrefix(c, dest), m, y) == []
  {
    var a, l, b := PerCpu(c, dest, Prepare, NR_CPUS), Calls(Msg(DownLatePrepare, false), 0, c.size), PerCpu(c, dest, Park, NR_CPUS);
    var t := [IrqLocked, StopMachine(dest)];
    assert Called(a, m, y) == [] by { CalledPerCpu(c, dest, Prepare, NR_CPUS, m, y); }
    assert Called(l, m, y) == [] by { CalledUnrelated(l, m, y); }
    assert Called(b, m, y) == [] by { CalledPerCpu(c, dest, Park, NR_CPUS, m, y); }
    assert Called(t, m, y) == [] by { CalledUnrelated(t, m, y); }
    assert Called(a + l, m, y) == [] by { CalledAppend(a, l, m, y); }
    assert Called(a + l + b, m, y) == [] by { CalledAppend(a + l, b, m, y); }
    CalledAppend(a + l + b, t, m, y);
  }

  /** The effects up to stop_machine leave the sparse-irq lock held. */
  lemma {:induction false} StopPrefixHoldsIrqLock(c: Chain, dest: set<CpuId>)
    ensures IrqHeldAfter(false, BatchStopPrefix(c, dest))
  {
    var pre := PerCpu(c, dest, Prepare, NR_CPUS) + Calls(Msg(DownLatePrepare, false), 0, c.size)
      + PerCpu(c, dest, Park, NR_CPUS);
    IrqHeldAppend(false, pre + [IrqLocked], [StopMachine(dest)]);
    IrqHeldAppend(false, pre, [IrqLocked]);
    assert [StopMachine(dest)][1..] == [];
    assert pre + [IrqLocked] + [StopMachine(dest)] == BatchStopPrefix(c, dest);
  }

  /** As written, a `cpus_down` whose stop_machine fails returns with the
      sparse-irq lock still held: the failure path unparks the threads and
      sends DOWN_FAILED but never calls irq_unlock_sparse. */
  lemma {:induction false} StopFailureLeaksIrqLock(c: Chain, online: set<CpuId>, cpus: set<CpuId>, disabled: int, stopErr: Status)
    requires CpusDownStage(c, online, cpus, disabled, stopErr).BatchStopFailed?
    ensures IrqHeldAfter(false, CpusDownEventsAsWritten(c, online, cpus * online, CpusDownStage(c, online, cpus, disabled, stopErr)))
  {
    var dest := cpus * online;
    var u := PerCpu(c, dest, Unpark, NR_CPUS);
    assert CpusDownEventsAsWritten(c, online, dest, CpusDownStage(c, online, cpus, disabled, stopErr))
      == BatchStopPrefix(c, dest) + u;
    IrqHeldAppend(false, BatchStopPrefix(c, dest), u);
    StopPrefixHoldsIrqLock(c, dest);
    PerCpuNoIrq(c, dest, Unpark, NR_CPUS);
    IrqHeldUnchanged(true, u);
  }

  /** A concrete instance: CPUs 0 and 1 online, `cpus_down({1})` with an
      empty chain and an open gate, and stop_machine fails with -EBUSY. */
  lemma {:induction false} StopFailureLeakExample()
    ensures var c := Chain(0, (m: Msg, x: CpuId, i: nat) => Accept);
      var s := CpusDownStage(c, {0, 1}, {1}, 0, -EBUSY);
      s == BatchStopFailed(-EBUSY)
      && IrqHeldAfter(false, CpusDownEventsAsWritten(c, {0, 1}, {1} * {0, 1}, s))
  {
    var c := Chain(0, (m: Msg, x: CpuId, i: nat) => Accept);
    var online, cpus: set<CpuId> := {0, 1}, {1};
    assert cpus * online == {1};
    assert |online| == 2;
    assert CpusDownCheck(online, cpus, 0) == 0;
    assert VetoFrom(c, cpus * online, 0) == NR_CPUS;
    StopFailureLeaksIrqLock(c, online, cpus, 0, -EBUSY);
  }

  /** With the unlock added to the failure path, every `cpus_down` returns
      with the sparse-irq lock released. */
  lemma {:induction false} CpusDownReleasesIrqLock(c: Chain, online: set<CpuId>, dest: set<CpuId>, s: BatchStage)
    ensures !IrqHeldAfter(false, CpusDownEvents(c, online, dest, s))
  {
    match s
    case BatchRefused =>
    case BatchVetoed(v, e, k) =>
      VetoedKeepsIrqLock(c, online, dest, v, e, k);
    case BatchStopFailed(e) =>
      StopFailedReleases(c, online, dest, e);
    case BatchDown =>
      BatchDownReleases(c, online, dest);
  }

  lemma {:induction false} VetoedKeepsIrqLock(c: Chain, online: set<CpuId>, dest: set<CpuId>, v: CpuId, e: ErrorCode, k: nat)
    ensures !IrqHeldAfter(false, CpusDownEvents(c, online, dest, BatchVetoed(v, e, k)))
  {
    var a, b := PerCpu(c, dest, Prepare, v), PerCpu(c, dest, Rollback, v);
    var cp, cf := Calls(Msg(DownPrepare, false), v, k + 1), Calls(Msg(DownFailed, false), v, k);
    PerCpuNoIrq(c, dest, Prepare, v);
    PerCpuNoIrq(c, dest, Rollback, v);
    var es := a + [IdleDisabled(v)] + cp + b + [IdleEnabled(v)] + cf;
    assert CpusDownEvents(c, online, dest, BatchVetoed(v, e, k)) == es;
    assert NoIrq(es) by {
      NoIrqAppend(a, [IdleDisabled(v)]);
      NoIrqAppend(a + [IdleDisabled(v)], cp);
      NoIrqAppend(a + [IdleDisabled(v)] + cp, b);
      NoIrqAppend(a + [IdleDisabled(v)] + cp + b, [IdleEnabled(v)]);
      NoIrqAppend(a + [IdleDisabled(v)] + cp + b + [IdleEnabled(v)], cf);
    }
    IrqHeldUnchanged(false, es);
  }

  lemma {:induction false} StopFailedReleases(c: Chain, online: set<CpuId>, dest: set<CpuId>, e: ErrorCode)
    ensures !IrqHeldAfter(false, CpusDownEvents(c, online, dest, BatchStopFailed(e)))
  {
    var u := PerCpu(c, dest, Unpark, NR_CPUS);
    assert CpusDownEvents(c, online, dest, BatchStopFailed(e)) == BatchStopPrefix(c, dest) + u + [IrqUnlocked] + [];
    UnlockThenQuiet(false, BatchStopPrefix(c, dest) + u, []);
  }

  lemma {:induction false} BatchDownReleases(c: Chain, online: set<CpuId>, dest: set<CpuId>)
    ensures !IrqHeldAfter(false, CpusDownEvents(c, online, dest, BatchDown))
  {
    var d := PerCpu(c, dest, Die, NR_CPUS);
    var n := PerCpu(c, dest, DeadNotice, NR_CPUS);
    var p := PerCpu(c, dest, PostDeadNotice, NR_CPUS);
    var note := [SetNotified(CpusDownComplete, online - dest)];
    var post := d + note + n + p;
    assert NoIrq(post) by {
      PerCpuNoIrq(c, dest, Die, NR_CPUS);
      PerCpuNoIrq(c, dest, DeadNotice, NR_CPUS);
      PerCpuNoIrq(c, dest, PostDeadNotice, NR_CPUS);
      NoIrqAppend(d, note);
      NoIrqAppend(d + note, n);
      NoIrqAppend(d + note + n, p);
    }
    var pre := BatchStopPrefix(c, dest);
    assert CpusDownEvents(c, online, dest, BatchDown) == pre + [IrqUnlocked] + post;
    UnlockThenQuiet(false, pre, post);
  }
}
