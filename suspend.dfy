/** Suspend and resume (kernel/cpu.c:1130-1220): `disable_nonboot_cpus`
    takes every online CPU but the first down, one `_cpu_down` at a time with
    CPU_TASKS_FROZEN, records in `frozen_cpus` those that went down, and
    closes the hotplug gate whatever happened; `enable_nonboot_cpus` opens
    the gate and brings the recorded CPUs back, ignoring errors. */
module Suspend {
  import opened HotplugTypes
  import opened Notifier
  import opened Pin
  import opened Phases

  /* ---------------- cpumask_first ---------------- */

  /** The lowest CPU of `m` at or above `i`, or NR_CPUS when there is none. */
  function FirstFrom(m: set<CpuId>, i: nat): (first: nat)
    requires i <= NR_CPUS
    ensures i <= first <= NR_CPUS
    ensures first < NR_CPUS ==> first in m
    ensures forall x :: x in m && i <= x ==> first <= x
    decreases m, NR_CPUS - i
  {
    if i == NR_CPUS then NR_CPUS
    else if i in m then i
    else FirstFrom(m, i + 1)
  }

  /** `cpumask_first(m)`: the lowest CPU of `m`, or NR_CPUS when `m` is
      empty. */
  function FirstCpu(m: set<CpuId>): (first: nat)
    ensures first <= NR_CPUS
    ensures first < NR_CPUS <==> m != {}
    ensures first < NR_CPUS ==> first in m && forall x :: x in m ==> first <= x
  {
    var first := FirstFrom(m, 0);
    assert m != {} ==> first < NR_CPUS by {
      if m != {} {
        var x :| x in m;
      }
    }
    first
  }

  /* ---------------- disable_nonboot_cpus ---------------- */

  /** What a run of `_cpu_down` calls for suspend leaves: the first error,
      the online mask, `frozen_cpus`, the CPUs' `hotplug_pcp` descriptors
      and the effects. */
  datatype Suspended = Suspended(err: Status, online: set<CpuId>, frozen: set<CpuId>,
                                 pcps: seq<PcpState>, events: seq<Event>)

  /** A run preceded by effects already caused. */
  function SuspendStitch(done: seq<Event>, r: Suspended): Suspended
  {
    r.(events := done + r.events)
  }

  /** Where `_cpu_down(cpu, 1)` stops, from a given online mask. */
  type DownFn = (set<CpuId>, CpuId) -> DownStage

  /** `_cpu_down` with CPU_TASKS_FROZEN, with the outcomes `envs` of its
      opaque steps. */
  function SuspendDown(c: Chain, envs: CpuId -> DownEnv): DownFn
  {
    (online: set<CpuId>, cpu: CpuId) => DownStageOf(c, online, cpu, true, envs(cpu))
  }

  /** The loop of `disable_nonboot_cpus` from CPU `i` on: every CPU still
      online except `first` is taken down (`down` says how far each
      `_cpu_down` gets); one that goes down joins `frozen`, and the first
      error ends the loop. */
  function DisableFrom(c: Chain, envs: CpuId -> DownEnv, down: DownFn, first: nat, online: set<CpuId>,
                       frozen: set<CpuId>, pcps: seq<PcpState>, i: nat): Suspended
    requires i <= NR_CPUS && |pcps| == NR_CPUS
    // `first` never changes; it leads the measure so that a call with a
    // literal index is not unfolded all the way to NR_CPUS.
    decreases first, NR_CPUS - i
  {
    if i == NR_CPUS then Suspended(0, online, frozen, pcps, [])
    else if i !in online || i == first then DisableFrom(c, envs, down, first, online, frozen, pcps, i + 1)
    else
      var s := down(online, i);
      var pcps' := pcps[i := PcpAfterDown(pcps[i], s, envs(i).helper)];
      if DownErr(s) != 0 then Suspended(DownErr(s), online, frozen, pcps', DownEvents(c, i, true, s))
      else SuspendStitch(DownEvents(c, i, true, s), DisableFrom(c, envs, down, first, online - {i}, frozen + {i}, pcps', i + 1))
  }

  /** `disable_nonboot_cpus`: perf interrupts are moved off the CPUs, the
      first online CPU is kept and `frozen_cpus` starts empty. */
  function DisableNonboot(c: Chain, envs: CpuId -> DownEnv, online: set<CpuId>, pcps: seq<PcpState>): Suspended
    requires |pcps| == NR_CPUS
  {
    SuspendStitch([PerfIrqsUnaffined], DisableFrom(c, envs, SuspendDown(c, envs), FirstCpu(online), online, {}, pcps, 0))
  }

  /** One `_cpu_down` of the loop, on a CPU that is online and not `first`. */
  lemma {:induction false} DisableFromUnfold(c: Chain, envs: CpuId -> DownEnv, down: DownFn, first: nat, online: set<CpuId>,
                                             frozen: set<CpuId>, pcps: seq<PcpState>, i: CpuId)
    requires |pcps| == NR_CPUS && i in online && i != first
    ensures var s := down(online, i);
      var pcps' := pcps[i := PcpAfterDown(pcps[i], s, envs(i).helper)];
      var r := DisableFrom(c, envs, down, first, online, frozen, pcps, i);
      (DownErr(s) != 0 ==> r == Suspended(DownErr(s), online, frozen, pcps', DownEvents(c, i, true, s)))
      && (DownErr(s) == 0 ==>
            r == SuspendStitch(DownEvents(c, i, true, s), DisableFrom(c, envs, down, first, online - {i}, frozen + {i}, pcps', i + 1)))
  {
  }

  lemma {:induction false} SuspendPrepend(whole: Suspended, done: seq<Event>, es: seq<Event>, rest: Suspended)
    requires whole == SuspendStitch(done, SuspendStitch(es, rest))
    ensures whole == SuspendStitch(done + es, rest)
  {
    assert done + (es + rest.events) == (done + es) + rest.events;
  }

  /** One `_cpu_down` of the loop, seen from a caller that has already
      caused the effects `done`: given what the call returned, the run still
      to come loses its first step and `done` gains it. */
  lemma {:induction false} DisableStep(c: Chain, envs: CpuId -> DownEnv, down: DownFn, first: nat, online: set<CpuId>,
                                       frozen: set<CpuId>, pcps: seq<PcpState>, i: CpuId, whole: Suspended,
                                       done: seq<Event>, s: DownStage, es: seq<Event>, err: Status,
                                       online': set<CpuId>, pcps': seq<PcpState>)
    requires |pcps| == NR_CPUS && i in online && i != first
    requires whole == SuspendStitch(done, DisableFrom(c, envs, down, first, online, frozen, pcps, i))
    requires s == down(online, i) && es == DownEvents(c, i, true, s)
    requires err == DownErr(s) && online' == DownOnline(online, i, s)
    requires pcps' == pcps[i := PcpAfterDown(pcps[i], s, envs(i).helper)]
    ensures err == 0 ==> whole == SuspendStitch(done + es, DisableFrom(c, envs, down, first, online', frozen + {i}, pcps', i + 1))
    ensures err != 0 ==> whole == Suspended(err, online', frozen, pcps', done + es)
  {
    DisableFromUnfold(c, envs, down, first, online, frozen, pcps, i);
    if err == 0 {
      SuspendPrepend(whole, done, es, DisableFrom(c, envs, down, first, online', frozen + {i}, pcps', i + 1));
    }
  }

  /** The loop only takes CPUs at or above `i` other than `first` offline,
      and exactly those join `frozen`. */
  lemma {:induction false} DisableFromMasks(c: Chain, envs: CpuId -> DownEnv, down: DownFn, first: nat, online: set<CpuId>,
                                            frozen: set<CpuId>, pcps: seq<PcpState>, i: nat)
    requires i <= NR_CPUS && |pcps| == NR_CPUS
    ensures var r := DisableFrom(c, envs, down, first, online, frozen, pcps, i);
      r.online <= online
      && r.frozen == frozen + (online - r.online)
      && (forall x :: x in online && x !in r.online ==> x >= i && x != first)
    decreases NR_CPUS - i
  {
    if i < NR_CPUS {
      if i !in online || i == first {
        DisableFromMasks(c, envs, down, first, online, frozen, pcps, i + 1);
      } else {
        var s := down(online, i);
        var pcps' := pcps[i := PcpAfterDown(pcps[i], s, envs(i).helper)];
        DisableFromUnfold(c, envs, down, first, online, frozen, pcps, i);
        if DownErr(s) == 0 {
          var r' := DisableFrom(c, envs, down, first, online - {i}, frozen + {i}, pcps', i + 1);
          DisableFromMasks(c, envs, down, first, online - {i}, frozen + {i}, pcps', i + 1);
          assert online - r'.online == {i} + ((online - {i}) - r'.online);
        }
      }
    }
  }

  /** The loop ends without error exactly when every CPU at or above `i`
      other than `first` is offline afterwards: after an error the CPU that
      failed is still online. */
  lemma {:induction false} DisableFromErr(c: Chain, envs: CpuId -> DownEnv, down: DownFn, first: nat, online: set<CpuId>,
                                          frozen: set<CpuId>, pcps: seq<PcpState>, i: nat)
    requires i <= NR_CPUS && |pcps| == NR_CPUS
    ensures var r := DisableFrom(c, envs, down, first, online, frozen, pcps, i);
      r.err == 0 <==> (forall x :: x in r.online && x >= i ==> x == first)
  {
    DisableFromDone(c, envs, down, first, online, frozen, pcps, i);
    DisableFromStuck(c, envs, down, first, online, frozen, pcps, i);
  }

  lemma {:induction false} DisableFromDone(c: Chain, envs: CpuId -> DownEnv, down: DownFn, first: nat, online: set<CpuId>,
                                           frozen: set<CpuId>, pcps: seq<PcpState>, i: nat)
    requires i <= NR_CPUS && |pcps| == NR_CPUS
    ensures var r := DisableFrom(c, envs, down, first, online, frozen, pcps, i);
      r.err == 0 ==> forall x :: x in r.online && x >= i ==> x == first
    decreases NR_CPUS - i
  {
    if i < NR_CPUS {
      var r := DisableFrom(c, envs, down, first, online, frozen, pcps, i);
      var online', frozen', pcps' := online, frozen, pcps;
      if i in online && i != first {
        var s := down(online, i);
        online', frozen', pcps' := online - {i}, frozen + {i}, pcps[i := PcpAfterDown(pcps[i], s, envs(i).helper)];
      }
      var rest := DisableFrom(c, envs, down, first, online', frozen', pcps', i + 1);
      if r.err == 0 {
        assert r.online == rest.online && rest.err == 0;
        DisableFromDone(c, envs, down, first, online', frozen', pcps', i + 1);
        DisableFromShrinks(c, envs, down, first, online', frozen', pcps', i + 1);
      }
    }
  }

  lemma {:induction false} DisableFromShrinks(c: Chain, envs: CpuId -> DownEnv, down: DownFn, first: nat, online: set<CpuId>,
                                              frozen: set<CpuId>, pcps: seq<PcpState>, i: nat)
    requires i <= NR_CPUS && |pcps| == NR_CPUS
    ensures DisableFrom(c, envs, down, first, online, frozen, pcps, i).online <= online
    decreases NR_CPUS - i
  {
    if i < NR_CPUS {
      if i !in online || i == first {
        DisableFromShrinks(c, envs, down, first, online, frozen, pcps, i + 1);
      } else {
        var s := down(online, i);
        if DownErr(s) == 0 {
          DisableFromShrinks(c, envs, down, first, online - {i}, frozen + {i},
                             pcps[i := PcpAfterDown(pcps[i], s, envs(i).helper)], i + 1);
        }
      }
    }
  }

  lemma {:induction false} DisableFromStuck(c: Chain, envs: CpuId -> DownEnv, down: DownFn, first: nat, online: set<CpuId>,
                                            frozen: set<CpuId>, pcps: seq<PcpState>, i: nat)
    requires i <= NR_CPUS && |pcps| == NR_CPUS
    ensures var r := DisableFrom(c, envs, down, first, online, frozen, pcps, i);
      r.err != 0 ==> exists x :: x in r.online && x >= i && x != first
    decreases NR_CPUS - i
  {
    if i < NR_CPUS {
      var r := DisableFrom(c, envs, down, first, online, frozen, pcps, i);
      if i !in online || i == first {
        DisableFromStuck(c, envs, down, first, online, frozen, pcps, i + 1);
      } else {
        var s := down(online, i);
        if DownErr(s) == 0 {
          DisableFromStuck(c, envs, down, first, online - {i}, frozen + {i},
                           pcps[i := PcpAfterDown(pcps[i], s, envs(i).helper)], i + 1);
        } else {
          assert i in r.online;
        }
      }
    }
  }

  /** CPUs the loop does not take down keep their descriptors. */
  lemma {:induction false} DisableFromPcps(c: Chain, envs: CpuId -> DownEnv, down: DownFn, first: nat, online: set<CpuId>,
                                           frozen: set<CpuId>, pcps: seq<PcpState>, i: nat)
    requires i <= NR_CPUS && |pcps| == NR_CPUS
    ensures var r := DisableFrom(c, envs, down, first, online, frozen, pcps, i);
      |r.pcps| == NR_CPUS
      && forall x :: 0 <= x < NR_CPUS && (x < i || x == first || x !in online) ==> r.pcps[x] == pcps[x]
    decreases NR_CPUS - i
  {
    if i < NR_CPUS {
      if i !in online || i == first {
        DisableFromPcps(c, envs, down, first, online, frozen, pcps, i + 1);
      } else {
        var s := down(online, i);
        if DownErr(s) == 0 {
          DisableFromPcps(c, envs, down, first, online - {i}, frozen + {i}, pcps[i := PcpAfterDown(pcps[i], s, envs(i).helper)], i + 1);
        }
      }
    }
  }

  /** `disable_nonboot_cpus` keeps the first online CPU online, freezes
      exactly the CPUs it takes offline, and returns 0 exactly when at most
      one CPU is left online: the BUG_ON on a successful return can never
      fire. Perf interrupts are moved off first, whatever follows. */
  lemma {:induction false} DisableNonbootOutcome(c: Chain, envs: CpuId -> DownEnv, online: set<CpuId>, pcps: seq<PcpState>)
    requires |pcps| == NR_CPUS
    ensures var r := DisableNonboot(c, envs, online, pcps);
      r.online <= online
      && r.frozen == online - r.online
      && (online != {} ==> FirstCpu(online) in r.online)
      && (r.err == 0 <==> |r.online| <= 1)
      && |r.events| > 0 && r.events[0] == PerfIrqsUnaffined
  {
    var first := FirstCpu(online);
    var down := SuspendDown(c, envs);
    var r := DisableFrom(c, envs, down, first, online, {}, pcps, 0);
    DisableFromMasks(c, envs, down, first, online, {}, pcps, 0);
    DisableFromErr(c, envs, down, first, online, {}, pcps, 0);
    if r.err == 0 {
      if online != {} {
        assert r.online <= {first};
        SubsetCard(r.online, {first});
      } else {
        assert r.online == {};
      }
    } else {
      var x :| x in r.online && x != first;
      assert first < NR_CPUS;
      assert {x, first} <= r.online;
      assert |{x, first}| == 2;
      SubsetCard({x, first}, r.online);
    }
  }

  /* ---------------- enable_nonboot_cpus ---------------- */

  /** What a run of `_cpu_up` calls for resume leaves. */
  datatype Resumed = Resumed(online: set<CpuId>, active: set<CpuId>, events: seq<Event>)

  function ResumeStitch(done: seq<Event>, r: Resumed): Resumed
  {
    r.(events := done + r.events)
  }

  /** The loop of `enable_nonboot_cpus` from CPU `i` on: `_cpu_up` with
      CPU_TASKS_FROZEN on every CPU of `frozen`; errors are ignored. */
  function EnableFrom(c: Chain, present: set<CpuId>, frozen: set<CpuId>, envs: CpuId -> UpEnv,
                      online: set<CpuId>, active: set<CpuId>, i: nat): Resumed
    requires i <= NR_CPUS
    // `frozen` never changes; it leads the measure so that a call with a
    // literal index is not unfolded all the way to NR_CPUS.
    decreases frozen, NR_CPUS - i
  {
    if i == NR_CPUS then Resumed(online, active, [])
    else if i !in frozen then EnableFrom(c, present, frozen, envs, online, active, i + 1)
    else
      var s := UpStageOf(c, online, present, i, true, envs(i));
      ResumeStitch(UpEvents(c, i, true, s),
                   EnableFrom(c, present, frozen, envs, UpMask(online, i, s), UpMask(active, i, s), i + 1))
  }

  /** `enable_nonboot_cpus`, after the gate is opened: nothing at all when
      `frozen_cpus` is empty; otherwise the CPUs are brought up and perf
      interrupts are put back. */
  function EnableNonboot(c: Chain, present: set<CpuId>, frozen: set<CpuId>, envs: CpuId -> UpEnv,
                         online: set<CpuId>, active: set<CpuId>): Resumed
  {
    if frozen == {} then Resumed(online, active, [])
    else
      var r := EnableFrom(c, present, frozen, envs, online, active, 0);
      r.(events := r.events + [PerfIrqsReaffined])
  }

  lemma {:induction false} EnableFromUnfold(c: Chain, present: set<CpuId>, frozen: set<CpuId>, envs: CpuId -> UpEnv,
                                            online: set<CpuId>, active: set<CpuId>, i: CpuId)
    requires i in frozen
    ensures var s := UpStageOf(c, online, present, i, true, envs(i));
      EnableFrom(c, present, frozen, envs, online, active, i)
      == ResumeStitch(UpEvents(c, i, true, s),
                      EnableFrom(c, present, frozen, envs, UpMask(online, i, s), UpMask(active, i, s), i + 1))
  {
  }

  lemma {:induction false} ResumePrepend(whole: Resumed, done: seq<Event>, es: seq<Event>, rest: Resumed)
    requires whole == ResumeStitch(done, ResumeStitch(es, rest))
    ensures whole == ResumeStitch(done + es, rest)
  {
    assert done + (es + rest.events) == (done + es) + rest.events;
  }

  /** Everything `_cpu_up` needs to bring `cpu` up for resume: it is
      present, the opaque steps succeed and no subscriber vetoes. */
  predicate ResumeSucceeds(c: Chain, present: set<CpuId>, cpu: CpuId, env: UpEnv)
  {
    cpu in present && env.idleErr == 0 && env.threadsErr == 0 && env.archErr == 0
    && forall k :: 0 <= k < c.size ==> c.answer(Msg(UpPrepare, true), cpu, k) == Accept
  }

  /** The loop only brings CPUs of `frozen` at or above `i` online, and
      marks active exactly the CPUs it brings online; when every such CPU is
      offline and can come up, they all do. */
  lemma {:induction false} EnableFromMasks(c: Chain, present: set<CpuId>, frozen: set<CpuId>, envs: CpuId -> UpEnv,
                                           online: set<CpuId>, active: set<CpuId>, i: nat)
    requires i <= NR_CPUS
    ensures var r := EnableFrom(c, present, frozen, envs, online, active, i);
      online <= r.online
      && (forall x :: x in r.online && x !in online ==> x in frozen && x >= i)
      && r.active == active + (r.online - online)
    ensures var r := EnableFrom(c, present, frozen, envs, online, active, i);
      (forall x :: x in frozen && x >= i ==> x !in online && ResumeSucceeds(c, present, x, envs(x)))
      ==> forall x :: x in frozen && x >= i ==> x in r.online
    decreases NR_CPUS - i
  {
    if i < NR_CPUS {
      if i !in frozen {
        EnableFromMasks(c, present, frozen, envs, online, active, i + 1);
      } else {
        var s := UpStageOf(c, online, present, i, true, envs(i));
        UpSucceedsIff(c, online, present, i, true, envs(i));
        EnableFromMasks(c, present, frozen, envs, UpMask(online, i, s), UpMask(active, i, s), i + 1);
      }
    }
  }

  /** `enable_nonboot_cpus` does nothing but open the gate when no CPU was
      frozen, and otherwise ends by putting perf interrupts back. */
  lemma {:induction false} EnableNonbootReaffines(c: Chain, present: set<CpuId>, frozen: set<CpuId>, envs: CpuId -> UpEnv,
                                                  online: set<CpuId>, active: set<CpuId>)
    ensures var r := EnableNonboot(c, present, frozen, envs, online, active);
      (frozen == {} <==> r.events == [])
      && (frozen == {} ==> r.online == online && r.active == active)
      && (frozen != {} ==> r.events[|r.events| - 1] == PerfIrqsReaffined)
  {
  }

  /** A suspend followed by a resume in which every frozen CPU can come up
      again restores the online mask, and the CPUs that come back are marked
      active. */
  lemma {:induction false} SuspendResumeRestoresOnline(c: Chain, denvs: CpuId -> DownEnv, uenvs: CpuId -> UpEnv,
                                                       online: set<CpuId>, active: set<CpuId>, present: set<CpuId>,
                                                       pcps: seq<PcpState>)
    requires |pcps| == NR_CPUS
    requires var d := DisableNonboot(c, denvs, online, pcps);
      forall x :: x in d.frozen ==> ResumeSucceeds(c, present, x, uenvs(x))
    ensures var d := DisableNonboot(c, denvs, online, pcps);
      var r := EnableNonboot(c, present, d.frozen, uenvs, d.online, active);
      r.online == online && r.active == active + d.frozen
  {
    var d := DisableNonboot(c, denvs, online, pcps);
    DisableNonbootOutcome(c, denvs, online, pcps);
    EnableNonbootRestores(c, present, d.frozen, uenvs, d.online, active);
    assert d.online + d.frozen == online;
  }

  /** When every frozen CPU is offline and can come up, the resume brings
      exactly the frozen CPUs online and marks them active. */
  lemma {:induction false} EnableNonbootRestores(c: Chain, present: set<CpuId>, frozen: set<CpuId>, envs: CpuId -> UpEnv,
                                                 online: set<CpuId>, active: set<CpuId>)
    requires frozen !! online
    requires forall x :: x in frozen ==> ResumeSucceeds(c, present, x, envs(x))
    ensures var r := EnableNonboot(c, present, frozen, envs, online, active);
      r.online == online + frozen && r.active == active + frozen
  {
    if frozen != {} {
      var r := EnableFrom(c, present, frozen, envs, online, active, 0);
      EnableFromMasks(c, present, frozen, envs, online, active, 0);
      assert r.online == online + frozen;
    }
  }

  /** When the suspend froze nothing (say the first `_cpu_down` failed),
      perf interrupts were moved off the CPUs but the resume never puts
      them back. */
  lemma {:induction false} NothingFrozenNoReaffine(c: Chain, denvs: CpuId -> DownEnv, uenvs: CpuId -> UpEnv,
                                                   online: set<CpuId>, active: set<CpuId>, present: set<CpuId>,
                                                   pcps: seq<PcpState>)
    requires |pcps| == NR_CPUS
    requires DisableNonboot(c, denvs, online, pcps).frozen == {}
    ensures var d := DisableNonboot(c, denvs, online, pcps);
      PerfIrqsUnaffined in d.events
      && PerfIrqsReaffined !in EnableNonboot(c, present, d.frozen, uenvs, d.online, active).events
  {
    DisableNonbootOutcome(c, denvs, online, pcps);
  }
}
