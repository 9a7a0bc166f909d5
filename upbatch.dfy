/** `cpus_up` (kernel/cpu.c:973-987): `cpu_up` on every CPU of a set that is
    not yet online, in ascending order, stopping at the first error. The set
    of CPUs to bring up is computed once, before the first `cpu_up`. */
module UpBatch {
  import opened HotplugTypes
  import opened Phases
  import opened Policy

  /** The error, the online and active masks and the effects after a run of
      `cpu_up` calls. */
  datatype UpRun = UpRun(err: Status, online: set<CpuId>, active: set<CpuId>, events: seq<Event>)

  /** The masks passed through `cpu_up` unchanged; the gate cannot move while
      the batch runs. */
  datatype UpConfig = UpConfig(possible: set<CpuId>, present: set<CpuId>, early: set<CpuId>, disabled: int)

  /** Where one `cpu_up` stops: a request `cpu_up` itself refuses changes
      nothing, as a refused `_cpu_up` does, and carries the error of the
      check that refused it. */
  function CpuUpStage(c: Chain, g: UpConfig, online: set<CpuId>, cpu: CpuId, env: UpEnv): (s: UpStage)
    ensures UpErr(s) == CpuUpErr(c, g.possible, g.present, online, g.early, g.disabled, cpu, env)
  {
    var a := UpAdmission(g.possible, g.early, env.nodeErr, g.disabled, cpu);
    if a == 0 then UpStageOf(c, online, g.present, cpu, false, env)
    else UpRefused(a)
  }

  /** The `cpu_up` calls of `cpus_up` on the CPUs of `dest` from `i` on. */
  function CpusUpFrom(c: Chain, g: UpConfig, dest: set<CpuId>, envs: CpuId -> UpEnv,
                      online: set<CpuId>, active: set<CpuId>, i: nat): UpRun
    requires i <= NR_CPUS
    // `dest` never changes; it leads the measure so that a call with a
    // literal index is not unfolded all the way to NR_CPUS.
    decreases dest, NR_CPUS - i
  {
    if i == NR_CPUS then UpRun(0, online, active, [])
    else if i !in dest then CpusUpFrom(c, g, dest, envs, online, active, i + 1)
    else
      var s := CpuUpStage(c, g, online, i, envs(i));
      var err := CpuUpErr(c, g.possible, g.present, online, g.early, g.disabled, i, envs(i));
      var online', active' := UpMask(online, i, s), UpMask(active, i, s);
      if err != 0 then UpRun(err, online', active', UpEvents(c, i, false, s))
      else
        var r := CpusUpFrom(c, g, dest, envs, online', active', i + 1);
        r.(events := UpEvents(c, i, false, s) + r.events)
  }

  /** `cpus_up(cpus)` from the given masks. */
  function CpusUpRun(c: Chain, g: UpConfig, cpus: set<CpuId>, envs: CpuId -> UpEnv,
                     online: set<CpuId>, active: set<CpuId>): UpRun
  {
    CpusUpFrom(c, g, cpus - online, envs, online, active, 0)
  }

  /** One step of a run on a CPU of `dest`. */
  lemma {:induction false} CpusUpFromUnfold(c: Chain, g: UpConfig, dest: set<CpuId>, envs: CpuId -> UpEnv,
                                            online: set<CpuId>, active: set<CpuId>, i: CpuId)
    requires i in dest
    ensures var s := CpuUpStage(c, g, online, i, envs(i));
      var err := CpuUpErr(c, g.possible, g.present, online, g.early, g.disabled, i, envs(i));
      var r := CpusUpFrom(c, g, dest, envs, online, active, i);
      var rest := CpusUpFrom(c, g, dest, envs, UpMask(online, i, s), UpMask(active, i, s), i + 1);
      (err != 0 ==> r == UpRun(err, UpMask(online, i, s), UpMask(active, i, s), UpEvents(c, i, false, s)))
      && (err == 0 ==> r == Stitch(UpEvents(c, i, false, s), rest))
  {
  }

  /** A run preceded by effects already caused. */
  function Stitch(done: seq<Event>, r: UpRun): UpRun
  {
    r.(events := done + r.events)
  }

  /** Moving the effects of one `cpu_up` from the rest of a run to the
      effects already caused. */
  lemma {:induction false} PrependStep(whole: UpRun, done: seq<Event>, es: seq<Event>, rest: UpRun)
    requires whole == Stitch(done, Stitch(es, rest))
    ensures whole == Stitch(done + es, rest)
  {
    assert done + (es + rest.events) == (done + es) + rest.events;
  }

  /** One `cpu_up` succeeds exactly when the CPU joins the online mask, and
      then it joins the active mask too; otherwise neither mask moves. */
  lemma {:induction false} CpuUpStep(c: Chain, g: UpConfig, online: set<CpuId>, active: set<CpuId>,
                                     cpu: CpuId, env: UpEnv)
    ensures var s := CpuUpStage(c, g, online, cpu, env);
      var err := CpuUpErr(c, g.possible, g.present, online, g.early, g.disabled, cpu, env);
      (err == 0 <==> s == Up)
      && (err == 0 ==> cpu !in online && UpMask(online, cpu, s) == online + {cpu}
                       && UpMask(active, cpu, s) == active + {cpu})
      && (err != 0 ==> UpMask(online, cpu, s) == online && UpMask(active, cpu, s) == active)
  {
    var s := CpuUpStage(c, g, online, cpu, env);
    UpSucceedsIff(c, online, g.present, cpu, false, env);
    CpuUpRefusals(c, g.possible, g.present, online, g.early, g.disabled, cpu, env);
  }

  /** A run of `cpu_up` calls only adds CPUs of `dest` at or above `i` to
      the online mask, and adds to the active mask exactly the CPUs it adds
      to the online mask. It returns 0 exactly when every such CPU ends up
      online, provided none of them was online to begin with. */
  lemma {:induction false} CpusUpFromMasks(c: Chain, g: UpConfig, dest: set<CpuId>, envs: CpuId -> UpEnv,
                                           online: set<CpuId>, active: set<CpuId>, i: nat)
    requires i <= NR_CPUS
    ensures var r := CpusUpFrom(c, g, dest, envs, online, active, i);
      online <= r.online
      && (forall x :: x in r.online && x !in online ==> x in dest && x >= i)
      && r.active == active + (r.online - online)
    ensures var r := CpusUpFrom(c, g, dest, envs, online, active, i);
      (forall x :: x in dest && x >= i ==> x !in online)
      ==> (r.err == 0 <==> forall x :: x in dest && x >= i ==> x in r.online)
    decreases NR_CPUS - i
  {
    if i < NR_CPUS {
      if i !in dest {
        CpusUpFromMasks(c, g, dest, envs, online, active, i + 1);
      } else {
        var s := CpuUpStage(c, g, online, i, envs(i));
        var err := CpuUpErr(c, g.possible, g.present, online, g.early, g.disabled, i, envs(i));
        CpuUpStep(c, g, online, active, i, envs(i));
        if err == 0 {
          CpusUpFromMasks(c, g, dest, envs, online + {i}, active + {i}, i + 1);
        }
      }
    }
  }

  /** `cpus_up` never takes a CPU offline, brings up only CPUs of `cpus`,
      marks active exactly the CPUs it brings up, and returns 0 exactly when
      every CPU of `cpus` is online afterwards. */
  lemma {:induction false} CpusUpSucceedsIff(c: Chain, g: UpConfig, cpus: set<CpuId>, envs: CpuId -> UpEnv,
                                             online: set<CpuId>, active: set<CpuId>)
    ensures var r := CpusUpRun(c, g, cpus, envs, online, active);
      online <= r.online <= online + cpus
      && r.active == active + (r.online - online)
      && (r.err == 0 <==> cpus <= r.online)
  {
    var r := CpusUpRun(c, g, cpus, envs, online, active);
    CpusUpFromMasks(c, g, cpus - online, envs, online, active, 0);
    if r.err != 0 {
      var x :| x in cpus - online && x !in r.online;
    }
  }

  /** With the gate closed no CPU comes up: every `cpu_up` of the batch is
      refused, the first one stops it, and nobody is notified. */
  lemma {:induction false} CpusUpGateClosed(c: Chain, g: UpConfig, dest: set<CpuId>, envs: CpuId -> UpEnv,
                                            online: set<CpuId>, active: set<CpuId>, i: nat)
    requires i <= NR_CPUS
    requires g.disabled != 0
    ensures var r := CpusUpFrom(c, g, dest, envs, online, active, i);
      r.online == online && r.active == active && r.events == []
      && ((exists x :: x in dest && x >= i) <==> r.err != 0)
    decreases NR_CPUS - i
  {
    if i < NR_CPUS {
      if i !in dest {
        CpusUpGateClosed(c, g, dest, envs, online, active, i + 1);
        var r := CpusUpFrom(c, g, dest, envs, online, active, i + 1);
        if r.err != 0 {
          var x :| x in dest && x >= i + 1;
        }
      } else {
        CpuUpRefusals(c, g.possible, g.present, online, g.early, g.disabled, i, envs(i));
      }
    }
  }
}
