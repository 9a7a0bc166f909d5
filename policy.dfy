/** The checks `cpu_down`, `cpu_up` and `cpus_down` make before they start a
    transition, and the error each of them returns. */
module Policy {
  import opened HotplugTypes
  import opened Phases

  /** The cluster rule of `cpu_down`: once `cpu` leaves, some online CPU
      must remain in the big-cluster (`perf`) mask and some in the
      little-cluster (`lp`) mask; otherwise -EINVAL. */
  function ClusterCheck(online: set<CpuId>, perf: set<CpuId>, lp: set<CpuId>, cpu: CpuId): (err: Status)
    ensures err == 0 || err == -EINVAL
    ensures err == 0 <==> ((exists b :: b in online && b in perf && b != cpu)
                           && (exists l :: l in online && l in lp && l != cpu))
  {
    var rest := online - {cpu};
    RemainsIn(online, perf, cpu);
    RemainsIn(online, lp, cpu);
    if rest * perf == {} || rest * lp == {} then -EINVAL else 0
  }

  /** Some CPU of `m` other than `cpu` is online exactly when the online
      mask without `cpu` intersects `m`. */
  lemma {:induction false} RemainsIn(online: set<CpuId>, m: set<CpuId>, cpu: CpuId)
    ensures (online - {cpu}) * m != {} <==> exists x :: x in online && x in m && x != cpu
  {
    assert forall x :: x in online && x in m && x != cpu ==> x in (online - {cpu}) * m;
    if (online - {cpu}) * m != {} {
      var x :| x in (online - {cpu}) * m;
    }
  }

  /** Whether `cpu_down` gets as far as `_cpu_down`: the cluster rule holds
      and the gate is open. */
  predicate CpuDownProceeds(online: set<CpuId>, perf: set<CpuId>, lp: set<CpuId>, disabled: int, cpu: CpuId)
  {
    ClusterCheck(online, perf, lp, cpu) == 0 && disabled == 0
  }

  /** The value `cpu_down` returns. */
  function CpuDownErr(c: Chain, online: set<CpuId>, perf: set<CpuId>, lp: set<CpuId>, disabled: int,
                      cpu: CpuId, env: DownEnv): Status
  {
    if ClusterCheck(online, perf, lp, cpu) != 0 then ClusterCheck(online, perf, lp, cpu)
    else if disabled != 0 then -EBUSY
    else DownErr(DownStageOf(c, online, cpu, false, env))
  }

  /** The cluster rule is checked before the gate, and both before the
      last-CPU and offline checks of `_cpu_down`. */
  lemma {:induction false} CpuDownRefusals(c: Chain, online: set<CpuId>, perf: set<CpuId>, lp: set<CpuId>, disabled: int,
                        cpu: CpuId, env: DownEnv)
    ensures ClusterCheck(online, perf, lp, cpu) != 0 ==> CpuDownErr(c, online, perf, lp, disabled, cpu, env) == -EINVAL
    ensures ClusterCheck(online, perf, lp, cpu) == 0 && disabled != 0 ==>
      CpuDownErr(c, online, perf, lp, disabled, cpu, env) == -EBUSY
    ensures CpuDownProceeds(online, perf, lp, disabled, cpu) ==>
      CpuDownErr(c, online, perf, lp, disabled, cpu, env) == DownErr(DownStageOf(c, online, cpu, false, env))
  {
  }

  /** Whatever `_cpu_down` then does, a `cpu_down` that passes the cluster
      rule leaves a big and a little CPU online. */
  lemma {:induction false} CpuDownKeepsBothClusters(c: Chain, online: set<CpuId>, perf: set<CpuId>, lp: set<CpuId>, disabled: int,
                                 cpu: CpuId, env: DownEnv)
    requires CpuDownProceeds(online, perf, lp, disabled, cpu)
    ensures var after := DownOnline(online, cpu, DownStageOf(c, online, cpu, false, env));
      after * perf != {} && after * lp != {}
  {
    var x :| x in (online - {cpu}) * perf;
    var y :| y in (online - {cpu}) * lp;
    var after := DownOnline(online, cpu, DownStageOf(c, online, cpu, false, env));
    assert x in after * perf;
    assert y in after * lp;
  }

  /** With four CPUs online, little cluster {0, 1} and big cluster {2, 3},
      CPU 1 may go, but then CPU 0 may not: it is the last little CPU. */
  lemma {:induction false} ClusterRuleScenario()
    ensures ClusterCheck({0, 1, 2, 3}, {2, 3}, {0, 1}, 1) == 0
    ensures ClusterCheck({0, 2, 3}, {2, 3}, {0, 1}, 0) == -EINVAL
    ensures ClusterCheck({0, 2, 3}, {2, 3}, {0, 1}, 3) == 0
  {
    assert 0 in ({0, 1, 2, 3} - {1}) * {0, 1};
    assert 2 in ({0, 1, 2, 3} - {1}) * {2, 3};
    assert ({0, 2, 3} - {0}) * {0, 1} == {};
    assert 0 in ({0, 2, 3} - {3}) * {0, 1};
    assert 2 in ({0, 2, 3} - {3}) * {2, 3};
  }

  /** The checks of `cpu_up` before `_cpu_up`: the CPU must be possible and
      in the early mask (-EINVAL otherwise), its memory node must come
      online, and the gate must be open (-EBUSY). */
  function UpAdmission(possible: set<CpuId>, early: set<CpuId>, nodeErr: Status, disabled: int, cpu: CpuId): (err: Status)
  {
    if cpu !in possible then -EINVAL
    else if cpu !in early then -EINVAL
    else if nodeErr != 0 then nodeErr
    else if disabled != 0 then -EBUSY
    else 0
  }

  /** The value `cpu_up` returns. */
  function CpuUpErr(c: Chain, possible: set<CpuId>, present: set<CpuId>, online: set<CpuId>, early: set<CpuId>,
                    disabled: int, cpu: CpuId, env: UpEnv): Status
  {
    var a := UpAdmission(possible, early, env.nodeErr, disabled, cpu);
    if a != 0 then a else UpErr(UpStageOf(c, online, present, cpu, false, env))
  }

  /** `cpu_up` refuses a CPU that is not possible or not in the early mask
      with -EINVAL, and one the gate holds back with -EBUSY, before
      `_cpu_up` is reached; it succeeds exactly when it is admitted and
      `_cpu_up` succeeds. */
  lemma {:induction false} CpuUpRefusals(c: Chain, possible: set<CpuId>, present: set<CpuId>, online: set<CpuId>, early: set<CpuId>,
                      disabled: int, cpu: CpuId, env: UpEnv)
    ensures cpu !in possible || cpu !in early ==> CpuUpErr(c, possible, present, online, early, disabled, cpu, env) == -EINVAL
    ensures cpu in possible && cpu in early && env.nodeErr == 0 && disabled != 0 ==>
      CpuUpErr(c, possible, present, online, early, disabled, cpu, env) == -EBUSY
    ensures CpuUpErr(c, possible, present, online, early, disabled, cpu, env) == 0 <==>
      UpAdmission(possible, early, env.nodeErr, disabled, cpu) == 0
      && UpStageOf(c, online, present, cpu, false, env) == Up
  {
  }

  /** The checks of `cpus_down` on dest = cpus ∩ online: the gate must be
      open, dest non-empty and smaller than the online mask; otherwise
      -EBUSY. */
  function CpusDownCheck(online: set<CpuId>, cpus: set<CpuId>, disabled: int): (err: Status)
    ensures err == 0 || err == -EBUSY
    ensures err == 0 <==> (disabled == 0 && (exists x :: x in cpus && x in online)
                           && (exists y :: y in online && y !in cpus))
  {
    var dest := cpus * online;
    TargetWeights(online, cpus);
    if disabled != 0 || |dest| == 0 || |online| <= |dest| then -EBUSY else 0
  }

  /** The weights `cpus_down` compares: the target is non-empty exactly when
      some requested CPU is online, and it is lighter than the online mask
      exactly when some online CPU was not requested. */
  lemma {:induction false} TargetWeights(online: set<CpuId>, cpus: set<CpuId>)
    ensures |cpus * online| != 0 <==> exists x :: x in cpus && x in online
    ensures |online| > |cpus * online| <==> exists y :: y in online && y !in cpus
  {
    var dest := cpus * online;
    if |dest| != 0 {
      var x :| x in dest;
    }
    assert online == dest + (online - dest);
    assert dest * (online - dest) == {};
    assert |online| == |dest| + |online - dest|;
    if |online - dest| != 0 {
      var y :| y in online - dest;
    }
  }

  /** A `cpus_down` that passes its checks acts on at least one CPU and
      leaves at least one online CPU outside its target. */
  lemma {:induction false} CpusDownCheckLeavesOne(online: set<CpuId>, cpus: set<CpuId>, disabled: int)
    requires CpusDownCheck(online, cpus, disabled) == 0
    ensures cpus * online != {}
    ensures online - cpus * online != {}
    ensures disabled == 0
  {
    var dest := cpus * online;
    assert online == dest + (online - dest);
    assert dest * (online - dest) == {};
    assert |online| == |dest| + |online - dest|;
  }
}
