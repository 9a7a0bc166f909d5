/** The CPU membership bitmaps (possible, present, online, active, isolated)
    and their setters. Each bitmap is a set of CPU ids. */
module Masks {
  import opened HotplugTypes

  /** The bitmaps at one instant. */
  datatype MaskState = MaskState(
    possible: set<CpuId>,
    present: set<CpuId>,
    online: set<CpuId>,
    active: set<CpuId>,
    isolated: set<CpuId>)

  /** cpumask_set_cpu / cpumask_clear_cpu on one bitmap. */
  function SetBit(s: set<CpuId>, cpu: CpuId, b: bool): (r: set<CpuId>)
    ensures cpu in r <==> b
    ensures forall c :: c != cpu ==> (c in r <==> c in s)
  {
    if b then s + {cpu} else s - {cpu}
  }

  /** Setting the same bit twice is setting it once; setting bits of two
      different CPUs commutes. */
  lemma {:induction false} SetBitIdempotentAndCommutes(s: set<CpuId>, c1: CpuId, b1: bool, c2: CpuId, b2: bool)
    ensures SetBit(SetBit(s, c1, b1), c1, b1) == SetBit(s, c1, b1)
    ensures c1 != c2 ==> SetBit(SetBit(s, c1, b1), c2, b2) == SetBit(SetBit(s, c2, b2), c1, b1)
  {
  }

  /** Number of online CPUs (num_online_cpus). */
  function NumOnline(m: MaskState): nat
  {
    |m.online|
  }

  class CpuMasks {
    var possible: set<CpuId>
    var present: set<CpuId>
    var online: set<CpuId>
    var active: set<CpuId>
    var isolated: set<CpuId>

    function State(): MaskState
      reads this
    {
      MaskState(possible, present, online, active, isolated)
    }

    constructor (m: MaskState)
      ensures State() == m
    {
      possible, present, online, active, isolated := m.possible, m.present, m.online, m.active, m.isolated;
    }

    /** set_cpu_possible. */
    method SetCpuPossible(cpu: CpuId, b: bool)
      modifies this
      ensures State() == old(State()).(possible := SetBit(old(possible), cpu, b))
    {
      possible := SetBit(possible, cpu, b);
    }

    /** set_cpu_present. */
    method SetCpuPresent(cpu: CpuId, b: bool)
      modifies this
      ensures State() == old(State()).(present := SetBit(old(present), cpu, b))
    {
      present := SetBit(present, cpu, b);
    }

    /** set_cpu_online: bringing a CPU online also marks it active; taking it
        offline leaves the active bit alone. */
    method SetCpuOnline(cpu: CpuId, b: bool)
      modifies this
      ensures b ==> State() == old(State()).(online := old(online) + {cpu}, active := old(active) + {cpu})
      ensures !b ==> State() == old(State()).(online := old(online) - {cpu})
    {
      if b {
        online := SetBit(online, cpu, true);
        active := SetBit(active, cpu, true);
      } else {
        online := SetBit(online, cpu, false);
      }
    }

    /** set_cpu_active. */
    method SetCpuActive(cpu: CpuId, b: bool)
      modifies this
      ensures State() == old(State()).(active := SetBit(old(active), cpu, b))
    {
      active := SetBit(active, cpu, b);
    }

    /** set_cpu_isolated. */
    method SetCpuIsolated(cpu: CpuId, b: bool)
      modifies this
      ensures State() == old(State()).(isolated := SetBit(old(isolated), cpu, b))
    {
      isolated := SetBit(isolated, cpu, b);
    }

    /** init_cpu_present. */
    method InitCpuPresent(src: set<CpuId>)
      modifies this
      ensures State() == old(State()).(present := src)
    {
      present := src;
    }

    /** init_cpu_possible. */
    method InitCpuPossible(src: set<CpuId>)
      modifies this
      ensures State() == old(State()).(possible := src)
    {
      possible := src;
    }

    /** init_cpu_online. */
    method InitCpuOnline(src: set<CpuId>)
      modifies this
      ensures State() == old(State()).(online := src)
    {
      online := src;
    }

    /** init_cpu_isolated. */
    method InitCpuIsolated(src: set<CpuId>)
      modifies this
      ensures State() == old(State()).(isolated := src)
    {
      isolated := src;
    }
  }
}
