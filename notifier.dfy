/** How a call of the per-CPU notifier chain behaves, as far as the hotplug
    transitions rely on it: subscribers are called in order; the first veto
    stops the chain and is returned as the error; `nr_calls` counts every
    subscriber called, the vetoer included; a limited call (`nr_to_call`)
    reaches only that many subscribers from the front of the chain. */
module Notifier {
  import opened HotplugTypes

  /** The answers of the subscribers, in chain order, to one message. */
  function Answers(c: Chain, m: Msg, cpu: CpuId): seq<Response>
  {
    seq(c.size, i requires 0 <= i < c.size => c.answer(m, cpu, i))
  }

  /** Position of the first veto, or |rs| when every subscriber accepts. */
  function FirstVeto(rs: seq<Response>): (k: nat)
    ensures k <= |rs|
    ensures forall i :: 0 <= i < k ==> rs[i] == Accept
    ensures k < |rs| ==> rs[k].Veto?
  {
    if rs == [] then 0
    else if rs[0].Veto? then 0
    else 1 + FirstVeto(rs[1..])
  }

  /** `*nr_calls` after a full call (`nr_to_call == -1`): the number of
      subscribers reached, the vetoer included. */
  function NrCalls(rs: seq<Response>): (n: nat)
    ensures n <= |rs|
    ensures forall i :: 0 <= i < n - 1 ==> rs[i] == Accept
    ensures n < |rs| ==> n >= 1 && rs[n - 1].Veto?
  {
    if FirstVeto(rs) < |rs| then FirstVeto(rs) + 1 else |rs|
  }

  /** notifier_to_errno of the chain's result: the vetoer's error, or 0. */
  function ChainErr(rs: seq<Response>): (err: Status)
    ensures err != 0 <==> exists i :: 0 <= i < |rs| && rs[i].Veto?
    ensures err != 0 ==> err == rs[FirstVeto(rs)].err
  {
    if FirstVeto(rs) < |rs| then rs[FirstVeto(rs)].err else 0
  }

  /** The trace of calling the first `n` subscribers with `m` about `cpu`:
      a full call that nobody vetoes, or a call limited to `n`. */
  function Calls(m: Msg, cpu: CpuId, n: nat): seq<Event>
  {
    seq(n, i requires 0 <= i < n => Notified(m, cpu, i))
  }

  /** The trace of a full call of the chain: every subscriber up to and
      including the first vetoer. */
  function ChainCalls(c: Chain, m: Msg, cpu: CpuId): seq<Event>
  {
    Calls(m, cpu, NrCalls(Answers(c, m, cpu)))
  }

  /** 0, 1, ..., n-1. */
  function Range(n: nat): (r: seq<nat>)
    ensures |r| == n
    ensures forall i :: 0 <= i < n ==> r[i] == i
  {
    seq(n, i => i)
  }

  /** The subscribers that a trace shows receiving `m` about `cpu`, in the
      order they were called. */
  function Called(es: seq<Event>, m: Msg, cpu: CpuId): seq<nat>
  {
    if es == [] then []
    else
      (if es[0].Notified? && es[0].msg == m && es[0].cpu == cpu then [es[0].subscriber] else [])
      + Called(es[1..], m, cpu)
  }

  lemma {:induction false} CalledAppend(a: seq<Event>, b: seq<Event>, m: Msg, cpu: CpuId)
    ensures Called(a + b, m, cpu) == Called(a, m, cpu) + Called(b, m, cpu)
  {
    if a != [] {
      assert (a + b)[1..] == a[1..] + b;
      CalledAppend(a[1..], b, m, cpu);
    } else {
      assert a + b == b;
    }
  }

  lemma {:induction false} CalledThree(a: seq<Event>, b: seq<Event>, d: seq<Event>, m: Msg, cpu: CpuId)
    ensures Called(a + b + d, m, cpu) == Called(a, m, cpu) + Called(b, m, cpu) + Called(d, m, cpu)
  {
    CalledAppend(a + b, d, m, cpu);
    CalledAppend(a, b, m, cpu);
  }

  /** Calling the first `n` subscribers notifies exactly subscribers 0..n-1,
      in forward order. */
  lemma {:induction false} CalledCalls(m: Msg, cpu: CpuId, n: nat)
    ensures Called(Calls(m, cpu, n), m, cpu) == Range(n)
  {
    if n > 0 {
      assert Calls(m, cpu, n) == Calls(m, cpu, n - 1) + [Notified(m, cpu, n - 1)];
      CalledAppend(Calls(m, cpu, n - 1), [Notified(m, cpu, n - 1)], m, cpu);
      CalledCalls(m, cpu, n - 1);
      assert Called([Notified(m, cpu, n - 1)], m, cpu) == [n - 1];
      assert Range(n) == Range(n - 1) + [n - 1];
    }
  }

  /** A trace none of whose notifier calls carries `m` about `cpu` notifies
      nobody of it. */
  lemma {:induction false} CalledUnrelated(es: seq<Event>, m: Msg, cpu: CpuId)
    requires forall i :: 0 <= i < |es| && es[i].Notified? ==> es[i].msg != m || es[i].cpu != cpu
    ensures Called(es, m, cpu) == []
  {
    if es != [] {
      CalledUnrelated(es[1..], m, cpu);
    }
  }

  /** A trace holding a call of the first `n1` subscribers with `m1` and
      then one of the first `n2` with `m2`, about the same CPU, between
      effects that are not notifier calls, notifies exactly those subscribers
      of those messages about that CPU. */
  lemma {:induction false} CalledTwoCalls(head: seq<Event>, m1: Msg, n1: nat, mid: seq<Event>, m2: Msg, n2: nat,
                       tail: seq<Event>, m: Msg, cpu: CpuId)
    requires m1 != m2
    requires forall i :: 0 <= i < |head| ==> !head[i].Notified?
    requires forall i :: 0 <= i < |mid| ==> !mid[i].Notified?
    requires forall i :: 0 <= i < |tail| ==> !tail[i].Notified?
    ensures Called(head + Calls(m1, cpu, n1) + mid + Calls(m2, cpu, n2) + tail, m, cpu)
         == if m == m1 then Range(n1) else if m == m2 then Range(n2) else []
  {
    var c1, c2 := Calls(m1, cpu, n1), Calls(m2, cpu, n2);
    CalledAppend(head + c1 + mid + c2, tail, m, cpu);
    CalledAppend(head + c1 + mid, c2, m, cpu);
    CalledAppend(head + c1, mid, m, cpu);
    CalledAppend(head, c1, m, cpu);
    CalledUnrelated(head, m, cpu);
    CalledUnrelated(mid, m, cpu);
    CalledUnrelated(tail, m, cpu);
    if m == m1 {
      CalledCalls(m1, cpu, n1);
      CalledUnrelated(c2, m, cpu);
    } else if m == m2 {
      CalledCalls(m2, cpu, n2);
      CalledUnrelated(c1, m, cpu);
    } else {
      CalledUnrelated(c1, m, cpu);
      CalledUnrelated(c2, m, cpu);
    }
  }

  /** A vetoed call reaches the vetoer and no one after it, so `nr_calls - 1`
      is the number of subscribers that accepted before the veto. */
  lemma {:induction false} VetoedCallReachesVetoer(rs: seq<Response>)
    requires ChainErr(rs) != 0
    ensures 1 <= NrCalls(rs) <= |rs|
    ensures NrCalls(rs) - 1 == FirstVeto(rs)
    ensures rs[NrCalls(rs) - 1] == Veto(ChainErr(rs))
  {
  }
}
