/** The `cpu_hotplug_disabled` counter: while it is positive every CPU up or
    down request fails with -EBUSY. Disabling nests; enabling is clamped at
    zero, with a warning, instead of going negative. */
module Gate {

  datatype GateOp = Disable | Enable

  /** One `cpu_hotplug_disable` or `__cpu_hotplug_enable` on the counter. */
  function Step(d: int, op: GateOp): (r: int)
    ensures d >= 0 ==> r >= 0
    ensures op == Disable ==> r > d
    ensures op == Enable ==> (if d == 0 then r == 0 else r < d)
  {
    match op
    case Disable => d + 1
    case Enable => if d == 0 then d else d - 1
  }

  /** The counter after a sequence of calls, in order. */
  function Replay(d: int, ops: seq<GateOp>): int
    decreases ops
  {
    if ops == [] then d else Replay(Step(d, ops[0]), ops[1..])
  }

  function Repeat(op: GateOp, n: nat): (ops: seq<GateOp>)
    ensures |ops| == n
    ensures forall i :: 0 <= i < n ==> ops[i] == op
  {
    seq(n, _ => op)
  }

  lemma {:induction false} ReplayAppend(d: int, a: seq<GateOp>, b: seq<GateOp>)
    ensures Replay(d, a + b) == Replay(Replay(d, a), b)
    decreases a
  {
    if a == [] {
      assert a + b == b;
    } else {
      assert (a + b)[1..] == a[1..] + b;
      ReplayAppend(Step(d, a[0]), a[1..], b);
    }
  }

  /** No sequence of calls drives the counter below zero. */
  lemma {:induction false} ReplayNeverNegative(d: int, ops: seq<GateOp>)
    requires d >= 0
    ensures Replay(d, ops) >= 0
    decreases ops
  {
    if ops != [] {
      ReplayNeverNegative(Step(d, ops[0]), ops[1..]);
    }
  }

  lemma {:induction false} ReplayDisables(d: int, n: nat)
    ensures Replay(d, Repeat(Disable, n)) == d + n
    decreases n
  {
    if n > 0 {
      assert Repeat(Disable, n)[1..] == Repeat(Disable, n - 1);
      ReplayDisables(d + 1, n - 1);
    }
  }

  lemma {:induction false} ReplayEnables(d: int, m: nat)
    requires d >= 0
    ensures Replay(d, Repeat(Enable, m)) == if m >= d then 0 else d - m
    decreases m
  {
    if m > 0 {
      assert Repeat(Enable, m)[1..] == Repeat(Enable, m - 1);
      ReplayEnables(Step(d, Enable), m - 1);
    }
  }

  /** Starting from an open gate, n disables followed by m enables leave the
      counter at n - m, or at 0 when there were at least as many enables:
      n disables need exactly n enables, and any further enable is a no-op. */
  lemma {:induction false} DisablesThenEnables(n: nat, m: nat)
    ensures Replay(0, Repeat(Disable, n) + Repeat(Enable, m)) == if m >= n then 0 else n - m
    ensures Replay(0, Repeat(Disable, n) + Repeat(Enable, m)) == 0 <==> m >= n
  {
    ReplayAppend(0, Repeat(Disable, n), Repeat(Enable, m));
    ReplayDisables(0, n);
    ReplayEnables(n, m);
  }

  /** Balanced disable/enable pairs restore any starting count. */
  lemma {:induction false} BalancedPairsRestore(d: int, n: nat)
    requires d >= 0
    ensures Replay(d, Repeat(Disable, n) + Repeat(Enable, n)) == d
  {
    ReplayAppend(d, Repeat(Disable, n), Repeat(Enable, n));
    ReplayDisables(d, n);
    ReplayEnables(d + n, n);
  }
}
