/** The `cpu_hotplug` reader/writer barrier: readers (`get_online_cpus`)
    count themselves in `refcount`; the single writer (`cpu_hotplug_begin`)
    records itself as `active_writer` and proceeds once no reader is left.
    The writer may re-enter as a reader without counting. */
module Barrier {
  import opened HotplugTypes

  /** The fields of the barrier that the code reads and writes. */
  datatype LockState = LockState(activeWriter: Option<Task>, refcount: int)

  /** `get_online_cpus` by task `t`. */
  function ReadAcquire(s: LockState, t: Task): (r: LockState)
    ensures r.activeWriter == s.activeWriter
    ensures s.activeWriter == Some(t) ==> r == s
    ensures s.activeWriter != Some(t) ==> r.refcount == s.refcount + 1
  {
    if s.activeWriter == Some(t) then s
    else s.(refcount := s.refcount + 1)
  }

  /** `put_online_cpus` by task `t`: the decrement is undone when it would
      leave the count negative. */
  function ReadRelease(s: LockState, t: Task): (r: LockState)
    ensures r.activeWriter == s.activeWriter
    ensures s.activeWriter == Some(t) ==> r == s
    ensures s.activeWriter != Some(t) && s.refcount >= 1 ==> r.refcount == s.refcount - 1
    ensures s.activeWriter != Some(t) && s.refcount < 1 ==> r.refcount == s.refcount
  {
    if s.activeWriter == Some(t) then s
    else
      var dec := s.refcount - 1;
      if dec < 0 then s.(refcount := dec + 1) else s.(refcount := dec)
  }

  /** Whether `put_online_cpus` by `t` warns about an unbalanced release. */
  function ReleaseWarns(s: LockState, t: Task): bool
  {
    s.activeWriter != Some(t) && s.refcount - 1 < 0
  }

  datatype ReaderOp = Get(t: Task) | Put(t: Task)

  function Replay(s: LockState, ops: seq<ReaderOp>): LockState
    decreases ops
  {
    if ops == [] then s
    else
      var next := match ops[0]
        case Get(t) => ReadAcquire(s, t)
        case Put(t) => ReadRelease(s, t);
      Replay(next, ops[1..])
  }

  /** Whatever readers do, however unbalanced, the count never goes negative
      and the writer is untouched. */
  lemma {:induction false} ReplayKeepsCountNonNegative(s: LockState, ops: seq<ReaderOp>)
    requires s.refcount >= 0
    ensures Replay(s, ops).refcount >= 0
    ensures Replay(s, ops).activeWriter == s.activeWriter
    decreases ops
  {
    if ops != [] {
      var next := match ops[0]
        case Get(t) => ReadAcquire(s, t)
        case Put(t) => ReadRelease(s, t);
      ReplayKeepsCountNonNegative(next, ops[1..]);
    }
  }

  /** A reader's get followed by its put leaves the barrier as it was. */
  lemma {:induction false} ReadPairRestores(s: LockState, t: Task)
    requires s.refcount >= 0
    ensures ReadRelease(ReadAcquire(s, t), t) == s
  {
  }

  /** The barrier itself, updated in place. */
  class HotplugLock {
    var activeWriter: Option<Task>
    var refcount: int

    function State(): LockState
      reads this
    {
      LockState(activeWriter, refcount)
    }

    constructor ()
      ensures activeWriter == None && refcount == 0
    {
      activeWriter := None;
      refcount := 0;
    }

    /** get_online_cpus. */
    method GetOnlineCpus(current: Task)
      modifies this
      ensures State() == ReadAcquire(old(State()), current)
    {
      if activeWriter == Some(current) {
        return;
      }
      refcount := refcount + 1;
    }

    /** put_online_cpus; `warned` is the WARN_ON of an unbalanced release. */
    method PutOnlineCpus(current: Task) returns (warned: bool)
      modifies this
      ensures State() == ReadRelease(old(State()), current)
      ensures warned == ReleaseWarns(old(State()), current)
    {
      warned := false;
      if activeWriter == Some(current) {
        return;
      }
      refcount := refcount - 1;
      if refcount < 0 {
        warned := true;
        refcount := refcount + 1;
      }
    }

    /** cpu_hotplug_begin, from the moment its wait loop sees no reader. */
    method Begin(current: Task)
      requires refcount == 0
      modifies this
      ensures activeWriter == Some(current) && refcount == 0
    {
      activeWriter := Some(current);
    }

    /** cpu_hotplug_done. */
    method Done()
      modifies this
      ensures activeWriter == None && refcount == old(refcount)
    {
      activeWriter := None;
    }
  }
}
