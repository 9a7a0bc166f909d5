/** The per-CPU `hotplug_pcp` descriptor: how many tasks are inside pinned
    sections of a CPU (`refcount`), which task is draining them (`unplug`),
    the drain helper kthread (`sync_tsk`), and whether new pinners must wait
    on the descriptor's lock (`grab_lock`). */
module Pin {
  import opened HotplugTypes

  datatype PcpState = PcpState(
    unplug: Option<Task>,
    syncTsk: Option<Task>,
    refcount: int,
    grabLock: bool,
    mutexInit: bool)

  /** The test at the top of pin_current_cpu: the pin is taken at once. */
  predicate PinFastPath(s: PcpState, current: Task, force: bool, preemptCount: nat)
  {
    s.unplug == None || s.refcount != 0 || force || preemptCount > 1 || s.unplug == Some(current)
  }

  /** How a pin_current_cpu call ends on this CPU. */
  datatype PinOutcome =
    | Pinned    // the count was incremented
    | Migrated  // the caller was pushed to another CPU and retries there
    | Blocked   // the caller waits on the descriptor's lock until the unplug ends

  /** The decision pin_current_cpu takes, given whether migrate_me moved the
      caller away. A caller that could not be moved while the lock is not yet
      engaged retries with `force` set and so takes the fast path. */
  function PinDecision(s: PcpState, current: Task, preemptCount: nat, migrated: bool): (o: PinOutcome)
    ensures o == Blocked <==> !PinFastPath(s, current, false, preemptCount) && s.grabLock
    ensures o == Migrated <==> !PinFastPath(s, current, false, preemptCount) && !s.grabLock && migrated
  {
    if PinFastPath(s, current, false, preemptCount) then Pinned
    else if s.grabLock then Blocked
    else if migrated then Migrated
    else Pinned
  }

  /** With no unplug pending, or for the unplugger itself, pinning never
      blocks and never migrates. */
  lemma {:induction false} PinWithoutUnplugNeverWaits(s: PcpState, current: Task, preemptCount: nat, migrated: bool)
    requires s.unplug == None || s.unplug == Some(current)
    ensures PinDecision(s, current, preemptCount, migrated) == Pinned
  {
  }

  /** A caller only ever blocks when an unplug by another task is under way,
      the lock is engaged, nobody else holds a pin and it is not nested. */
  lemma {:induction false} BlockedOnlyWhileDraining(s: PcpState, current: Task, preemptCount: nat, migrated: bool)
    requires PinDecision(s, current, preemptCount, migrated) == Blocked
    ensures s.unplug.Some? && s.unplug != Some(current)
    ensures s.grabLock && s.refcount == 0 && preemptCount <= 1
  {
  }

  /** The descriptor after a pin_current_cpu call that ended with `o`. */
  function AfterPin(s: PcpState, o: PinOutcome): PcpState
  {
    if o == Pinned then s.(refcount := s.refcount + 1) else s
  }

  /** The descriptor after unpin_current_cpu: the count drops by one even
      when it was not positive (that case only warns). */
  function AfterUnpin(s: PcpState): PcpState
  {
    s.(refcount := s.refcount - 1)
  }

  /** Whether unpin_current_cpu wakes the unplugger: it releases the last pin
      and is not the unplugger itself. */
  predicate UnpinWakes(s: PcpState, current: Task)
  {
    s.refcount - 1 == 0 && s.unplug.Some? && s.unplug != Some(current)
  }

  /** A pin that is taken and then released leaves the descriptor unchanged,
      and the release wakes the unplugger exactly when it was the only pin. */
  lemma {:induction false} PinUnpinRestores(s: PcpState, current: Task, preemptCount: nat, migrated: bool)
    requires PinDecision(s, current, preemptCount, migrated) == Pinned
    ensures AfterUnpin(AfterPin(s, Pinned)) == s
    ensures UnpinWakes(AfterPin(s, Pinned), current) <==> s.refcount == 0 && s.unplug.Some? && s.unplug != Some(current)
  {
  }

  class HotplugPcp {
    var unplug: Option<Task>
    var syncTsk: Option<Task>
    var refcount: int
    var grabLock: bool
    var mutexInit: bool

    function State(): PcpState
      reads this
    {
      PcpState(unplug, syncTsk, refcount, grabLock, mutexInit)
    }

    /** The zero-initialised per-CPU descriptor. */
    constructor ()
      ensures State() == PcpState(None, None, 0, false, false)
    {
      unplug, syncTsk, refcount, grabLock, mutexInit := None, None, 0, false, false;
    }

    /** pin_current_cpu on this CPU; `migrated` is what migrate_me achieved. */
    method PinCurrentCpu(current: Task, preemptCount: nat, migrated: bool) returns (o: PinOutcome)
      modifies this
      ensures o == PinDecision(old(State()), current, preemptCount, migrated)
      ensures State() == AfterPin(old(State()), o)
    {
      var force := false;
      while true
        invariant State() == old(State())
        invariant force ==> !PinFastPath(State(), current, false, preemptCount) && !grabLock && !migrated
        decreases if force then 0 else 1
      {
        if unplug == None || refcount != 0 || force || preemptCount > 1 || unplug == Some(current) {
          refcount := refcount + 1;
          return Pinned;
        }
        if grabLock {
          return Blocked;
        }
        if migrated {
          return Migrated;
        }
        force := true;
      }
    }

    /** unpin_current_cpu; `wake` is whether the unplugger is woken and
        `warned` the WARN_ON of an unbalanced release. */
    method UnpinCurrentCpu(current: Task) returns (wake: bool, warned: bool)
      modifies this
      ensures State() == AfterUnpin(old(State()))
      ensures wake == UnpinWakes(old(State()), current)
      ensures warned == (old(refcount) <= 0)
    {
      warned := refcount <= 0;
      refcount := refcount - 1;
      wake := refcount == 0 && unplug.Some? && unplug != Some(current);
    }

    /** The field effects of cpu_unplug_begin: the lock is initialised once,
        and the helper kthread is recorded, or cleared when it could not be
        created. */
    method UnplugBegin(helperErr: Status, helper: Task) returns (err: Status)
      modifies this
      ensures err == helperErr
      ensures State() == old(State()).(mutexInit := true,
                                        syncTsk := if helperErr == 0 then Some(helper) else None)
    {
      if !mutexInit {
        mutexInit := true;
      }
      if helperErr != 0 {
        syncTsk := None;
        return helperErr;
      }
      syncTsk := Some(helper);
      err := 0;
    }

    /** __cpu_unplug_wait: the helper records itself as the unplugger and
        waits until no task is in a pinned section. */
    method UnplugWait()
      requires syncTsk.Some?
      modifies this
      ensures State() == old(State()).(unplug := old(syncTsk))
    {
      unplug := syncTsk;
    }

    /** cpu_unplug_sync: engage the lock so that new pinners wait, let the
        helper drain once more, then stop it. */
    method UnplugSync()
      requires syncTsk.Some?
      modifies this
      ensures State() == old(State()).(grabLock := true, syncTsk := None)
    {
      grabLock := true;
      syncTsk := None;
    }

    /** cpu_unplug_done: the unplug is over and the lock released; a helper
        still recorded is stopped but its pointer is left in place. */
    method UnplugDone()
      modifies this
      ensures State() == old(State()).(unplug := None, grabLock := false)
    {
      unplug := None;
      if grabLock {
        grabLock := false;
      }
    }
  }
}
