/** Identifiers, return codes, notifier messages and the trace of external
    effects shared by the CPU-hotplug model. */
module HotplugTypes {

  /** Size of the CPU id space; `cpus_down` keeps one notifier count per CPU
      in an array of this many entries. */
  const NR_CPUS: nat := 8

  type CpuId = c: nat | c < NR_CPUS

  /** Identity of a task (the `current` of the caller, or a helper kthread). */
  type Task = nat

  /** A kernel return code: 0 for success or a negative errno. */
  type Status = e: int | e <= 0

  /** A failure code: a negative errno. */
  type ErrorCode = e: int | e < 0 witness -1

  const ENOMEM: int := 12
  const EBUSY: int := 16
  const EINVAL: int := 22

  datatype Option<T> = None | Some(value: T)

  /** The CPU_* actions sent on the per-CPU notifier chain. */
  datatype Action =
    | UpPrepare | Online | UpCanceled
    | DownPrepare | DownFailed | DownLatePrepare | Dead | PostDead

  /** An action, with the CPU_TASKS_FROZEN modifier when the transition runs
      for suspend or resume. */
  datatype Msg = Msg(action: Action, frozen: bool)

  /** The actions sent on the CPU-set notifier chain. */
  datatype SetAction = CpusDownComplete

  /** What one subscriber answers to a cancelable phase. */
  datatype Response = Accept | Veto(err: ErrorCode)

  /** The per-CPU notifier chain: `size` subscribers in registration-priority
      order, and the answer subscriber `i` gives to a message about a CPU.
      Only the answers to UP_PREPARE and DOWN_PREPARE are consulted. */
  datatype Chain = Chain(size: nat, answer: (Msg, CpuId, nat) -> Response)

  /** The effects a transition has outside this file, in the order it causes
      them. */
  datatype Event =
    | Notified(msg: Msg, cpu: CpuId, subscriber: nat)   // one subscriber of the per-CPU chain called
    | SetNotified(setAction: SetAction, cpus: set<CpuId>)  // the CPU-set chain called
    | IdleDisabled(cpu: CpuId)          // cpuidle_disable_device
    | IdleEnabled(cpu: CpuId)           // cpuidle_enable_device
    | SchedDownBegin(cpu: CpuId)        // tell_sched_cpu_down_begin
    | SchedDownDone(cpu: CpuId)         // tell_sched_cpu_down_done
    | PinnedDrained(cpu: CpuId)         // the helper saw no task in a pinned section
    | ThreadsParked(cpu: CpuId)         // smpboot_park_threads
    | ThreadsUnparked(cpu: CpuId)       // smpboot_unpark_threads
    | IrqLocked                         // irq_lock_sparse
    | IrqUnlocked                       // irq_unlock_sparse
    | StopMachine(cpus: set<CpuId>)     // stop_machine(take_cpu_down) on these CPUs
    | CpuDied(cpu: CpuId)               // __cpu_die
    | ArchCpuUp(cpu: CpuId)             // __cpu_up
    | PerfIrqsUnaffined                 // unaffine_perf_irqs
    | PerfIrqsReaffined                 // reaffine_perf_irqs

  /** The outcomes of the opaque steps of one `_cpu_down`. */
  datatype DownEnv = DownEnv(
    allocOk: bool,      // both alloc_cpumask_var calls succeed
    offTarget: bool,    // the caller is no longer running on the target CPU
    helperErr: Status,  // kthread_create of the sync_unplug helper
    helper: Task,       // the helper's identity when it is created
    stopErr: Status)    // stop_machine(take_cpu_down), including __cpu_disable

  /** The outcomes of the opaque steps of one `cpu_up`. */
  datatype UpEnv = UpEnv(
    nodeErr: Status,    // try_online_node
    idleErr: Status,    // idle_thread_get
    threadsErr: Status, // smpboot_create_threads
    archErr: Status)    // __cpu_up
}
