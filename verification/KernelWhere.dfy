/** Where the kernel's states say that a process's pages are. */
module KernelWhere {
  import opened Wrappers
  import opened KernelState
  import opened KernelPlaces
  import opened KernelCpus
  import opened KernelBlocked
  import opened KernelRuns

  datatype Where = Nowhere | InMemory | InSwap

  /** NEW and EXIT processes have no pages; suspended ones have theirs in swap, once
      the request made inside the mutex section is done. */
  function WhereIs(k: Kernel, pid: nat): Where {
    var s := StateOf(k, pid);
    if s == NEW || s == EXIT then Nowhere
    else if (s == SUSP_BLOCKED || s == SUSP_READY) && k.mutex != Some(pid) then InSwap
    else InMemory
  }

  /** The process inside the mutex section waits, suspended. */
  ghost predicate MutexOk(k: Kernel) {
    k.mutex.Some? ==> StateOf(k, k.mutex.value) == SUSP_BLOCKED
  }

  /** A dump ends while its process is not suspended. */
  predicate DumpOnTime(k: Kernel, e: Event) {
    e.DumpDone? && e.dump < |k.dumps| ==> StateOf(k, k.dumps[e.dump]) == BLOCKED
  }

  /** The process that an event ends, if any. */
  function Ends(k: Kernel, e: Event): Option<nat> {
    match e
    case Result(pid, Exit, _) => if pid in Queue(k, EXEC) then Some(pid) else None
    case SyscallIO(cpu, name, _, _) => if cpu < |k.cpus| && !HasDevice(k.devices, name) then k.cpus[cpu] else None
    case SyscallExit(cpu) => if cpu < |k.cpus| then k.cpus[cpu] else None
    case DumpDone(d, false) => if d < |k.dumps| then Some(k.dumps[d]) else None
    case _ => None
  }

  /** What an event does to the place of a process. */
  function WhereNext(k: Kernel, e: Event, pid: nat): Where {
    if Ends(k, e) == Some(pid) then Nowhere
    else if e.Admit? && e.ok && e.pid == pid then InMemory
    else if e.SwapDone? && k.mutex == Some(pid) then InSwap
    else if e.Unsuspended? && e.ok && k.hand == Some(pid) then InMemory
    else WhereIs(k, pid)
  }

  lemma ScheduleWhere(k: Kernel, e: Event, pid: nat)
    requires KernelOk(k) && MutexOk(k) && Enabled(k, e)
    requires e.CreateProcess? || e.Search? || e.Admit? || e.ConnectCPU? || e.Dispatch? || e.Preempt?
    ensures WhereIs(Step(k, e), pid) == WhereNext(k, e, pid) && MutexOk(Step(k, e))
  {
    hide Sorts, Queue, Remove, FreeSlot, PlacesBut, CpusOk, BlockedOk, SendToExecute;
    match e {
      case Admit(p, _, ok) => InPlace(k, Held(k), NEW, p);
      case Dispatch(sortBy, order, ok) =>
        SortPlaces(k, Held(k), READY, sortBy, order);
        SendWhere(SetQueue(k, READY, order[1..]), order[0], FreeSlot(k.cpus), ok, pid);
      case Preempt(cpu, p, ok) =>
        InPlace(k, Held(k), READY, p);
        SendWhere(RemoveByPID(k, READY, p), p, cpu, ok, pid);
      case _ =>
    }
  }

  /** Going to a CPU, and coming back from one, moves no pages. */
  lemma SendWhere(k: Kernel, p: nat, cpu: nat, ok: bool, pid: nat)
    requires p < |k.procs| && cpu < |k.cpus| && k.procs[p].state == READY && MutexOk(k)
    ensures WhereIs(SendToExecute(k, p, cpu, ok), pid) == WhereIs(k, pid) && MutexOk(SendToExecute(k, p, cpu, ok))
  {
    hide Queue, Remove;
  }

  /** An executing process stops: the others stay where they are. */
  lemma StopWhere(k: Kernel, p: nat, burst: int, s: STATE, pid: nat)
    requires p < |k.procs| && k.procs[p].state == EXEC && MutexOk(k) && (s == READY || s == EXIT || s == BLOCKED)
    ensures WhereIs(Stopped(k, p, burst, s), pid) == if p == pid && s == EXIT then Nowhere else WhereIs(k, pid)
    ensures MutexOk(Stopped(k, p, burst, s))
    ensures WhereIs(Move(k, p, EXIT), pid) == (if p == pid then Nowhere else WhereIs(k, pid))
        && MutexOk(Move(k, p, EXIT))
  {
    hide Queue, Remove, FreeSlot;
  }

  lemma BlockWhere(k: Kernel, p: nat, burst: int, b: Blocked, pid: nat)
    requires p < |k.procs| && k.procs[p].state == EXEC && MutexOk(k)
    ensures WhereIs(BlockOn(k, p, burst, b), pid) == WhereIs(k, pid) && MutexOk(BlockOn(k, p, burst, b))
  {
    hide Queue, Remove;
  }

  lemma IOWhere(k: Kernel, cpu: nat, name: string, time: int, burst: int, pid: nat)
    requires KernelOk(k) && MutexOk(k) && Runs(k, cpu)
    ensures var e := SyscallIO(cpu, name, time, burst);
            WhereIs(Step(k, e), pid) == WhereNext(k, e, pid) && MutexOk(Step(k, e))
  {
    hide KernelOk, Queue, Remove, HasDevice, FindDevice, Stopped, BlockOn, Move;
    var p, d := k.cpus[cpu].value, FindDevice(k.devices, name);
    StopWhere(k, p, burst, EXIT, pid);
    var taken := if d < |k.devices| then k.(devices := k.devices[d := k.devices[d].(disp := false)]) else k;
    BlockWhere(taken, p, burst, Blocked(p, name, time, d < |k.devices|), pid);
  }

  lemma CpuWhere(k: Kernel, e: Event, pid: nat)
    requires KernelOk(k) && MutexOk(k) && Enabled(k, e)
    requires e.Result? || e.SyscallIO? || e.SyscallDump? || e.SyscallExit?
    ensures WhereIs(Step(k, e), pid) == WhereNext(k, e, pid) && MutexOk(Step(k, e))
  {
    hide Queue, Remove, HasDevice, FindDevice, PlacesBut, CpusOk, BlockedOk, Stopped, BlockOn, Move;
    match e
    case Result(p, reason, burst) =>
      InPlace(k, Held(k), EXEC, p);
      if p in Queue(k, EXEC) {
        StopWhere(k, p, burst, if reason == Interrupt then READY else EXIT, pid);
      }
    case SyscallIO(cpu, name, time, burst) => IOWhere(k, cpu, name, time, burst, pid);
    case SyscallDump(cpu, burst) =>
      BlockWhere(k, k.cpus[cpu].value, burst, Blocked(k.cpus[cpu].value, "", 0, true), pid);
    case SyscallExit(cpu) => StopWhere(k, k.cpus[cpu].value, 0, EXIT, pid);
  }

  /** Steps of MTS and its timers: a timer may be stale, and moves only what is
      still BLOCKED. */
  lemma SwapWhere(k: Kernel, e: Event, pid: nat)
    requires KernelOk(k) && MutexOk(k) && Enabled(k, e)
    requires e.ScanBlocked? || e.TimerFires? || e.SwapDone? || e.TakeSuspended? || e.Unsuspended?
    ensures WhereIs(Step(k, e), pid) == WhereNext(k, e, pid) && MutexOk(Step(k, e))
  {
    hide Queue, Remove, PlacesBut, Sorts, Scan, RemoveBlocked, CpusOk, BlockedOk;
  }

  lemma FinishedWhere(k: Kernel, name: string, p: nat, pid: nat)
    requires KernelOk(k) && MutexOk(k) && name != "" && k.mutex == None
    ensures WhereIs(Finished(k, name, p), pid) == WhereIs(k, pid) && MutexOk(Finished(k, name, p))
  {
    hide Queue, Remove, Places, CpusOk, BlockedOk, FindFinished;
    FinishedBlocked(k, name, p);
  }

  lemma DumpedWhere(k: Kernel, p: nat, ok: bool, pid: nat)
    requires Places(k) && MutexOk(k) && p < |k.procs| && Waits(k.procs[p].state)
    ensures StateOf(Dumped(k, p, ok), p) == (if ok then READY else EXIT) && Dumped(k, p, ok).mutex == k.mutex
    ensures k.mutex != Some(p) ==>
              WhereIs(Dumped(k, p, ok), pid) == if p != pid then WhereIs(k, pid) else if ok then InMemory else Nowhere
    ensures MutexOk(Dumped(k, p, ok)) <==> k.mutex != Some(p)
  {
    hide Queue, Remove, PlacesBut, RemoveBlocked;
    InPlace(k, Held(k), k.procs[p].state, p);
  }

  lemma DeviceWhere(k: Kernel, e: Event, pid: nat)
    requires KernelOk(k) && MutexOk(k) && Enabled(k, e) && DumpOnTime(k, e)
    requires e.DeviceFree? || e.IOFinished? || e.IOArrives? || e.DumpDone?
    ensures WhereIs(Step(k, e), pid) == WhereNext(k, e, pid) && MutexOk(Step(k, e))
  {
    hide Queue, Remove, CpusOk, BlockedOk, Finished, Dumped, FindWaiting;
    match e
    case DeviceFree(_) =>
    case IOFinished(name, p) => FinishedWhere(k, name, p, pid);
    case IOArrives(_, _) =>
    case DumpDone(d, ok) =>
      OtherBlocked(k, e);
      var rest := k.(dumps := Without(k.dumps, d));
      SamePlaces(k, rest, Held(k));
      DumpedWhere(rest, k.dumps[d], ok, pid);
  }

  /** Every step moves pages only as the requests to memory do. */
  lemma StepWhere(k: Kernel, e: Event, pid: nat)
    requires KernelOk(k) && MutexOk(k) && Enabled(k, e) && DumpOnTime(k, e)
    ensures WhereIs(Step(k, e), pid) == WhereNext(k, e, pid) && MutexOk(Step(k, e))
  {
    hide KernelOk, Enabled, Step, WhereIs, WhereNext, MutexOk, DumpOnTime;
    if e.CreateProcess? || e.Search? || e.Admit? || e.ConnectCPU? || e.Dispatch? || e.Preempt? {
      ScheduleWhere(k, e, pid);
    } else if e.Result? || e.SyscallIO? || e.SyscallDump? || e.SyscallExit? {
      CpuWhere(k, e, pid);
    } else if e.DeviceFree? || e.IOFinished? || e.IOArrives? || e.DumpDone? {
      DeviceWhere(k, e, pid);
    } else {
      SwapWhere(k, e, pid);
    }
  }
}
