/** Whole runs of the kernel: what every interleaving keeps. */
module KernelRuns {
  import opened Wrappers
  import opened KernelState
  import opened KernelPlaces
  import opened KernelCpus
  import opened KernelBlocked

  ghost predicate KernelOk(k: Kernel) { Places(k) && CpusOk(k) && BlockedOk(k) }

  /** The kernel before its first process. */
  function Start(): Kernel { Kernel([], map[], [], [], [], [], [], None, None, 0) }

  lemma StartOk()
    ensures KernelOk(Start())
  {
    forall s: STATE, p: nat ensures Count(Queue(Start(), s), p) == 0 {
      assert Queue(Start(), s) == [];
    }
  }

  lemma StepKeeps(k: Kernel, e: Event)
    requires KernelOk(k) && Enabled(k, e)
    ensures KernelOk(Step(k, e))
  {
    hide Places, CpusOk, BlockedOk, Step, Enabled;
    StepPlaces(k, e);
    if e.CreateProcess? || e.Search? || e.Admit? || e.ConnectCPU? || e.Dispatch? || e.Preempt? {
      ScheduleCpus(k, e);
      ScheduleBlocked(k, e);
    } else if e.Result? || e.SyscallIO? || e.SyscallDump? || e.SyscallExit? {
      CpuCpus(k, e);
      CpuBlocked(k, e);
    } else {
      OtherBlocked(k, e);
      OtherCpus(k, e);
    }
  }

  /** A run: every event can happen when it does. */
  ghost predicate CanRun(k: Kernel, run: seq<Event>)
    decreases |run|
  {
    run == [] || (Enabled(k, run[0]) && CanRun(Step(k, run[0]), run[1..]))
  }

  ghost function Run(k: Kernel, run: seq<Event>): Kernel
    requires CanRun(k, run)
    decreases |run|
  {
    if run == [] then k else Run(Step(k, run[0]), run[1..])
  }

  lemma {:induction false} RunKeeps(k: Kernel, run: seq<Event>)
    requires KernelOk(k) && CanRun(k, run)
    ensures KernelOk(Run(k, run))
    decreases |run|
  {
    hide KernelOk, Step, Enabled;
    if run != [] {
      StepKeeps(k, run[0]);
      RunKeeps(Step(k, run[0]), run[1..]);
    }
  }

  /** After any run from the start: a process stands once in the queue that its
      state names and in no other, except one that MTS holds, which stands in none;
      and the queues together hold every process ever created. */
  lemma EveryProcessInOneQueue(run: seq<Event>, pid: nat, s: STATE)
    requires CanRun(Start(), run)
    ensures var k := Run(Start(), run);
            && (pid < |k.procs| ==>
                  multiset(Queue(k, s))[pid] == if k.hand != Some(pid) && k.procs[pid].state == s then 1 else 0)
            && (pid >= |k.procs| ==> pid !in Queue(k, s))
            && |Queue(k, NEW)| + |Queue(k, READY)| + |Queue(k, EXEC)| + |Queue(k, BLOCKED)| + |Queue(k, SUSP_BLOCKED)|
               + |Queue(k, SUSP_READY)| + |Queue(k, EXIT)| + (if k.hand.Some? then 1 else 0) == k.total
  {
    hide Queue, Step, Enabled, CpusOk, BlockedOk, PlacesBut, Run;
    StartOk();
    RunKeeps(Start(), run);
    var k := Run(Start(), run);
    CountIn(k, Held(k), s, pid);
    assert multiset(Queue(k, s))[pid] == Count(Queue(k, s), pid);
    PlacesTotal(k);
  }

  /** After any run, an executing process is held by exactly one CPU, and a CPU
      holds nothing but executing or ended processes. */
  lemma ExecutingIsHeldOnce(run: seq<Event>, pid: nat)
    requires CanRun(Start(), run) && pid < |Run(Start(), run).procs|
    ensures var k := Run(Start(), run);
            && (k.procs[pid].state == EXEC ==> Some(pid) in k.cpus)
            && (Some(pid) in k.cpus ==> k.procs[pid].state in {EXEC, EXIT})
            && forall i, j :: 0 <= i < j < |k.cpus| && k.cpus[i] == Some(pid) ==> k.cpus[j] != Some(pid)
  {
    hide Queue, Step, Enabled, Places, BlockedOk, Run;
    StartOk();
    RunKeeps(Start(), run);
    var k := Run(Start(), run);
  }

  // ---- Why a CPU may hold an ended process

  /** CPUs hold executing processes only. */
  ghost predicate HoldsExec(k: Kernel) {
    forall i :: 0 <= i < |k.cpus| && k.cpus[i].Some? ==> StateOf(k, k.cpus[i].value) == EXEC
  }

  /** An IO call for a device that the kernel does not know. */
  predicate MissingDevice(k: Kernel, e: Event) { e.SyscallIO? && !HasDevice(k.devices, e.name) }

  lemma HoldsSame(k: Kernel, next: Kernel)
    requires CpusOk(k) && HoldsExec(k) && SameHolding(k, next)
    ensures HoldsExec(next)
  {
  }

  /** What happens to the slots when one process leaves its own. */
  lemma HoldsFreed(k: Kernel, next: Kernel, pid: nat)
    requires CpusOk(k) && HoldsExec(k) && pid < |k.procs| == |next.procs| && next.cpus == FreeCPU(k, pid).cpus
    requires forall p :: 0 <= p < |k.procs| && p != pid ==> next.procs[p].state == k.procs[p].state
    ensures HoldsExec(next)
  {
    forall i | 0 <= i < |next.cpus| && next.cpus[i].Some? ensures StateOf(next, next.cpus[i].value) == EXEC {
      assert next.cpus[i] == k.cpus[i] != Some(pid);
    }
  }

  lemma HoldsSent(k: Kernel, pid: nat, cpu: nat, ok: bool)
    requires CpusOk(k) && HoldsExec(k) && pid < |k.procs| && cpu < |k.cpus| && k.procs[pid].state == READY
    ensures HoldsExec(SendToExecute(k, pid, cpu, ok))
  {
    hide Queue, Remove;
    var next := SendToExecute(k, pid, cpu, ok);
    forall i | 0 <= i < |next.cpus| && next.cpus[i].Some? ensures StateOf(next, next.cpus[i].value) == EXEC {
      assert i != cpu ==> next.cpus[i] == k.cpus[i] && k.cpus[i].value != pid;
    }
  }

  lemma HoldsSchedule(k: Kernel, e: Event)
    requires KernelOk(k) && Enabled(k, e) && HoldsExec(k)
    requires e.CreateProcess? || e.Search? || e.Admit? || e.ConnectCPU? || e.Dispatch? || e.Preempt?
    ensures HoldsExec(Step(k, e))
  {
    hide Sorts, Queue, Remove, FreeSlot, PlacesBut, BlockedOk;
    var next := Step(k, e);
    match e
    case CreateProcess(size) => HoldsSame(k, next);
    case Search(s, sortBy, order) => HoldsSame(k, next);
    case Admit(pid, _, ok) =>
      InPlace(k, Held(k), NEW, pid);
      HoldsSame(k, next);
    case ConnectCPU =>
      assert forall i :: 0 <= i < |k.cpus| ==> next.cpus[i] == k.cpus[i];
    case Dispatch(sortBy, order, ok) =>
      SortPlaces(k, Held(k), READY, sortBy, order);
      var rest := SetQueue(k, READY, order[1..]);
      SameCpus(k, rest);
      HoldsSame(k, rest);
      HoldsSent(rest, order[0], FreeSlot(k.cpus), ok);
    case Preempt(cpu, pid, ok) =>
      InPlace(k, Held(k), READY, pid);
      var rest := RemoveByPID(k, READY, pid);
      SameCpus(k, rest);
      HoldsSame(k, rest);
      HoldsSent(rest, pid, cpu, ok);
  }

  lemma HoldsResult(k: Kernel, pid: nat, reason: Reason, burst: int)
    requires KernelOk(k) && HoldsExec(k)
    ensures HoldsExec(Step(k, Result(pid, reason, burst)))
  {
    hide Queue, Remove, PlacesBut, BlockedOk;
    InPlace(k, Held(k), EXEC, pid);
    if pid < |k.procs| && pid in Queue(k, EXEC) {
      HoldsFreed(k, Step(k, Result(pid, reason, burst)), pid);
    }
  }

  lemma HoldsCpu(k: Kernel, e: Event)
    requires KernelOk(k) && Enabled(k, e) && HoldsExec(k)
    requires e.Result? || e.SyscallIO? || e.SyscallDump? || e.SyscallExit?
    ensures HoldsExec(Step(k, e)) <==> !MissingDevice(k, e)
  {
    hide Queue, Remove, PlacesBut, HasDevice, FindDevice, BlockedOk;
    var next := Step(k, e);
    match e
    case Result(pid, reason, burst) => HoldsResult(k, pid, reason, burst);
    case SyscallIO(cpu, name, time, burst) =>
      if HasDevice(k.devices, name) {
        HoldsFreed(k, next, k.cpus[cpu].value);
      } else {
        assert next.cpus[cpu] == k.cpus[cpu] && StateOf(next, next.cpus[cpu].value) == EXIT;
      }
    case SyscallDump(cpu, burst) => HoldsFreed(k, next, k.cpus[cpu].value);
    case SyscallExit(cpu) => HoldsFreed(k, next, k.cpus[cpu].value);
  }

  lemma HoldsOther(k: Kernel, e: Event)
    requires KernelOk(k) && Enabled(k, e) && HoldsExec(k)
    requires e.ScanBlocked? || e.TimerFires? || e.SwapDone? || e.TakeSuspended? || e.Unsuspended? || e.DeviceFree?
        || e.IOFinished?
             || e.IOArrives? || e.DumpDone?
    ensures HoldsExec(Step(k, e))
  {
    hide Queue, Remove, PlacesBut, Sorts, Scan, RemoveBlocked, BlockedOk, FindFinished, FindWaiting, HoldsExec,
         CpusOk, Finished, Dumped;
    OtherBlocked(k, e);
    match e {
      case IOFinished(name, pid) => FinishedHolds(k, name, pid);
      case DumpDone(d, ok) => DumpedHolds(k.(dumps := Without(k.dumps, d)), k.dumps[d], ok);
      case _ =>
    }
    HoldsSame(k, Step(k, e));
  }

  lemma FinishedHolds(k: Kernel, name: string, pid: nat)
    ensures SameHolding(k, Finished(k, name, pid))
  {
    hide Queue, Remove, FindFinished;
  }

  lemma DumpedHolds(k: Kernel, pid: nat, ok: bool)
    requires Waits(StateOf(k, pid))
    ensures SameHolding(k, Dumped(k, pid, ok))
  {
    hide Queue, Remove, RemoveBlocked;
  }

  /** A step makes a CPU hold an ended process exactly when it is the IO call for a
      missing device, which does not free the CPU. */
  lemma EndedHeldIff(k: Kernel, e: Event)
    requires KernelOk(k) && Enabled(k, e) && HoldsExec(k)
    ensures HoldsExec(Step(k, e)) <==> !MissingDevice(k, e)
  {
    hide KernelOk, Enabled, HoldsExec, Step;
    if e.CreateProcess? || e.Search? || e.Admit? || e.ConnectCPU? || e.Dispatch? || e.Preempt? {
      HoldsSchedule(k, e);
    } else if e.Result? || e.SyscallIO? || e.SyscallDump? || e.SyscallExit? {
      HoldsCpu(k, e);
    } else {
      HoldsOther(k, e);
    }
  }
}
