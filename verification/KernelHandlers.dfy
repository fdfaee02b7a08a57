/** The kernel's handlers and scheduling loops, one turn each: every one makes its
    step, and so keeps what every step keeps. */
module KernelHandlers {
  import opened Wrappers
  import opened KernelState
  import opened KernelRuns
  import opened KernelPlaces
  import opened KernelBlocked
  import opened KernelGlobals
  import KernelEffects

  // ---- process_shared.go

  /** CreateProcess, newProcess, getNextPID and HandleNewProcess. */
  method CreateProcess(g: Globals, size: nat)
    requires g.Valid()
    modifies g
    ensures g.Valid() && g.State() == Step(old(g.State()), Event.CreateProcess(size))
  {
    hide KernelOk, Queue;
    ghost var was := g.State();
    StepKeeps(was, Event.CreateProcess(size));
    var pid := g.nextPID;
    g.nextPID := g.nextPID + 1;
    g.procs := g.procs + [KernelState.Process(NEW, size, 0, false)];
    g.total := g.total + 1;
    g.Enqueue(NEW, pid);
  }

  /** TryInititializeProcess; ok is what memory answered. */
  method TryInititializeProcess(g: Globals, pid: nat, code: seq<seq<string>>, ok: bool)
    requires g.Valid() && Enabled(g.State(), Admit(pid, code, ok))
    modifies g
    ensures g.Valid() && g.State() == Step(old(g.State()), Admit(pid, code, ok))
  {
    hide KernelOk, Queue, Remove;
    ghost var was := g.State();
    StepKeeps(was, Admit(pid, code, ok));
    if !ok {
      return;
    }
    PlacedIn(was, NEW, pid);
    var found := g.RemoveByPID(NEW, pid);
    g.Enqueue(READY, pid);
  }

  lemma PlacedIn(k: Kernel, s: STATE, pid: nat)
    requires KernelOk(k)
    ensures pid in Queue(k, s) <==> pid < |k.procs| && k.hand != Some(pid) && k.procs[pid].state == s
  {
    hide KernelCpus.CpusOk, BlockedOk, PlacesBut;
    InPlace(k, Held(k), s, pid);
  }

  // ---- scheduler.go

  method ReceiveCPU(g: Globals)
    requires g.Valid()
    modifies g`cpus
    ensures g.Valid() && g.State() == Step(old(g.State()), ConnectCPU)
  {
    hide KernelOk;
    StepKeeps(g.State(), ConnectCPU);
    g.cpus := g.cpus + [None];
  }

  /** sendToExecute; ok says whether the CPU took the process. */
  method SendToExecute(g: Globals, pid: nat, cpu: nat, ok: bool)
    requires pid < |g.procs| && cpu < |g.cpus| && g.procs[pid].state != EXIT
    modifies g`procs, g`queues, g`cpus
    ensures g.State() == KernelState.SendToExecute(old(g.State()), pid, cpu, ok) && |g.procs| == |old(g.procs)|
    ensures pid !in old(Queue(g.State(), EXEC)) ==> KernelEffects.Sent(old(g.State()), g.State(), pid, cpu, ok)
  {
    hide Queue, Remove, KernelEffects.Sent;
    if pid !in Queue(g.State(), EXEC) {
      KernelEffects.SendSent(g.State(), pid, cpu, ok);
    }
    if g.procs[pid].state == EXIT {
      return;
    }
    g.Enqueue(EXEC, pid);
    g.cpus := g.cpus[cpu := Some(pid)];
    if !ok {
      Enqueued(old(g.State()), EXEC, pid, g.cpus);
      var found := g.RemoveByPID(g.procs[pid].state, pid);
      g.Enqueue(READY, pid);
      g.cpus := g.cpus[cpu := None];
    }
  }

  lemma Enqueued(k: Kernel, s: STATE, pid: nat, cpus: seq<Option<nat>>)
    requires pid < |k.procs|
    ensures pid in Queue(KernelState.Enqueue(k, s, pid).(cpus := cpus), s)
  {
  }

  /** A turn of STS with a CPU available. */
  method DispatchNext(g: Globals, sortBy: SortBy, sorted: seq<nat>, ok: bool)
    requires g.Valid() && Enabled(g.State(), Dispatch(sortBy, sorted, ok))
    modifies g
    ensures g.Valid() && g.State() == Step(old(g.State()), Dispatch(sortBy, sorted, ok))
  {
    hide KernelOk, Queue, Remove, Sorts;
    ghost var was := g.State();
    StepKeeps(was, Dispatch(sortBy, sorted, ok));
    FirstReady(was, sortBy, sorted);
    var available := g.IsCPUAvailable();
    if available {
      var cpu := g.GetAvailableCPU();
      var pid := g.Dequeue(READY, sortBy, sorted);
      if pid.Some? {
        SendToExecute(g, pid.value, cpu, ok);
      }
    }
  }

  lemma FirstReady(k: Kernel, sortBy: SortBy, sorted: seq<nat>)
    requires KernelOk(k) && Sorts(k.procs, Queue(k, READY), sortBy, sorted) && sorted != []
    ensures sorted[0] < |k.procs| && k.procs[sorted[0]].state == READY
  {
    hide KernelCpus.CpusOk, BlockedOk, PlacesBut;
    SortPlaces(k, Held(k), READY, sortBy, sorted);
  }

  /** A turn of STS that preempts a CPU, once the interrupt is answered. */
  method PreemptFor(g: Globals, cpu: nat, pid: nat, ok: bool)
    requires g.Valid() && Enabled(g.State(), Preempt(cpu, pid, ok))
    modifies g
    ensures g.Valid() && g.State() == Step(old(g.State()), Preempt(cpu, pid, ok))
  {
    hide KernelOk, Queue, Remove;
    ghost var was := g.State();
    StepKeeps(was, Preempt(cpu, pid, ok));
    PlacedIn(was, READY, pid);
    var found := g.RemoveByPID(READY, pid);
    if found {
      SendToExecute(g, pid, cpu, ok);
    }
  }

  /** The MTS scan that starts a timer for every blocked process without one. */
  method ScanBlockedList(g: Globals)
    requires g.Valid()
    modifies g`procs, g`timers
    ensures g.Valid() && g.State() == Step(old(g.State()), ScanBlocked)
  {
    hide KernelOk, Queue, Scan;
    ghost var was := g.State();
    StepKeeps(was, ScanBlocked);
    EntriesBelow(was);
    ScanFirst(was, 0);
    for i := 0 to |g.mts|
      invariant g.State() == Scan(was, i) && |g.procs| == |was.procs|
    {
      ScanFirst(was, i + 1);
      var b := g.mts[i];
      if !g.procs[b.pid].timerRunning && g.procs[b.pid].state == BLOCKED {
        g.procs := g.procs[b.pid := g.procs[b.pid].(timerRunning := true)];
        g.timers := g.timers + [b.pid];
      }
    }
  }

  /** One entry of the scan. */
  lemma ScanFirst(k: Kernel, n: nat)
    requires n <= |k.mts|
    ensures n == 0 ==> Scan(k, n) == k
    ensures n > 0 ==> (
              var before, b := Scan(k, n - 1), k.mts[n - 1];
              Scan(k, n) == if Starts(before, b)
                            then SetTimer(before.(timers := before.timers + [b.pid]), b.pid, true)
                            else before)
  {
  }

  lemma EntriesBelow(k: Kernel)
    requires KernelOk(k)
    ensures forall i :: 0 <= i < |k.mts| ==> k.mts[i].pid < |k.procs|
  {
    hide Places, KernelCpus.CpusOk;
  }

  /** sendToWait when its time is over: takes the mutex if the process still waits. */
  method SendToWait(g: Globals, timer: nat)
    requires g.Valid() && Enabled(g.State(), TimerFires(timer))
    modifies g
    ensures g.Valid() && g.State() == Step(old(g.State()), TimerFires(timer))
  {
    hide KernelOk, Queue, Remove;
    ghost var was := g.State();
    StepKeeps(was, TimerFires(timer));
    var pid := g.timers[timer];
    g.timers := g.timers[..timer] + g.timers[timer + 1..];
    if pid >= |g.procs| || g.procs[pid].state != BLOCKED {
      SameQueue(was, g.State(), BLOCKED);
      return;
    }
    SameQueue(was, g.State(), BLOCKED);
    var found := g.RemoveByPID(BLOCKED, pid);
    if !found {
      return;
    }
    g.Enqueue(SUSP_BLOCKED, pid);
    g.procs := g.procs[pid := g.procs[pid].(timerRunning := false)];
    g.mutex := Some(pid);
  }

  lemma SameQueue(a: Kernel, b: Kernel, s: STATE)
    ensures a.queues == b.queues ==> Queue(a, s) == Queue(b, s)
  {
  }

  /** RequestSuspend has its answer; the mutex is released. */
  method SuspendAnswered(g: Globals)
    requires g.Valid() && Enabled(g.State(), SwapDone)
    modifies g`mutex
    ensures g.Valid() && g.State() == Step(old(g.State()), SwapDone)
  {
    hide KernelOk;
    StepKeeps(g.State(), SwapDone);
    g.mutex := None;
  }

  /** MTS takes a suspended process to bring it back. */
  method TakeSuspendedReady(g: Globals, sortBy: SortBy, sorted: seq<nat>)
    requires g.Valid() && Enabled(g.State(), TakeSuspended(sortBy, sorted))
    modifies g
    ensures g.Valid() && g.State() == Step(old(g.State()), TakeSuspended(sortBy, sorted))
  {
    hide KernelOk, Queue, Sorts;
    StepKeeps(g.State(), TakeSuspended(sortBy, sorted));
    g.hand := g.Dequeue(SUSP_READY, sortBy, sorted);
  }

  /** MTS has memory's answer. */
  method UnsuspendAnswered(g: Globals, ok: bool)
    requires g.Valid() && Enabled(g.State(), Unsuspended(ok))
    modifies g
    ensures g.Valid() && g.State() == Step(old(g.State()), Unsuspended(ok))
  {
    hide KernelOk, Queue, RemoveBlocked;
    ghost var was := g.State();
    StepKeeps(was, Unsuspended(ok));
    HandBelow(was);
    var pid := g.hand.value;
    g.hand := None;
    if ok {
      g.RemoveBlockedByPID(pid);
      g.Enqueue(READY, pid);
    } else {
      g.Enqueue(SUSP_READY, pid);
    }
  }

  lemma HandBelow(k: Kernel)
    requires KernelOk(k)
    ensures k.hand.Some? ==> k.hand.value < |k.procs|
  {
    hide KernelCpus.CpusOk, BlockedOk, PlacesBut;
  }

  // ---- kernel_api.go

  /** HandleReason: nothing happens when the process is not executing. */
  method HandleReason(g: Globals, pid: nat, reason: Reason, burst: int)
    requires g.Valid()
    modifies g
    ensures g.Valid() && g.State() == Step(old(g.State()), Result(pid, reason, burst))
  {
    hide KernelOk, Remove;
    ghost var was := g.State();
    StepKeeps(was, Result(pid, reason, burst));
    PlacedIn(was, EXEC, pid);
    var found := g.RemoveByPID(EXEC, pid);
    if !found {
      return;
    }
    g.FreeCPU(pid);
    g.procs := g.procs[pid := g.procs[pid].(estimatedBurst := burst)];
    match reason {
      case Interrupt => g.Enqueue(READY, pid);
      case Exit => g.Enqueue(EXIT, pid);
    }
  }

  /** What the IO and DUMP_MEMORY calls share: the process leaves its CPU and
      waits, with an entry in the blocked list. */
  method BlockProcess(g: Globals, pid: nat, burst: int, b: Blocked)
    requires pid < |g.procs| && pid in Queue(g.State(), g.procs[pid].state)
    modifies g`procs, g`queues, g`cpus, g`mts
    ensures g.State() == BlockOn(old(g.State()), pid, burst, b) && |g.procs| == |old(g.procs)|
  {
    hide Remove;
    var found := g.RemoveByPID(g.procs[pid].state, pid);
    g.FreeCPU(pid);
    g.procs := g.procs[pid := g.procs[pid].(estimatedBurst := burst)];
    g.Enqueue(BLOCKED, pid);
    g.procs := g.procs[pid := g.procs[pid].(timerRunning := false)];
    g.mts := g.mts + [b];
  }

  /** The scan for a device of that name, and for a free one. */
  method SelectDevice(g: Globals, name: string) returns (known: bool, device: nat)
    ensures known <==> HasDevice(g.devices, name)
    ensures device == FindDevice(g.devices, name)
  {
    known, device := false, |g.devices|;
    for i := 0 to |g.devices|
      invariant known <==> exists j :: 0 <= j < i && g.devices[j].name == name
      invariant device == |g.devices| || (device < i && g.devices[device].name == name && g.devices[device].disp)
      invariant forall j :: 0 <= j < i && j < device ==> !(g.devices[j].name == name && g.devices[j].disp)
    {
      if g.devices[i].name == name {
        known := true;
        if g.devices[i].disp && device == |g.devices| {
          device := i;
        }
      }
    }
  }

  /** The IO system call. */
  method SyscallIOCall(g: Globals, cpu: nat, name: string, time: int, burst: int)
    requires g.Valid() && Enabled(g.State(), SyscallIO(cpu, name, time, burst))
    modifies g
    ensures g.Valid() && g.State() == Step(old(g.State()), SyscallIO(cpu, name, time, burst))
  {
    hide KernelOk, Queue, Remove, HasDevice, FindDevice;
    ghost var was := g.State();
    StepKeeps(was, SyscallIO(cpu, name, time, burst));
    var pid := g.cpus[cpu].value;
    RunningPlaced(was, cpu);
    var known, device := SelectDevice(g, name);
    if !known {
      var found := g.RemoveByPID(g.procs[pid].state, pid);
      g.Enqueue(EXIT, pid);
      return;
    }
    if device < |g.devices| {
      g.devices := g.devices[device := g.devices[device].(disp := false)];
    }
    SameQueue(was, g.State(), g.procs[pid].state);
    BlockProcess(g, pid, burst, KernelState.Blocked(pid, name, time, device < |g.devices|));
  }

  lemma RunningPlaced(k: Kernel, cpu: nat)
    requires KernelOk(k) && Runs(k, cpu)
    ensures k.cpus[cpu].value in Queue(k, EXEC)
  {
    hide KernelCpus.CpusOk, BlockedOk, PlacesBut;
    InPlace(k, Held(k), EXEC, k.cpus[cpu].value);
  }

  /** The DUMP_MEMORY system call, up to the start of its goroutine. */
  method SyscallDumpCall(g: Globals, cpu: nat, burst: int)
    requires g.Valid() && Enabled(g.State(), SyscallDump(cpu, burst))
    modifies g
    ensures g.Valid() && g.State() == Step(old(g.State()), SyscallDump(cpu, burst))
  {
    hide KernelOk, Queue, Remove;
    ghost var was := g.State();
    StepKeeps(was, SyscallDump(cpu, burst));
    var pid := g.cpus[cpu].value;
    RunningPlaced(was, cpu);
    BlockProcess(g, pid, burst, KernelState.Blocked(pid, "", 0, true));
    g.dumps := g.dumps + [pid];
  }

  /** The EXIT system call. */
  method SyscallExitCall(g: Globals, cpu: nat)
    requires g.Valid() && Enabled(g.State(), SyscallExit(cpu))
    modifies g
    ensures g.Valid() && g.State() == Step(old(g.State()), SyscallExit(cpu))
  {
    hide KernelOk, Queue, Remove;
    ghost var was := g.State();
    StepKeeps(was, SyscallExit(cpu));
    var pid := g.cpus[cpu].value;
    RunningPlaced(was, cpu);
    var found := g.RemoveByPID(g.procs[pid].state, pid);
    g.Enqueue(EXIT, pid);
    g.FreeCPU(pid);
  }

  /** The end of DUMP_MEMORY's goroutine. */
  method DumpFinished(g: Globals, dump: nat, ok: bool)
    requires g.Valid() && Enabled(g.State(), DumpDone(dump, ok))
    modifies g
    ensures g.Valid() && g.State() == Step(old(g.State()), DumpDone(dump, ok))
  {
    hide KernelOk, Remove, RemoveBlocked;
    ghost var was := g.State();
    StepKeeps(was, DumpDone(dump, ok));
    DumpBelow(was, dump);
    var pid := g.dumps[dump];
    g.dumps := g.dumps[..dump] + g.dumps[dump + 1..];
    SameQueue(was, g.State(), g.procs[pid].state);
    var found := g.RemoveByPID(g.procs[pid].state, pid);
    if !found {
      return;
    }
    if ok {
      g.RemoveBlockedByPID(pid);
      g.Enqueue(READY, pid);
    } else {
      g.Enqueue(EXIT, pid);
    }
  }

  lemma DumpBelow(k: Kernel, d: nat)
    requires KernelOk(k) && d < |k.dumps|
    ensures k.dumps[d] < |k.procs|
  {
    hide Places, KernelCpus.CpusOk;
  }

  // ---- kernel.go

  /** The device is free again, before handleIOFinished has the mutex. */
  method DeviceReleased(g: Globals, device: nat)
    requires g.Valid() && Enabled(g.State(), DeviceFree(device))
    modifies g`devices
    ensures g.Valid() && g.State() == Step(old(g.State()), DeviceFree(device))
    ensures g.devices == old(g.devices)[device := Device(old(g.devices)[device].name, true)]
  {
    hide KernelOk;
    StepKeeps(g.State(), DeviceFree(device));
    g.devices := g.devices[device := g.devices[device].(disp := true)];
  }

  /** handleIOFinished with the mutex: the process that waited goes on. Entries are
      one per process, so the scan can stop at the first. */
  method HandleIOFinished(g: Globals, name: string, pid: nat)
    requires g.Valid() && Enabled(g.State(), IOFinished(name, pid))
    modifies g
    ensures g.Valid() && g.State() == Step(old(g.State()), IOFinished(name, pid))
    ensures KernelEffects.Wakes(old(g.State()), g.State(), name, pid)
  {
    hide KernelOk, Queue, Remove, FindFinished, KernelEffects.Wakes;
    ghost var was := g.State();
    KernelEffects.IOFinishedEffect(was, name, pid);
    StepKeeps(was, IOFinished(name, pid));
    WaiterPlaced(was, name, pid);
    var i := FindEntry(g, name, pid);
    if i == |g.mts| {
      return;
    }
    g.mts := g.mts[..i] + g.mts[i + 1..];
    SameQueue(was, g.State(), g.procs[pid].state);
    if g.procs[pid].state == SUSP_BLOCKED {
      var found := g.RemoveByPID(SUSP_BLOCKED, pid);
      g.Enqueue(SUSP_READY, pid);
    } else if g.procs[pid].state == BLOCKED {
      var found := g.RemoveByPID(BLOCKED, pid);
      g.Enqueue(READY, pid);
    }
  }

  /** The search of handleIOFinished in the blocked list. */
  method FindEntry(g: Globals, name: string, pid: nat) returns (i: nat)
    ensures i == FindFinished(g.mts, name, pid)
  {
    i := 0;
    while i < |g.mts| && !(g.mts[i].name == name && g.mts[i].pid == pid)
      invariant i <= |g.mts|
      invariant forall j :: 0 <= j < i ==> !(g.mts[j].name == name && g.mts[j].pid == pid)
    {
      i := i + 1;
    }
    FoundFirst(g.mts, name, pid, i);
  }

  lemma FoundFirst(mts: seq<Blocked>, name: string, pid: nat, i: nat)
    requires i <= |mts| && (i < |mts| ==> mts[i].name == name && mts[i].pid == pid)
    requires forall j :: 0 <= j < i ==> !(mts[j].name == name && mts[j].pid == pid)
    ensures FindFinished(mts, name, pid) == i
  {
  }

  lemma WaiterPlaced(k: Kernel, name: string, pid: nat)
    requires KernelOk(k) && name != ""
    ensures FindFinished(k.mts, name, pid) < |k.mts| ==>
              pid < |k.procs| && Waits(k.procs[pid].state) && pid in Queue(k, k.procs[pid].state)
  {
    hide KernelCpus.CpusOk, BlockedOk, PlacesBut, Queue;
    FinishedBlocked(k, name, pid);
    InPlace(k, Held(k), StateOf(k, pid), pid);
  }

  /** recieveIO: a device asks for work. */
  method RecieveIO(g: Globals, device: nat, name: string) returns (work: Option<nat>)
    requires g.Valid() && Enabled(g.State(), IOArrives(device, name))
    modifies g`devices, g`mts
    ensures g.Valid() && g.State() == Step(old(g.State()), IOArrives(device, name))
    ensures work.Some? <==> FindWaiting(old(g.mts), name) < |old(g.mts)|
    ensures work.Some? ==> work.value == old(g.mts)[FindWaiting(old(g.mts), name)].pid
    ensures work.Some? ==> device < |g.devices| && !g.devices[device].disp
    ensures work.Some? ==> exists i :: 0 <= i < |g.mts| && g.mts[i].pid == work.value && g.mts[i].working
  {
    hide KernelOk;
    ghost var was := g.State();
    StepKeeps(was, IOArrives(device, name));
    if device == |g.devices| {
      g.devices := g.devices + [KernelState.Device(name, true)];
    }
    var i := 0;
    while i < |g.mts| && !(g.mts[i].name == name && !g.mts[i].working)
      invariant i <= |g.mts| && forall j :: 0 <= j < i ==> !(g.mts[j].name == name && !g.mts[j].working)
    {
      i := i + 1;
    }
    if i == |g.mts| {
      return None;
    }
    g.devices := g.devices[device := g.devices[device].(disp := false)];
    g.mts := g.mts[i := g.mts[i].(working := true)];
    return Some(g.mts[i].pid);
  }
}
