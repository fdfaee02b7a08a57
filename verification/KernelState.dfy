/** The kernel's process lifecycle as a step machine: queues, CPU slots, the blocked
    list, suspension timers and the mutex that guards suspensions. */
module KernelState {
  import opened Wrappers

  /** utils/pcb: the states of a process, one queue each. */
  datatype STATE = EXIT | NEW | READY | EXEC | BLOCKED | SUSP_BLOCKED | SUSP_READY

  /** What the kernel keeps of a process; a process is known by its pid. */
  datatype Process = Process(state: STATE, size: nat, estimatedBurst: int, timerRunning: bool)

  datatype Blocked = Blocked(pid: nat, name: string, time: int, working: bool)

  datatype Device = Device(name: string, disp: bool)

  /** procs by pid; cpus by the pid they hold; timers and dumps are the pids of the
      goroutines that wait; mutex is whose suspension holds UnsuspendMutex; hand is
      the process that MTS took from SUSP_READY and is asking memory for. */
  datatype Kernel = Kernel(procs: seq<Process>, queues: map<STATE, seq<nat>>, cpus: seq<Option<nat>>,
                           mts: seq<Blocked>, devices: seq<Device>, timers: seq<nat>, dumps: seq<nat>,
                           mutex: Option<nat>, hand: Option<nat>, total: nat)

  datatype SortBy = Size | EstimatedBurst | NoSort

  // ---- Queues

  function Queue(k: Kernel, s: STATE): seq<nat> { if s in k.queues then k.queues[s] else [] }

  function StateOf(k: Kernel, pid: nat): STATE { if pid < |k.procs| then k.procs[pid].state else EXIT }

  /** The queue without the first occurrence of pid. */
  function Remove(q: seq<nat>, pid: nat): seq<nat> {
    if q == [] then [] else if q[0] == pid then q[1..] else [q[0]] + Remove(q[1..], pid)
  }

  function SetQueue(k: Kernel, s: STATE, q: seq<nat>): Kernel { k.(queues := k.queues[s := q]) }

  /** RemoveByPID. */
  function RemoveByPID(k: Kernel, s: STATE, pid: nat): Kernel { SetQueue(k, s, Remove(Queue(k, s), pid)) }

  function SetState(k: Kernel, pid: nat, s: STATE): Kernel
    requires pid < |k.procs|
  {
    k.(procs := k.procs[pid := k.procs[pid].(state := s)])
  }

  /** Enqueue: the state changes with the queue. */
  function Enqueue(k: Kernel, s: STATE, pid: nat): Kernel
    requires pid < |k.procs|
  {
    SetState(SetQueue(k, s, Queue(k, s) + [pid]), pid, s)
  }

  /** A process goes from the queue its state names to another. */
  function Move(k: Kernel, pid: nat, s: STATE): Kernel
    requires pid < |k.procs|
  {
    Enqueue(RemoveByPID(k, k.procs[pid].state, pid), s, pid)
  }

  function Key(p: Process, sortBy: SortBy): int {
    match sortBy case Size => p.size case EstimatedBurst => p.estimatedBurst case NoSort => 0
  }

  /** order is queue after sort.Slice, which need not be stable. */
  ghost predicate Sorts(procs: seq<Process>, queue: seq<nat>, sortBy: SortBy, order: seq<nat>) {
    if sortBy == NoSort || |queue| < 2 then order == queue
    else
      && multiset(order) == multiset(queue)
      && forall i, j :: 0 <= i < j < |order| && order[i] < |procs| && order[j] < |procs| ==>
           Key(procs[order[i]], sortBy) <= Key(procs[order[j]], sortBy)
  }

  // ---- CPUs, the blocked list, devices

  /** FreeCPU: every slot that holds the process. */
  function FreeCPU(k: Kernel, pid: nat): Kernel {
    k.(cpus := seq(|k.cpus|, i requires 0 <= i < |k.cpus| => if k.cpus[i] == Some(pid) then None else k.cpus[i]))
  }

  /** The first free slot, or the end. */
  function FreeSlot(cpus: seq<Option<nat>>): (i: nat)
    ensures i <= |cpus| && (i < |cpus| ==> cpus[i] == None)
    ensures forall j :: 0 <= j < i ==> cpus[j].Some?
  {
    if cpus == [] || cpus[0] == None then 0 else 1 + FreeSlot(cpus[1..])
  }

  /** The blocked list without the first entry of the process. */
  function RemoveBlocked(mts: seq<Blocked>, pid: nat): seq<Blocked> {
    if mts == [] then [] else if mts[0].pid == pid then mts[1..] else [mts[0]] + RemoveBlocked(mts[1..], pid)
  }

  /** The first entry for a finished IO, or the end. */
  function FindFinished(mts: seq<Blocked>, name: string, pid: nat): (i: nat)
    ensures i <= |mts| && (i < |mts| ==> mts[i].name == name && mts[i].pid == pid)
    ensures forall j :: 0 <= j < i ==> !(mts[j].name == name && mts[j].pid == pid)
  {
    if mts == [] || (mts[0].name == name && mts[0].pid == pid) then 0 else 1 + FindFinished(mts[1..], name, pid)
  }

  /** The first entry that waits for a device of that name, or the end. */
  function FindWaiting(mts: seq<Blocked>, name: string): (i: nat)
    ensures i <= |mts| && (i < |mts| ==> mts[i].name == name && !mts[i].working)
    ensures forall j :: 0 <= j < i ==> !(mts[j].name == name && !mts[j].working)
  {
    if mts == [] || (mts[0].name == name && !mts[0].working) then 0 else 1 + FindWaiting(mts[1..], name)
  }

  /** The first free device of that name, or the end. */
  function FindDevice(devices: seq<Device>, name: string): (i: nat)
    ensures i <= |devices| && (i < |devices| ==> devices[i].name == name && devices[i].disp)
    ensures forall j :: 0 <= j < i ==> !(devices[j].name == name && devices[j].disp)
  {
    if devices == [] || (devices[0].name == name && devices[0].disp) then 0 else 1 + FindDevice(devices[1..], name)
  }

  predicate HasDevice(devices: seq<Device>, name: string) { exists i :: 0 <= i < |devices| && devices[i].name == name }

  function SetTimer(k: Kernel, pid: nat, running: bool): Kernel
    requires pid < |k.procs|
  {
    k.(procs := k.procs[pid := k.procs[pid].(timerRunning := running)])
  }

  /** Whether the MTS scan starts a timer for an entry. */
  predicate Starts(k: Kernel, b: Blocked) {
    b.pid < |k.procs| && !k.procs[b.pid].timerRunning && k.procs[b.pid].state == BLOCKED
  }

  /** The MTS scan over the first n entries. */
  function Scan(k: Kernel, n: nat): (r: Kernel)
    requires n <= |k.mts|
    ensures r == k.(procs := r.procs, timers := r.timers) && |r.procs| == |k.procs|
    ensures forall p :: 0 <= p < |k.procs| ==> r.procs[p] == k.procs[p].(timerRunning := r.procs[p].timerRunning)
  {
    if n == 0 then k
    else
      var before, b := Scan(k, n - 1), k.mts[n - 1];
      if Starts(before, b) then SetTimer(before.(timers := before.timers + [b.pid]), b.pid, true) else before
  }

  // ---- Steps

  datatype Reason = Interrupt | Exit

  /** What can happen; the choices that the program leaves to time, to other
      machines or to an unstable sort are in the event. */
  datatype Event =
    | CreateProcess(size: nat)
    | Search(queue: STATE, sortBy: SortBy, order: seq<nat>)
    | Admit(pid: nat, code: seq<seq<string>>, ok: bool)
    | ConnectCPU
    | Dispatch(sortBy: SortBy, order: seq<nat>, ok: bool)
    | Preempt(cpu: nat, pid: nat, ok: bool)
    | Result(pid: nat, reason: Reason, burst: int)
    | SyscallIO(cpu: nat, name: string, time: int, burst: int)
    | SyscallDump(cpu: nat, burst: int)
    | SyscallExit(cpu: nat)
    | ScanBlocked
    | TimerFires(timer: nat)
    | SwapDone
    | TakeSuspended(sortBy: SortBy, order: seq<nat>)
    | Unsuspended(ok: bool)
    | DeviceFree(device: nat)
    | IOFinished(name: string, pid: nat)
    | IOArrives(device: nat, name: string)
    | DumpDone(dump: nat, ok: bool)

  /** When an event can happen. The order of a queue is one that its sort can give;
      a system call comes from a CPU that runs its process; the STS preempts a CPU
      once that CPU has given up its process; the mutex admits one at a time. */
  ghost predicate Enabled(k: Kernel, e: Event) {
    match e
    case CreateProcess(_) => true
    case Search(s, sortBy, order) => (s == NEW || s == READY) && Sorts(k.procs, Queue(k, s), sortBy, order)
    case Admit(pid, _, _) => pid in Queue(k, NEW)
    case ConnectCPU => true
    case Dispatch(sortBy, order, _) => FreeSlot(k.cpus) < |k.cpus| && order != []
      && Sorts(k.procs, Queue(k, READY), sortBy, order)
    case Preempt(cpu, pid, _) => cpu < |k.cpus| && !Runs(k, cpu) && pid in Queue(k, READY)
    case Result(_, _, _) => true
    case SyscallIO(cpu, _, _, _) => Runs(k, cpu)
    case SyscallDump(cpu, _) => Runs(k, cpu)
    case SyscallExit(cpu) => Runs(k, cpu)
    case ScanBlocked => true
    case TimerFires(t) => t < |k.timers| && k.mutex == None
    case SwapDone => k.mutex != None
    case TakeSuspended(sortBy, order) => k.hand == None && order != []
      && Sorts(k.procs, Queue(k, SUSP_READY), sortBy, order)
    case Unsuspended(_) => k.hand != None
    case DeviceFree(d) => d < |k.devices|
    case IOFinished(name, _) => name != "" && k.mutex == None
    case IOArrives(d, name) => d <= |k.devices| && name != "" && (d < |k.devices| ==> k.devices[d].name == name)
    case DumpDone(d, _) => d < |k.dumps|
  }

  /** The slot holds a process that is executing. */
  predicate Runs(k: Kernel, cpu: nat) {
    cpu < |k.cpus| && k.cpus[cpu].Some? && k.cpus[cpu].value < |k.procs| && k.procs[k.cpus[cpu].value].state == EXEC
  }

  /** newProcess and HandleNewProcess. */
  function Created(k: Kernel, size: nat): Kernel {
    Enqueue(k.(procs := k.procs + [Process(NEW, size, 0, false)], total := k.total + 1), NEW, |k.procs|)
  }

  /** sendToExecute to a slot: the process runs there, or is READY again. */
  function SendToExecute(k: Kernel, pid: nat, cpu: nat, ok: bool): Kernel
    requires pid < |k.procs| && cpu < |k.cpus|
  {
    var sent := Enqueue(k, EXEC, pid).(cpus := k.cpus[cpu := Some(pid)]);
    if ok then sent else Move(sent, pid, READY).(cpus := k.cpus[cpu := None])
  }

  /** HandleReason for a process that is executing. */
  function Stopped(k: Kernel, pid: nat, burst: int, s: STATE): Kernel
    requires pid < |k.procs|
  {
    Move(FreeCPU(k.(procs := k.procs[pid := k.procs[pid].(estimatedBurst := burst)]), pid), pid, s)
  }

  /** A process goes to BLOCKED, with an entry in the blocked list. */
  function BlockOn(k: Kernel, pid: nat, burst: int, b: Blocked): Kernel
    requires pid < |k.procs|
  {
    var stopped := Stopped(k, pid, burst, BLOCKED);
    SetTimer(stopped.(mts := stopped.mts + [b]), pid, false)
  }

  /** The IO system call: without a device of that name the process ends, and its
      CPU keeps holding it. */
  function RequestIO(k: Kernel, pid: nat, name: string, time: int, burst: int): Kernel
    requires pid < |k.procs|
  {
    if !HasDevice(k.devices, name) then Move(k, pid, EXIT)
    else
      var d := FindDevice(k.devices, name);
      var taken := if d < |k.devices| then k.(devices := k.devices[d := k.devices[d].(disp := false)]) else k;
      BlockOn(taken, pid, burst, Blocked(pid, name, time, d < |k.devices|))
  }

  /** sendToWait once the timer is over, up to the request to memory. */
  function Expired(k: Kernel, pid: nat): Kernel {
    if pid < |k.procs| && k.procs[pid].state == BLOCKED && pid in Queue(k, BLOCKED) then
      SetTimer(Move(k, pid, SUSP_BLOCKED), pid, false).(mutex := Some(pid))
    else k
  }

  /** handleIOFinished once it has the mutex. */
  function Finished(k: Kernel, name: string, pid: nat): Kernel {
    var i := FindFinished(k.mts, name, pid);
    if i == |k.mts| || pid >= |k.procs| then k
    else
      var found := k.(mts := Without(k.mts, i));
      if k.procs[pid].state == SUSP_BLOCKED then Move(found, pid, SUSP_READY)
      else if k.procs[pid].state == BLOCKED then Move(found, pid, READY)
      else found
  }

  /** recieveIO: a device, new or known, takes the first process that waits for its name. */
  function Arrived(k: Kernel, d: nat, name: string): Kernel
    requires d <= |k.devices|
  {
    var known := if d == |k.devices| then k.(devices := k.devices + [Device(name, true)]) else k;
    var i := FindWaiting(k.mts, name);
    if i == |k.mts| then known
    else
      known.(devices := known.devices[d := known.devices[d].(disp := false)],
             mts := k.mts[i := k.mts[i].(working := true)])
  }

  /** The end of DUMP_MEMORY's goroutine. */
  function Dumped(k: Kernel, pid: nat, ok: bool): Kernel {
    if pid >= |k.procs| || pid !in Queue(k, k.procs[pid].state) then k
    else if ok then Move(k, pid, READY).(mts := RemoveBlocked(k.mts, pid))
    else Move(k, pid, EXIT)
  }

  /** One step. */
  ghost function Step(k: Kernel, e: Event): Kernel
    requires Enabled(k, e)
  {
    match e
    case CreateProcess(size) => Created(k, size)
    case Search(s, _, order) => SetQueue(k, s, order)
    case Admit(pid, _, ok) => if ok && pid < |k.procs| then Move(k, pid, READY) else k
    case ConnectCPU => k.(cpus := k.cpus + [None])
    case Dispatch(_, order, ok) =>
      if order[0] < |k.procs| then SendToExecute(SetQueue(k, READY, order[1..]), order[0], FreeSlot(k.cpus), ok) else k
    case Preempt(cpu, pid, ok) =>
      if pid < |k.procs| then SendToExecute(RemoveByPID(k, READY, pid), pid, cpu, ok) else k
    case Result(pid, reason, burst) =>
      if pid < |k.procs| && pid in Queue(k, EXEC)
      then Stopped(k, pid, burst, if reason == Interrupt then READY else EXIT)
      else k
    case SyscallIO(cpu, name, time, burst) => RequestIO(k, k.cpus[cpu].value, name, time, burst)
    case SyscallDump(cpu, burst) =>
      var pid := k.cpus[cpu].value;
      var blocked := BlockOn(k, pid, burst, Blocked(pid, "", 0, true));
      blocked.(dumps := blocked.dumps + [pid])
    case SyscallExit(cpu) => FreeCPU(Move(k, k.cpus[cpu].value, EXIT), k.cpus[cpu].value)
    case ScanBlocked => Scan(k, |k.mts|)
    case TimerFires(t) => Expired(k.(timers := Without(k.timers, t)), k.timers[t])
    case SwapDone => k.(mutex := None)
    case TakeSuspended(_, order) => SetQueue(k, SUSP_READY, order[1..]).(hand := Some(order[0]))
    case Unsuspended(ok) =>
      var pid := k.hand.value;
      if pid >= |k.procs| then k
      else if ok then Enqueue(k.(mts := RemoveBlocked(k.mts, pid), hand := None), READY, pid)
      else Enqueue(k.(hand := None), SUSP_READY, pid)
    case DeviceFree(d) => k.(devices := k.devices[d := k.devices[d].(disp := true)])
    case IOFinished(name, pid) => Finished(k, name, pid)
    case IOArrives(d, name) => Arrived(k, d, name)
    case DumpDone(d, ok) => Dumped(k.(dumps := Without(k.dumps, d)), k.dumps[d], ok)
  }
}
