/** What each event does to the kernel: the process that moves, the queue that it
    leaves and the end of the one that it joins, the slots, entries and devices, and
    that nothing else changes. */
module KernelEffects {
  import opened Wrappers
  import opened KernelState
  import opened KernelPlaces
  import opened KernelCpus
  import opened KernelBlocked
  import opened KernelRuns

  /** r is q without pid, the others in their order. */
  ghost predicate Left(q: seq<nat>, r: seq<nat>, pid: nat) {
    exists i :: 0 <= i < |q| && q[i] == pid && r == q[..i] + q[i + 1..]
  }

  /** What is kept of pid becomes p, and of every other process it stays. */
  ghost predicate Becomes(k: Kernel, next: Kernel, pid: nat, p: Process) {
    && pid < |k.procs| == |next.procs| && next.procs[pid] == p
    && forall q :: 0 <= q < |k.procs| && q != pid ==> next.procs[q] == k.procs[q]
  }

  /** pid alone leaves its queue and joins the end of the queue of its new state. */
  ghost predicate Goes(k: Kernel, next: Kernel, pid: nat, p: Process) {
    && Becomes(k, next, pid, p) && k.procs[pid].state != p.state
    && Left(Queue(k, k.procs[pid].state), Queue(next, k.procs[pid].state), pid)
    && Queue(next, p.state) == Queue(k, p.state) + [pid]
    && forall s: STATE :: s != k.procs[pid].state && s != p.state ==> Queue(next, s) == Queue(k, s)
  }

  /** Every slot that held pid is empty, and the others are as before. */
  ghost predicate Freed(k: Kernel, next: Kernel, pid: nat) {
    && |next.cpus| == |k.cpus|
    && forall i :: 0 <= i < |k.cpus| ==> next.cpus[i] == if k.cpus[i] == Some(pid) then None else k.cpus[i]
  }

  // ---- Queues

  lemma {:induction false} RemovedAt(q: seq<nat>, pid: nat) returns (i: nat)
    requires pid in q
    ensures i < |q| && q[i] == pid && Remove(q, pid) == q[..i] + q[i + 1..]
  {
    if q[0] == pid {
      i := 0;
    } else {
      i := RemovedAt(q[1..], pid);
      i := i + 1;
      assert q[..i] == [q[0]] + q[1..][..i - 1];
    }
  }

  lemma RemoveLeft(q: seq<nat>, pid: nat)
    requires pid in q
    ensures Left(q, Remove(q, pid), pid)
  {
    var i := RemovedAt(q, pid);
  }

  lemma {:induction false} RemoveLast(q: seq<nat>, pid: nat)
    requires pid !in q
    ensures Remove(q + [pid], pid) == q
  {
    if q != [] {
      assert (q + [pid])[1..] == q[1..] + [pid];
      RemoveLast(q[1..], pid);
    }
  }

  lemma MoveGoes(k: Kernel, pid: nat, s: STATE)
    requires pid < |k.procs| && pid in Queue(k, k.procs[pid].state) && k.procs[pid].state != s
    ensures var next := Move(k, pid, s);
            Goes(k, next, pid, k.procs[pid].(state := s)) && next == k.(procs := next.procs, queues := next.queues)
  {
    hide Left, Remove;
    RemoveLeft(Queue(k, k.procs[pid].state), pid);
  }

  /** Where a process stands. */
  lemma Stands(k: Kernel, s: STATE, pid: nat)
    requires KernelOk(k)
    ensures pid in Queue(k, s) <==> pid < |k.procs| && k.hand != Some(pid) && k.procs[pid].state == s
  {
    hide CpusOk, BlockedOk, PlacesBut;
    InPlace(k, Held(k), s, pid);
  }

  // ---- Scheduling

  /** A new process is the last of NEW, and counts. */
  lemma CreateEffect(k: Kernel, size: nat)
    ensures var next := Step(k, CreateProcess(size));
            && next == k.(procs := next.procs, queues := next.queues, total := k.total + 1)
            && next.procs == k.procs + [Process(NEW, size, 0, false)]
            && Queue(next, NEW) == Queue(k, NEW) + [|k.procs|]
            && forall s: STATE :: s != NEW ==> Queue(next, s) == Queue(k, s)
  {
  }

  /** Looking for the first of a queue sorts it, and that is all. */
  lemma SearchEffect(k: Kernel, s: STATE, sortBy: SortBy, order: seq<nat>)
    requires Enabled(k, Search(s, sortBy, order))
    ensures var next := Step(k, Search(s, sortBy, order));
            && next == k.(queues := next.queues)
            && Queue(next, s) == order && multiset(order) == multiset(Queue(k, s))
            && (order != [] ==> ComesFirst(k.procs, Queue(k, s), sortBy, order[0]))
            && forall t: STATE :: t != s ==> Queue(next, t) == Queue(k, t)
  {
    SortedFirst(k, s, sortBy, order);
  }

  /** The head of a sorted queue comes first by the policy. */
  lemma SortedFirst(k: Kernel, s: STATE, sortBy: SortBy, order: seq<nat>)
    requires Sorts(k.procs, Queue(k, s), sortBy, order)
    ensures multiset(order) == multiset(Queue(k, s))
    ensures order != [] ==> ComesFirst(k.procs, Queue(k, s), sortBy, order[0])
  {
    if order != [] {
      SortTakesLeast(k.procs, Queue(k, s), sortBy, order);
    }
  }

  /** A process that memory accepts goes from NEW to READY, and one that it refuses
      stays. */
  lemma AdmitEffect(k: Kernel, pid: nat, code: seq<seq<string>>, ok: bool)
    requires KernelOk(k) && Enabled(k, Admit(pid, code, ok))
    ensures var next := Step(k, Admit(pid, code, ok));
            && next == k.(procs := next.procs, queues := next.queues)
            && (ok ==> pid < |k.procs| && Goes(k, next, pid, k.procs[pid].(state := READY)))
            && (!ok ==> next == k)
  {
    hide KernelOk, Queue, Remove, Goes;
    Stands(k, NEW, pid);
    if ok {
      MoveGoes(k, pid, READY);
    }
  }

  /** A new CPU has an empty slot, after the others. */
  lemma ConnectEffect(k: Kernel)
    ensures Step(k, ConnectCPU) == k.(cpus := Step(k, ConnectCPU).cpus)
    ensures |Step(k, ConnectCPU).cpus| == |k.cpus| + 1 && Step(k, ConnectCPU).cpus[|k.cpus|] == None
    ensures forall i :: 0 <= i < |k.cpus| ==> Step(k, ConnectCPU).cpus[i] == k.cpus[i]
  {
  }

  /** Sending a process that stands in no queue to a CPU: it runs there, or it is the
      last of READY and the slot is empty. */
  ghost predicate Sent(k: Kernel, next: Kernel, pid: nat, cpu: nat, ok: bool) {
    && next == k.(procs := next.procs, queues := next.queues, cpus := next.cpus)
    && pid < |k.procs| && Becomes(k, next, pid, k.procs[pid].(state := if ok then EXEC else READY))
    && |next.cpus| == |k.cpus| && cpu < |k.cpus| && next.cpus[cpu] == (if ok then Some(pid) else None)
    && (forall i :: 0 <= i < |k.cpus| && i != cpu ==> next.cpus[i] == k.cpus[i])
    && Queue(next, EXEC) == (if ok then Queue(k, EXEC) + [pid] else Queue(k, EXEC))
    && Queue(next, READY) == (if ok then Queue(k, READY) else Queue(k, READY) + [pid])
    && forall s: STATE :: s != EXEC && s != READY ==> Queue(next, s) == Queue(k, s)
  }

  lemma SendSent(k: Kernel, pid: nat, cpu: nat, ok: bool)
    requires pid < |k.procs| && cpu < |k.cpus| && pid !in Queue(k, EXEC)
    ensures Sent(k, SendToExecute(k, pid, cpu, ok), pid, cpu, ok)
  {
    hide Remove;
    RemoveLast(Queue(k, EXEC), pid);
  }

  /** The head of a sorted queue stands in that queue and no other. */
  lemma TakenFirst(k: Kernel, s: STATE, sortBy: SortBy, order: seq<nat>)
    requires KernelOk(k) && Sorts(k.procs, Queue(k, s), sortBy, order) && order != [] && s != EXEC
    ensures ComesFirst(k.procs, Queue(k, s), sortBy, order[0])
    ensures order[0] < |k.procs| && k.procs[order[0]].state == s
    ensures order[0] !in Queue(SetQueue(k, s, order[1..]), EXEC)
  {
    hide KernelOk, Queue, Sorts;
    SortedFirst(k, s, sortBy, order);
    Stands(k, s, order[0]);
    Stands(k, EXEC, order[0]);
    QueueOfOther(k, s, order[1..]);
  }

  /** What a dispatch of pid to cpu leaves: if the CPU takes it, it executes there; if
      not, it is READY again, last in its queue, and the slot is empty. */
  ghost predicate Dispatched(k: Kernel, next: Kernel, order: seq<nat>, pid: nat, cpu: nat, ok: bool) {
    && next == k.(procs := next.procs, queues := next.queues, cpus := next.cpus)
    && pid < |k.procs| && Becomes(k, next, pid, k.procs[pid].(state := if ok then EXEC else READY))
    && cpu < |k.cpus| && next.cpus == k.cpus[cpu := if ok then Some(pid) else None]
    && order != [] && order[0] == pid
    && Queue(next, READY) == (if ok then order[1..] else order[1..] + [pid])
    && Queue(next, EXEC) == (if ok then Queue(k, EXEC) + [pid] else Queue(k, EXEC))
    && forall s: STATE :: s != EXEC && s != READY ==> Queue(next, s) == Queue(k, s)
  }

  lemma SentDispatched(k: Kernel, next: Kernel, order: seq<nat>, cpu: nat, ok: bool)
    requires order != [] && Sent(SetQueue(k, READY, order[1..]), next, order[0], cpu, ok)
    ensures Dispatched(k, next, order, order[0], cpu, ok)
  {
    hide Queue;
    QueueOfOther(k, READY, order[1..]);
    assert next.cpus == k.cpus[cpu := if ok then Some(order[0]) else None];
  }

  /** A dispatch takes the first READY process by the policy to the first empty slot. */
  lemma DispatchEffect(k: Kernel, sortBy: SortBy, order: seq<nat>, ok: bool) returns (pid: nat, cpu: nat)
    requires KernelOk(k) && Enabled(k, Dispatch(sortBy, order, ok))
    ensures ComesFirst(k.procs, Queue(k, READY), sortBy, pid) && pid < |k.procs| && k.procs[pid].state == READY
    ensures multiset(order) == multiset(Queue(k, READY))
    ensures cpu < |k.cpus| && k.cpus[cpu] == None && forall i :: 0 <= i < cpu ==> k.cpus[i].Some?
    ensures Dispatched(k, Step(k, Dispatch(sortBy, order, ok)), order, pid, cpu, ok)
  {
    pid, cpu := order[0], FreeSlot(k.cpus);
    hide KernelOk, Sorts, FreeSlot, SendToExecute, ComesFirst, Queue, Dispatched, Sent;
    SortedFirst(k, READY, sortBy, order);
    TakenFirst(k, READY, sortBy, order);
    SendSent(SetQueue(k, READY, order[1..]), pid, cpu, ok);
    SentDispatched(k, Step(k, Dispatch(sortBy, order, ok)), order, cpu, ok);
  }

  /** A preemption does so with a READY process and a slot that runs nothing. */
  lemma PreemptEffect(k: Kernel, cpu: nat, pid: nat, ok: bool)
    requires KernelOk(k) && Enabled(k, Preempt(cpu, pid, ok))
    ensures var next := Step(k, Preempt(cpu, pid, ok));
            && next == k.(procs := next.procs, queues := next.queues, cpus := next.cpus)
            && pid < |k.procs| && k.procs[pid].state == READY
            && Becomes(k, next, pid, k.procs[pid].(state := if ok then EXEC else READY))
            && next.cpus == k.cpus[cpu := if ok then Some(pid) else None]
            && Queue(next, EXEC) == (if ok then Queue(k, EXEC) + [pid] else Queue(k, EXEC))
            && (ok ==> Left(Queue(k, READY), Queue(next, READY), pid))
            && (!ok ==> exists rest :: Left(Queue(k, READY), rest, pid) && Queue(next, READY) == rest + [pid])
            && forall s: STATE :: s != EXEC && s != READY ==> Queue(next, s) == Queue(k, s)
  {
    hide KernelOk, Remove, SendToExecute, Left;
    Stands(k, READY, pid);
    Stands(k, EXEC, pid);
    SendSent(RemoveByPID(k, READY, pid), pid, cpu, ok);
    RemoveLeft(Queue(k, READY), pid);
  }

  // ---- What a CPU causes

  /** HandleReason: an executing process that was interrupted is READY again, and one
      that ended is in EXIT; its slot is empty and its burst is the new estimate. The
      result of any other process changes nothing. */
  lemma ResultEffect(k: Kernel, pid: nat, reason: Reason, burst: int)
    requires KernelOk(k)
    ensures var next := Step(k, Result(pid, reason, burst));
            if pid < |k.procs| && k.procs[pid].state == EXEC then
              && next == k.(procs := next.procs, queues := next.queues, cpus := next.cpus)
              && Goes(k, next, pid, k.procs[pid].(state := if reason == Interrupt then READY else EXIT,
                                                  estimatedBurst := burst))
              && Freed(k, next, pid)
            else next == k
  {
    hide KernelOk, Left, Remove;
    Stands(k, EXEC, pid);
    if pid in Queue(k, EXEC) {
      RemoveLeft(Queue(k, EXEC), pid);
    }
    assert k.hand == Some(pid) ==> StateOf(k, pid) != EXEC by { HandSuspended(k); }
  }

  lemma HandSuspended(k: Kernel)
    requires KernelOk(k)
    ensures k.hand.Some? ==> k.hand.value < |k.procs| && k.procs[k.hand.value].state == SUSP_READY
  {
    hide PlacesBut, CpusOk, BlockedOk;
  }

  /** What the IO and DUMP_MEMORY calls share: the process leaves its CPU and is
      BLOCKED, with an entry at the end of the blocked list and no timer. */
  ghost predicate Blocks(k: Kernel, next: Kernel, pid: nat, burst: int, b: Blocked) {
    && pid < |k.procs|
    && Goes(k, next, pid, k.procs[pid].(state := BLOCKED, estimatedBurst := burst, timerRunning := false))
    && Freed(k, next, pid) && next.mts == k.mts + [b]
  }

  lemma BlockBlocks(k: Kernel, pid: nat, burst: int, b: Blocked)
    requires pid < |k.procs| && pid in Queue(k, EXEC) && k.procs[pid].state == EXEC
    ensures var next := BlockOn(k, pid, burst, b);
            Blocks(k, next, pid, burst, b)
            && next == k.(procs := next.procs, queues := next.queues, cpus := next.cpus, mts := next.mts)
  {
    hide Left, Remove;
    RemoveLeft(Queue(k, EXEC), pid);
  }

  /** The IO call. Without a device of that name the process ends, and no slot
      changes. Otherwise it is BLOCKED for that name and time: its entry works, and
      the first free device of that name becomes busy, exactly when there is one. */
  lemma IOEffect(k: Kernel, cpu: nat, name: string, time: int, burst: int)
    requires KernelOk(k) && Enabled(k, SyscallIO(cpu, name, time, burst))
    ensures var next, pid := Step(k, SyscallIO(cpu, name, time, burst)), k.cpus[cpu].value;
            && ((forall d :: 0 <= d < |k.devices| ==> k.devices[d].name != name) ==>
                  Goes(k, next, pid, k.procs[pid].(state := EXIT))
                  && next == k.(procs := next.procs, queues := next.queues))
            && ((exists d :: 0 <= d < |k.devices| && k.devices[d].name == name) ==>
                  Blocks(k, next, pid, burst, Blocked(pid, name, time, Device(name, true) in k.devices))
                  && next == k.(procs := next.procs, queues := next.queues, cpus := next.cpus, mts := next.mts,
                                devices := next.devices))
            && (Device(name, true) !in k.devices ==> next.devices == k.devices)
            && (Device(name, true) in k.devices ==>
                  exists d :: 0 <= d < |k.devices| && k.devices[d] == Device(name, true)
                              && Device(name, true) !in k.devices[..d]
                              && next.devices == k.devices[d := Device(name, false)])
  {
    hide KernelOk, Left, Remove, Queue;
    var pid, d := k.cpus[cpu].value, FindDevice(k.devices, name);
    Stands(k, EXEC, pid);
    HandSuspended(k);
    assert Device(name, true) in k.devices <==> d < |k.devices|;
    if HasDevice(k.devices, name) {
      var taken := if d < |k.devices| then k.(devices := k.devices[d := k.devices[d].(disp := false)]) else k;
      SameQueues(k, taken);
      BlockBlocks(taken, pid, burst, Blocked(pid, name, time, d < |k.devices|));
    } else {
      MoveGoes(k, pid, EXIT);
    }
  }

  /** The DUMP_MEMORY call: the process is BLOCKED with a nameless entry, and its dump
      is under way. */
  lemma DumpEffect(k: Kernel, cpu: nat, burst: int)
    requires KernelOk(k) && Enabled(k, SyscallDump(cpu, burst))
    ensures var next, pid := Step(k, SyscallDump(cpu, burst)), k.cpus[cpu].value;
            && Blocks(k, next, pid, burst, Blocked(pid, "", 0, true)) && next.dumps == k.dumps + [pid]
            && next == k.(procs := next.procs, queues := next.queues, cpus := next.cpus, mts := next.mts,
                          dumps := next.dumps)
  {
    hide KernelOk, Left, Remove, Queue;
    var pid := k.cpus[cpu].value;
    Stands(k, EXEC, pid);
    HandSuspended(k);
    BlockBlocks(k, pid, burst, Blocked(pid, "", 0, true));
    SameQueues(BlockOn(k, pid, burst, Blocked(pid, "", 0, true)), Step(k, SyscallDump(cpu, burst)));
  }

  /** The EXIT call: the process is in EXIT and its slot is empty. */
  lemma ExitEffect(k: Kernel, cpu: nat)
    requires KernelOk(k) && Enabled(k, SyscallExit(cpu))
    ensures var next, pid := Step(k, SyscallExit(cpu)), k.cpus[cpu].value;
            && Goes(k, next, pid, k.procs[pid].(state := EXIT)) && Freed(k, next, pid)
            && next == k.(procs := next.procs, queues := next.queues, cpus := next.cpus)
  {
    hide KernelOk, Left, Remove, Queue;
    var pid := k.cpus[cpu].value;
    Stands(k, EXEC, pid);
    HandSuspended(k);
    MoveGoes(k, pid, EXIT);
    SameQueues(Move(k, pid, EXIT), Step(k, SyscallExit(cpu)));
  }

  // ---- Suspension

  /** The scan starts a timer for each BLOCKED process that has none, once, and the
      timers that ran go on. */
  ghost predicate Started(k: Kernel, next: Kernel, started: seq<nat>) {
    && next == k.(procs := next.procs, timers := next.timers) && next.timers == k.timers + started
    && |next.procs| == |k.procs|
    && (forall i, j :: 0 <= i < j < |started| ==> started[i] != started[j])
    && (forall p: nat :: p in started ==> p < |k.procs|)
    && (forall p :: 0 <= p < |k.procs| ==>
          && (p in started ==> k.procs[p].state == BLOCKED && !k.procs[p].timerRunning)
          && next.procs[p] == k.procs[p].(timerRunning := k.procs[p].timerRunning || p in started))
  }

  lemma {:induction false} ScanStarts(k: Kernel, n: nat) returns (started: seq<nat>)
    requires n <= |k.mts|
    ensures Started(k, Scan(k, n), started)
    ensures forall i :: 0 <= i < n && Starts(k, k.mts[i]) ==> k.mts[i].pid in started
  {
    if n == 0 {
      started := [];
    } else {
      started := ScanStarts(k, n - 1);
      var before, b := Scan(k, n - 1), k.mts[n - 1];
      if Starts(before, b) {
        assert b.pid !in started;
        started := started + [b.pid];
      }
    }
  }

  lemma ScanEffect(k: Kernel) returns (started: seq<nat>)
    requires KernelOk(k)
    ensures Started(k, Step(k, ScanBlocked), started)
    ensures forall p: nat :: p in started <==>
              p < |k.procs| && k.procs[p].state == BLOCKED && !k.procs[p].timerRunning
  {
    hide Places, CpusOk, Scan, EntriesOk, DumpsOk;
    started := ScanStarts(k, |k.mts|);
    forall p: nat | p < |k.procs| && k.procs[p].state == BLOCKED && !k.procs[p].timerRunning ensures p in started {
      var i: nat :| Entered(k, p, i);
      assert Starts(k, k.mts[i]);
    }
  }

  /** A timer that runs out suspends its process if that is BLOCKED still, and takes
      the mutex for it; otherwise it just ends. */
  lemma TimerEffect(k: Kernel, t: nat)
    requires KernelOk(k) && Enabled(k, TimerFires(t))
    ensures var next, pid := Step(k, TimerFires(t)), k.timers[t];
            && next.timers == k.timers[..t] + k.timers[t + 1..]
            && (if pid < |k.procs| && k.procs[pid].state == BLOCKED then
                  && Goes(k, next, pid, k.procs[pid].(state := SUSP_BLOCKED, timerRunning := false))
                  && next.mutex == Some(pid)
                  && next == k.(procs := next.procs, queues := next.queues, timers := next.timers, mutex := next.mutex)
                else next == k.(timers := next.timers))
  {
    hide KernelOk, Left, Remove, Queue;
    var rest, pid := k.(timers := Without(k.timers, t)), k.timers[t];
    Stands(k, BLOCKED, pid);
    HandSuspended(k);
    SameQueues(k, rest);
    if pid < |k.procs| && k.procs[pid].state == BLOCKED {
      MoveGoes(rest, pid, SUSP_BLOCKED);
      SameQueues(Move(rest, pid, SUSP_BLOCKED), Step(k, TimerFires(t)));
    }
  }

  /** Memory's answer to a suspension releases the mutex and changes nothing else. */
  lemma SwapEffect(k: Kernel)
    requires Enabled(k, SwapDone)
    ensures Step(k, SwapDone).mutex == None && Step(k, SwapDone).(mutex := k.mutex) == k
  {
  }

  /** MTS takes the first SUSP_READY process by the policy. */
  lemma TakeEffect(k: Kernel, sortBy: SortBy, order: seq<nat>) returns (pid: nat)
    requires KernelOk(k) && Enabled(k, TakeSuspended(sortBy, order))
    ensures ComesFirst(k.procs, Queue(k, SUSP_READY), sortBy, pid)
    ensures pid < |k.procs| && k.procs[pid].state == SUSP_READY
    ensures var next := Step(k, TakeSuspended(sortBy, order));
            && next == k.(queues := next.queues, hand := Some(pid))
            && order == [pid] + Queue(next, SUSP_READY) && multiset(order) == multiset(Queue(k, SUSP_READY))
            && forall s: STATE :: s != SUSP_READY ==> Queue(next, s) == Queue(k, s)
  {
    pid := order[0];
    hide KernelOk, Sorts;
    SortedFirst(k, SUSP_READY, sortBy, order);
    Stands(k, SUSP_READY, pid);
  }

  /** Memory's answer about the process that MTS holds: it joins the end of READY, or
      goes back to the end of SUSP_READY. The blocked list has no entry of it. */
  lemma UnsuspendedEffect(k: Kernel, ok: bool)
    requires KernelOk(k) && Enabled(k, Unsuspended(ok))
    ensures var next, pid := Step(k, Unsuspended(ok)), k.hand.value;
            var s := if ok then READY else SUSP_READY;
            && pid < |k.procs| && Becomes(k, next, pid, k.procs[pid].(state := s))
            && next == k.(procs := next.procs, queues := next.queues, hand := None)
            && Queue(next, s) == Queue(k, s) + [pid]
            && forall t: STATE :: t != s ==> Queue(next, t) == Queue(k, t)
  {
    hide KernelOk, RemoveBlocked;
    HandSuspended(k);
    NoEntry(k, k.hand.value);
  }

  /** A process that does not wait and has not ended has no entry. */
  lemma NoEntry(k: Kernel, pid: nat)
    requires KernelOk(k) && pid < |k.procs| && !Waits(k.procs[pid].state) && k.procs[pid].state != EXIT
    ensures (forall i :: 0 <= i < |k.mts| ==> k.mts[i].pid != pid) && RemoveBlocked(k.mts, pid) == k.mts
  {
    hide Places, CpusOk, WaitersOk, DumpsOk;
    RemoveNone(k.mts, pid);
  }

  // ---- Devices and memory dumps

  /** The device is free, and that is all. */
  lemma DeviceFreeEffect(k: Kernel, d: nat)
    requires Enabled(k, DeviceFree(d))
    ensures var next := Step(k, DeviceFree(d));
            && next == k.(devices := next.devices) && |next.devices| == |k.devices|
            && next.devices[d] == Device(k.devices[d].name, true)
            && forall i :: 0 <= i < |k.devices| && i != d ==> next.devices[i] == k.devices[i]
  {
  }

  /** pid's only entry leaves the blocked list, and the others keep their order. */
  ghost predicate LeavesList(k: Kernel, next: Kernel, pid: nat) {
    && (exists i :: 0 <= i < |k.mts| && k.mts[i].pid == pid && next.mts == k.mts[..i] + k.mts[i + 1..])
    && forall i :: 0 <= i < |next.mts| ==> next.mts[i].pid != pid
  }

  lemma EntryLeaves(k: Kernel, next: Kernel, i: nat)
    requires EntriesOk(k) && i < |k.mts| && next.mts == Without(k.mts, i)
    ensures LeavesList(k, next, k.mts[i].pid)
  {
    assert forall j :: 0 <= j < |next.mts| ==> next.mts[j] == k.mts[if j < i then j else j + 1];
  }

  /** The end of an IO wakes the process that waits for it: its entry leaves the
      blocked list, and it goes to READY if it was BLOCKED, to SUSP_READY if it was
      suspended meanwhile. When no process waits so, nothing changes. */
  ghost predicate Wakes(k: Kernel, next: Kernel, name: string, pid: nat) {
    if exists i :: 0 <= i < |k.mts| && k.mts[i].name == name && k.mts[i].pid == pid then
      && pid < |k.procs| && (k.procs[pid].state == BLOCKED || k.procs[pid].state == SUSP_BLOCKED)
      && Goes(k, next, pid, k.procs[pid].(state := if k.procs[pid].state == BLOCKED then READY else SUSP_READY))
      && LeavesList(k, next, pid)
      && next == k.(procs := next.procs, queues := next.queues, mts := next.mts)
    else next == k
  }

  lemma IOFinishedEffect(k: Kernel, name: string, pid: nat)
    requires KernelOk(k) && Enabled(k, IOFinished(name, pid))
    ensures Wakes(k, Step(k, IOFinished(name, pid)), name, pid)
  {
    hide Places, CpusOk, BlockedOk, Left, Remove, Queue, LeavesList, FindFinished;
    var i := FindFinished(k.mts, name, pid);
    if i < |k.mts| {
      FinishedBlocked(k, name, pid);
      Stands(k, k.procs[pid].state, pid);
      HandSuspended(k);
      var found := k.(mts := Without(k.mts, i));
      SameQueues(k, found);
      MoveGoes(found, pid, if k.procs[pid].state == BLOCKED then READY else SUSP_READY);
      OneEntry(k, Step(k, IOFinished(name, pid)), i);
    }
  }

  lemma OneEntry(k: Kernel, next: Kernel, i: nat)
    requires KernelOk(k) && i < |k.mts| && next.mts == Without(k.mts, i)
    ensures LeavesList(k, next, k.mts[i].pid)
  {
    hide Places, CpusOk, WaitersOk, DumpsOk, LeavesList;
    EntryLeaves(k, next, i);
  }

  /** A device that asks for work, known or new, takes the first process that waits
      for its name: the entry works and the device is busy. When none waits, the
      device is as it was, and a new one is free. */
  lemma IOArrivesEffect(k: Kernel, d: nat, name: string)
    requires Enabled(k, IOArrives(d, name))
    ensures var next := Step(k, IOArrives(d, name));
            && next == k.(devices := next.devices, mts := next.mts)
            && |next.devices| == (if d == |k.devices| then d + 1 else |k.devices|) && next.devices[d].name == name
            && (forall j :: 0 <= j < |k.devices| && j != d ==> next.devices[j] == k.devices[j])
            && if exists i :: 0 <= i < |k.mts| && k.mts[i].name == name && !k.mts[i].working then
                 && !next.devices[d].disp
                 && exists i :: 0 <= i < |k.mts| && k.mts[i].name == name && !k.mts[i].working
                      && (forall j :: 0 <= j < i ==> k.mts[j].name != name || k.mts[j].working)
                      && next.mts == k.mts[i := k.mts[i].(working := true)]
               else
                 next.mts == k.mts && next.devices[d].disp == (d == |k.devices| || k.devices[d].disp)
  {
    hide FindWaiting;
    var i := FindWaiting(k.mts, name);
  }

  /** The end of a dump: when it went well the process is READY and its entry leaves
      the blocked list; when not, the process is in EXIT and its entry stays. */
  lemma DumpDoneEffect(k: Kernel, d: nat, ok: bool)
    requires KernelOk(k) && Enabled(k, DumpDone(d, ok))
    ensures var next, pid := Step(k, DumpDone(d, ok)), k.dumps[d];
            && next.dumps == k.dumps[..d] + k.dumps[d + 1..] && pid < |k.procs|
            && Goes(k, next, pid, k.procs[pid].(state := if ok then READY else EXIT))
            && (if ok then LeavesList(k, next, pid) else next.mts == k.mts)
            && next == k.(procs := next.procs, queues := next.queues, mts := next.mts, dumps := next.dumps)
  {
    hide KernelOk, Left, Remove, Queue, RemoveBlocked, LeavesList;
    var rest, pid := k.(dumps := Without(k.dumps, d)), k.dumps[d];
    DumpWaits(k, d);
    Stands(k, k.procs[pid].state, pid);
    HandSuspended(k);
    SameQueues(k, rest);
    var moved := Move(rest, pid, if ok then READY else EXIT);
    MoveGoes(rest, pid, if ok then READY else EXIT);
    SameQueues(moved, Step(k, DumpDone(d, ok)));
    if ok {
      DumpEntry(k, Step(k, DumpDone(d, ok)), pid);
    }
  }

  lemma DumpWaits(k: Kernel, d: nat)
    requires KernelOk(k) && d < |k.dumps|
    ensures k.dumps[d] < |k.procs| && Waits(k.procs[k.dumps[d]].state)
  {
    hide Places, CpusOk, EntriesOk, WaitersOk;
  }

  lemma DumpEntry(k: Kernel, next: Kernel, pid: nat)
    requires KernelOk(k) && pid < |k.procs| && Waits(k.procs[pid].state) && next.mts == RemoveBlocked(k.mts, pid)
    ensures LeavesList(k, next, pid)
  {
    hide Places, CpusOk, DumpsOk, LeavesList, RemoveBlocked;
    var i: nat :| Entered(k, pid, i);
    RemoveIsWithout(k.mts, pid, i);
    EntryLeaves(k, next, i);
  }
}
