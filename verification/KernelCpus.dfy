/** Which process a CPU slot holds. */
module KernelCpus {
  import opened Wrappers
  import opened KernelState
  import opened KernelPlaces

  /** No process is held twice; what is held is EXEC or EXIT; what is EXEC is held. */
  ghost predicate CpusOk(k: Kernel) {
    && (forall i, j :: 0 <= i < j < |k.cpus| && k.cpus[i].Some? ==> k.cpus[i] != k.cpus[j])
    && (forall i :: 0 <= i < |k.cpus| && k.cpus[i].Some? ==>
          k.cpus[i].value < |k.procs| && k.procs[k.cpus[i].value].state in {EXEC, EXIT})
    && (forall p :: 0 <= p < |k.procs| && k.procs[p].state == EXEC ==> Some(p) in k.cpus)
  }

  /** What CpusOk looks at. */
  ghost predicate SameHolding(k: Kernel, next: Kernel) {
    && next.cpus == k.cpus && |next.procs| >= |k.procs|
    && (forall p :: 0 <= p < |k.procs| ==>
          (next.procs[p].state == k.procs[p].state
            || (k.procs[p].state !in {EXEC, EXIT} && next.procs[p].state != EXEC)))
    && (forall p :: |k.procs| <= p < |next.procs| ==> next.procs[p].state != EXEC)
  }

  lemma SameCpus(k: Kernel, next: Kernel)
    requires CpusOk(k) && SameHolding(k, next)
    ensures CpusOk(next)
  {
  }

  /** A process that no CPU holds moves between queues other than EXEC. */
  lemma IdleMoves(k: Kernel, pid: nat, s: STATE)
    requires CpusOk(k) && pid < |k.procs| && k.procs[pid].state !in {EXEC, EXIT} && s != EXEC
    ensures CpusOk(Move(k, pid, s))
  {
    SameCpus(k, Move(k, pid, s));
  }

  /** A process leaves its CPU and the EXEC state. */
  lemma StopCpus(k: Kernel, pid: nat, burst: int, s: STATE)
    requires CpusOk(k) && pid < |k.procs| && s != EXEC
    ensures CpusOk(Stopped(k, pid, burst, s))
    ensures Some(pid) !in Stopped(k, pid, burst, s).cpus
  {
    var next := Stopped(k, pid, burst, s);
    forall p | 0 <= p < |k.procs| && next.procs[p].state == EXEC ensures Some(p) in next.cpus {
      var i :| 0 <= i < |k.cpus| && k.cpus[i] == Some(p);
      assert next.cpus[i] == Some(p);
    }
  }

  /** An executing process ends without giving up its CPU. */
  lemma ExitCpus(k: Kernel, pid: nat)
    requires CpusOk(k) && pid < |k.procs| && k.procs[pid].state == EXEC
    ensures CpusOk(Move(k, pid, EXIT))
  {
  }

  lemma FreeExited(k: Kernel, pid: nat)
    requires CpusOk(k) && pid < |k.procs| && k.procs[pid].state == EXIT
    ensures CpusOk(FreeCPU(k, pid))
  {
    var next := FreeCPU(k, pid);
    forall p | 0 <= p < |k.procs| && next.procs[p].state == EXEC ensures Some(p) in next.cpus {
      var i :| 0 <= i < |k.cpus| && k.cpus[i] == Some(p);
      assert next.cpus[i] == Some(p);
    }
  }

  lemma BlockCpus(k: Kernel, pid: nat, burst: int, b: Blocked)
    requires CpusOk(k) && pid < |k.procs|
    ensures CpusOk(BlockOn(k, pid, burst, b))
  {
    StopCpus(k, pid, burst, BLOCKED);
    SameCpus(Stopped(k, pid, burst, BLOCKED), BlockOn(k, pid, burst, b));
  }

  /** A process that no CPU holds is sent to a slot that holds nothing executing. */
  lemma SendCpus(k: Kernel, pid: nat, cpu: nat, ok: bool)
    requires CpusOk(k) && pid < |k.procs| && cpu < |k.cpus| && !Runs(k, cpu) && k.procs[pid].state == READY
    ensures CpusOk(SendToExecute(k, pid, cpu, ok))
  {
    hide Queue, Remove;
    var next := SendToExecute(k, pid, cpu, ok);
    forall p | 0 <= p < |k.procs| && next.procs[p].state == EXEC ensures Some(p) in next.cpus {
      if p == pid {
        assert next.cpus[cpu] == Some(p);
      } else {
        var i :| 0 <= i < |k.cpus| && k.cpus[i] == Some(p);
        assert next.cpus[i] == Some(p);
      }
    }
  }

  lemma SlotIdle(k: Kernel)
    ensures FreeSlot(k.cpus) < |k.cpus| ==> !Runs(k, FreeSlot(k.cpus))
  {
  }

  lemma ScheduleCpus(k: Kernel, e: Event)
    requires Enabled(k, e) && Places(k) && CpusOk(k)
    requires e.CreateProcess? || e.Search? || e.Admit? || e.ConnectCPU? || e.Dispatch? || e.Preempt?
    ensures CpusOk(Step(k, e))
  {
    hide Sorts, Queue, Remove, FreeSlot, PlacesBut;
    var next := Step(k, e);
    match e
    case CreateProcess(size) => SameCpus(k, next);
    case Search(s, sortBy, order) => SameCpus(k, next);
    case Admit(pid, _, ok) =>
      InPlace(k, Held(k), NEW, pid);
      IdleMoves(k, pid, READY);
    case ConnectCPU =>
      assert forall p :: Some(p) in k.cpus ==> Some(p) in next.cpus;
    case Dispatch(sortBy, order, ok) =>
      SortPlaces(k, Held(k), READY, sortBy, order);
      SlotIdle(k);
      SameCpus(k, SetQueue(k, READY, order[1..]));
      SendCpus(SetQueue(k, READY, order[1..]), order[0], FreeSlot(k.cpus), ok);
    case Preempt(cpu, pid, ok) =>
      InPlace(k, Held(k), READY, pid);
      SameCpus(k, RemoveByPID(k, READY, pid));
      SendCpus(RemoveByPID(k, READY, pid), pid, cpu, ok);
  }

  lemma CpuCpus(k: Kernel, e: Event)
    requires Enabled(k, e) && Places(k) && CpusOk(k)
    requires e.Result? || e.SyscallIO? || e.SyscallDump? || e.SyscallExit?
    ensures CpusOk(Step(k, e))
  {
    hide Queue, Remove, PlacesBut, HasDevice, FindDevice;
    match e
    case Result(pid, reason, burst) =>
      if pid < |k.procs| {
        StopCpus(k, pid, burst, if reason == Interrupt then READY else EXIT);
      }
    case SyscallIO(cpu, name, time, burst) =>
      var pid, d := k.cpus[cpu].value, FindDevice(k.devices, name);
      ExitCpus(k, pid);
      var taken := if d < |k.devices| then k.(devices := k.devices[d := k.devices[d].(disp := false)]) else k;
      SameCpus(k, taken);
      BlockCpus(taken, pid, burst, Blocked(pid, name, time, d < |k.devices|));
    case SyscallDump(cpu, burst) =>
      var pid := k.cpus[cpu].value;
      BlockCpus(k, pid, burst, Blocked(pid, "", 0, true));
      SameCpus(BlockOn(k, pid, burst, Blocked(pid, "", 0, true)), Step(k, e));
    case SyscallExit(cpu) =>
      ExitCpus(k, k.cpus[cpu].value);
      FreeExited(Move(k, k.cpus[cpu].value, EXIT), k.cpus[cpu].value);
  }

  lemma ExpiredCpus(k: Kernel, pid: nat)
    requires CpusOk(k)
    ensures CpusOk(Expired(k, pid))
  {
    hide Queue, Remove;
    SameCpus(k, Expired(k, pid));
  }

  lemma FinishedCpus(k: Kernel, name: string, pid: nat)
    requires CpusOk(k)
    ensures CpusOk(Finished(k, name, pid))
  {
    hide Queue, Remove, FindFinished;
    SameCpus(k, Finished(k, name, pid));
  }

  lemma DumpedCpus(k: Kernel, pid: nat, ok: bool)
    requires CpusOk(k) && (pid < |k.procs| ==> k.procs[pid].state !in {EXEC, EXIT})
    ensures CpusOk(Dumped(k, pid, ok))
  {
    hide Queue, Remove, RemoveBlocked;
    SameCpus(k, Dumped(k, pid, ok));
  }

  lemma OtherCpus(k: Kernel, e: Event)
    requires Enabled(k, e) && Places(k) && CpusOk(k)
    requires e.ScanBlocked? || e.TimerFires? || e.SwapDone? || e.TakeSuspended? || e.Unsuspended? || e.DeviceFree?
        || e.IOFinished?
             || e.IOArrives? || (e.DumpDone? && StateOf(k, k.dumps[e.dump]) !in {EXEC, EXIT})
    ensures CpusOk(Step(k, e))
  {
    hide Queue, Remove, PlacesBut, Sorts, Scan, Expired, Finished, Dumped, Arrived, RemoveBlocked;
    var next := Step(k, e);
    match e
    case TimerFires(t) =>
      var rest := k.(timers := Without(k.timers, t));
      SameCpus(k, rest);
      ExpiredCpus(rest, k.timers[t]);
    case IOFinished(name, pid) => FinishedCpus(k, name, pid);
    case IOArrives(d, name) => ArrivedSame(k, d, name);
    case DumpDone(d, ok) =>
      var rest := k.(dumps := Without(k.dumps, d));
      SameCpus(k, rest);
      DumpedCpus(rest, k.dumps[d], ok);
    case _ => SameCpus(k, next);
  }

  lemma ArrivedSame(k: Kernel, d: nat, name: string)
    requires d <= |k.devices| && CpusOk(k)
    ensures CpusOk(Arrived(k, d, name))
  {
    SameCpus(k, Arrived(k, d, name));
  }
}
