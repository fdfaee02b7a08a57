/** Kernel and memory on what a process is: memory gives each process the program
    that its creation named and the pages that its size needs, for as long as it
    exists. */
module KernelSizes {
  import opened Wrappers
  import opened Pages
  import opened Frames
  import opened Memory
  import opened Requests
  import opened Keeps
  import opened KeepsSwap
  import opened KernelState
  import opened KernelRuns
  import opened KernelWhere
  import opened KernelSystem
  import KernelPlaces
  import KernelCpus
  import KernelBlocked
  import MemoryRuns
  import Programs
  import TlbRequests

  /** A process that memory has is one of the kernel's, with the pages for its size. */
  ghost predicate Sized(k: Kernel, m: Mem, pid: nat)
    requires m.cfg.Ok()
  {
    Exists(m, pid) ==> pid < |k.procs| && |Table(m, pid)| == PagesFor(k.procs[pid].size, m.cfg.pageSize)
  }

  ghost predicate SameSize(k: Kernel, next: Kernel, pid: nat) {
    pid < |k.procs| ==> pid < |next.procs| && next.procs[pid].size == k.procs[pid].size
  }

  lemma MoveSize(k: Kernel, p: nat, s: STATE, pid: nat)
    requires p < |k.procs|
    ensures SameSize(k, Move(k, p, s), pid)
  {
    hide Queue, Remove;
  }

  lemma ScheduleSizes(k: Kernel, e: Event, pid: nat)
    requires Enabled(k, e)
    requires e.CreateProcess? || e.Search? || e.Admit? || e.ConnectCPU? || e.Dispatch? || e.Preempt?
    ensures SameSize(k, Step(k, e), pid)
  {
    hide Queue, Remove, Sorts, FreeSlot;
  }

  lemma CpuSizes(k: Kernel, e: Event, pid: nat)
    requires Enabled(k, e) && (e.Result? || e.SyscallIO? || e.SyscallDump? || e.SyscallExit?)
    ensures SameSize(k, Step(k, e), pid)
  {
    hide Queue, Remove, HasDevice, FindDevice;
  }

  lemma DeviceSizes(k: Kernel, e: Event, pid: nat)
    requires Enabled(k, e) && (e.DeviceFree? || e.IOFinished? || e.IOArrives? || e.DumpDone?)
    ensures SameSize(k, Step(k, e), pid)
  {
    hide Queue, Remove, FindFinished, FindWaiting, RemoveBlocked, FindDevice;
  }

  lemma SwapSizes(k: Kernel, e: Event, pid: nat)
    requires Enabled(k, e)
    requires e.ScanBlocked? || e.TimerFires? || e.SwapDone? || e.TakeSuspended? || e.Unsuspended?
    ensures SameSize(k, Step(k, e), pid)
  {
    hide Queue, Remove, RemoveBlocked, Sorts, Scan;
  }

  /** No step forgets a process or changes its size. */
  lemma StepSizes(k: Kernel, e: Event, pid: nat)
    requires Enabled(k, e)
    ensures SameSize(k, Step(k, e), pid)
  {
    hide Step, Enabled, SameSize;
    if e.CreateProcess? || e.Search? || e.Admit? || e.ConnectCPU? || e.Dispatch? || e.Preempt? {
      ScheduleSizes(k, e, pid);
    } else if e.Result? || e.SyscallIO? || e.SyscallDump? || e.SyscallExit? {
      CpuSizes(k, e, pid);
    } else if e.DeviceFree? || e.IOFinished? || e.IOArrives? || e.DumpDone? {
      DeviceSizes(k, e, pid);
    } else {
      SwapSizes(k, e, pid);
    }
  }

  /** What a request that memory allows does to the table of its own process. */
  lemma OwnTable(m: Mem, r: MemoryRuns.Request)
    requires Inv(m) && MemoryRuns.Allowed(m, r)
    ensures var next := MemoryRuns.Serve(m, r).0;
            && (r.CreateProcess? && Exists(next, r.pid) ==>
                  |Table(next, r.pid)| == PagesFor(r.size, m.cfg.pageSize))
            && (r.DeleteProcess? ==> !Exists(next, r.pid))
            && (!r.CreateProcess? && !r.DeleteProcess? ==>
                  (Exists(next, r.pid) <==> Exists(m, r.pid)) && |Table(next, r.pid)| == |Table(m, r.pid)|)
  {
    hide FramesOwned, SwapOk, Create, Allocate, Unsuspend;
    match r {
      case CreateProcess(pid, lines, size) =>
        var p := CreateOutcome(m, pid, lines, size);
        FindProcAppend(m.procs, p, pid);
      case DeleteProcess(pid) =>
        if Exists(m, pid) {
          RemoveTables(m, Delete(m, pid).0, FindProc(m.procs, pid), pid);
        }
      case WriteBack(_, _, _) =>
      case _ => MemoryRuns.ServeKeeps(m, r);
    }
  }

  /** No request that memory allows changes the size of a table: creation gives the
      pages for its size. */
  lemma ServeTable(m: Mem, r: MemoryRuns.Request, pid: nat)
    requires Inv(m) && MemoryRuns.Allowed(m, r)
    ensures var next := MemoryRuns.Serve(m, r).0;
            && next.cfg == m.cfg
            && (Exists(next, pid) ==>
                  if r.CreateProcess? && r.pid == pid then |Table(next, pid)| == PagesFor(r.size, m.cfg.pageSize)
                  else Exists(m, pid) && |Table(next, pid)| == |Table(m, pid)|)
  {
    hide Inv, MemoryRuns.Serve, MemoryRuns.Allowed;
    TlbRequests.ServeOthers(m, r, if pid == r.pid then pid + 1 else pid);
    OwnTable(m, r);
  }

  lemma WriteTable(m: Mem, pid: nat, base: int, value: Page, q: nat)
    requires Shape(m)
    ensures var next := WritePage(m, pid, base, value).0;
            next.cfg == m.cfg && Table(next, q) == Table(m, q) && (Exists(next, q) <==> Exists(m, q))
  {
  }

  /** Each step of the system, stale write-backs among them, keeps a process sized. */
  lemma StepSized(s: System, h: Happening, pid: nat)
    requires SystemOk(s.k, s.m) && Possible(s, h) && (h.Happens? ==> DumpOnTime(s.k, h.e))
    requires Sized(s.k, s.m, pid)
    ensures var next := SystemNext(s, h);
            next.m.cfg == s.m.cfg && next.m.cfg.Ok() && Sized(next.k, next.m, pid)
  {
    hide KernelOk, MutexOk, FramesOwned, SwapOk, Enabled, Step, Agrees, WhereIs, DumpOnTime, Ends, LeftNext,
         MemoryRuns.Serve, MemoryRuns.Allowed, WritePage;
    if h.PageWritten? {
      WriteTable(s.m, h.pid, h.base, h.value, pid);
      Written(s, h);
    } else {
      StepSizes(s.k, h.e, pid);
      AskedAllowedIff(s, h);
      if Asked(s.k, h).Some? {
        ServeTable(s.m, Asked(s.k, h).value, pid);
      }
    }
  }

  lemma Written(s: System, h: Happening)
    requires Shape(s.m) && SwapOk(s.m) && h.PageWritten?
    ensures MemoryNext(s.k, s.m, h) == WritePage(s.m, h.pid, h.base, h.value).0
  {
  }

  /** After any run, memory has as many pages of each process as the size that the
      process was created with needs, in memory or in swap. */
  lemma {:induction false} RunSized(s: System, run: seq<Happening>, pid: nat)
    requires SystemOk(s.k, s.m) && CanHappen(s, run) && Sized(s.k, s.m, pid)
    ensures var last := After(s, run).0; last.m.cfg == s.m.cfg && Sized(last.k, last.m, pid)
    decreases |run|
  {
    hide KernelOk, MutexOk, FramesOwned, SwapOk, Agrees, Enabled, DumpOnTime, Possible, SystemNext, Sized;
    if run != [] {
      SystemStep(s, run[0]);
      StepSized(s, run[0], pid);
      RunSized(SystemNext(s, run[0]), run[1..], pid);
    }
  }

  // ---- Programs

  /** A process that memory has, has the program of these lines. */
  predicate Coded(m: Mem, pid: nat, lines: seq<seq<string>>) {
    Exists(m, pid) ==> Programs.Spells(Programs.CodeOf(m, pid), lines)
  }

  /** A process that memory accepts has the program that its creation named, and the
      pages of its size. */
  lemma AdmitLoads(s: System, pid: nat, lines: seq<seq<string>>)
    requires SystemOk(s.k, s.m) && Possible(s, Happens(Admit(pid, lines, true)))
    ensures var next := SystemNext(s, Happens(Admit(pid, lines, true)));
            && next.m.cfg == s.m.cfg && next.m.cfg.Ok() && Exists(next.m, pid) && NotNew(next.k, pid)
            && Coded(next.m, pid, lines) && Sized(next.k, next.m, pid)
  {
    hide KernelOk, MutexOk, FramesOwned, SwapOk, Agrees, WhereIs, Queue, Remove, Create;
    var h := Happens(Admit(pid, lines, true));
    assert !Exists(s.m, pid) by { AskedResident(s.k, s.m, h.e); }
    StepSized(s, h, pid);
    Programs.CreateCode(s.m, pid, lines, s.k.procs[pid].size);
  }

  /** A happening leaves the program of a process that is past NEW. */
  lemma StepCoded(s: System, h: Happening, pid: nat, lines: seq<seq<string>>)
    requires SystemOk(s.k, s.m) && Possible(s, h) && (h.Happens? ==> DumpOnTime(s.k, h.e))
    requires NotNew(s.k, pid) && Coded(s.m, pid, lines)
    ensures NotNew(SystemNext(s, h).k, pid) && Coded(SystemNext(s, h).m, pid, lines)
  {
    hide KernelOk, MutexOk, FramesOwned, SwapOk, Enabled, Step, Agrees, WhereIs, DumpOnTime, LeftNext,
         MemoryRuns.Serve, MemoryRuns.Allowed, WritePage, Programs.Spells;
    if h.PageWritten? {
      Written(s, h);
      WriteCode(s.m, h.pid, h.base, h.value, pid);
    } else {
      NeverNew(s.k, h.e, pid);
      RequestCoded(s, h.e, pid, lines);
    }
  }

  lemma WriteCode(m: Mem, pid: nat, base: int, value: Page, q: nat)
    requires Shape(m)
    ensures WritePage(m, pid, base, value).0.procs == m.procs
  {
  }

  lemma NeverNew(k: Kernel, e: Event, pid: nat)
    requires Enabled(k, e) && NotNew(k, pid) && KernelOk(k)
    ensures NotNew(Step(k, e), pid)
  {
    hide KernelOk, Step, Enabled, NotNew;
    if e.Dispatch? || e.Preempt? || e.Result? || e.SyscallIO? || e.SyscallDump? || e.SyscallExit? {
      NeverNewCpu(k, e, pid);
    } else {
      NeverNewElse(k, e, pid);
    }
  }

  /** The kernel asks for the creation of NEW processes alone. */
  lemma RequestCoded(s: System, e: Event, pid: nat, lines: seq<seq<string>>)
    requires SystemOk(s.k, s.m) && Possible(s, Happens(e)) && DumpOnTime(s.k, e)
    requires NotNew(s.k, pid) && Coded(s.m, pid, lines)
    ensures Coded(MemoryNext(s.k, s.m, Happens(e)), pid, lines)
  {
    hide MutexOk, FramesOwned, SwapOk, Agrees, WhereIs, MemoryRuns.Serve, MemoryRuns.Allowed, Programs.Spells,
         KernelPlaces.PlacesBut, KernelCpus.CpusOk, KernelBlocked.BlockedOk, Queue;
    AskedAllowedIff(s, Happens(e));
    var asked := Asked(s.k, Happens(e));
    if e.Admit? {
      KernelPlaces.InPlace(s.k, KernelPlaces.Held(s.k), NEW, e.pid);
    }
    if asked.Some? {
      ServeTable(s.m, asked.value, pid);
      OwnTable(s.m, asked.value);
      if Exists(s.m, pid) && asked.value != MemoryRuns.DeleteProcess(pid) {
        Programs.ServeCode(s.m, asked.value, pid);
      }
    }
  }

  /** After any run, a process that memory has still has the program it was created
      with. */
  lemma {:induction false} RunCoded(s: System, run: seq<Happening>, pid: nat, lines: seq<seq<string>>)
    requires SystemOk(s.k, s.m) && CanHappen(s, run) && NotNew(s.k, pid) && Coded(s.m, pid, lines)
    ensures Coded(After(s, run).0.m, pid, lines)
    decreases |run|
  {
    hide KernelOk, MutexOk, FramesOwned, SwapOk, Agrees, Enabled, DumpOnTime, Possible, SystemNext, Coded, NotNew;
    if run != [] {
      SystemStep(s, run[0]);
      StepCoded(s, run[0], pid, lines);
      RunCoded(SystemNext(s, run[0]), run[1..], pid, lines);
    }
  }
}
