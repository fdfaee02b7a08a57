/** The kernel and the memory module together: the kernel's steps, and the requests
    that they make of memory. */
module KernelSystem {
  import opened Wrappers
  import opened Pages
  import opened Frames
  import opened Memory
  import opened Requests
  import opened Keeps
  import opened KeepsSwap
  import opened KernelState
  import opened KernelRuns
  import opened KernelWhere
  import opened SwapText
  import KernelPlaces
  import KernelCpus
  import KernelBlocked
  import MemoryRuns

  /** Kernel and memory, and which CPUs may still have dirty entries of a process
      that left them by an interrupt. */
  datatype System = System(k: Kernel, m: Mem, left: set<(nat, nat)>)

  /** A kernel event, or a page of a process that a CPU writes back. */
  datatype Happening = Happens(e: Event) | PageWritten(cpu: nat, pid: nat, base: int, value: Page)

  /** The request that memory receives with it, if any. */
  function Asked(k: Kernel, h: Happening): Option<MemoryRuns.Request> {
    match h
    case PageWritten(_, pid, base, value) => Some(MemoryRuns.WriteBack(pid, base, value))
    case Happens(Admit(pid, code, _)) =>
      if pid < |k.procs| then Some(MemoryRuns.CreateProcess(pid, code, k.procs[pid].size)) else None
    case Happens(SwapDone) => if k.mutex.Some? then Some(MemoryRuns.SuspendProcess(k.mutex.value)) else None
    case Happens(Unsuspended(_)) => if k.hand.Some? then Some(MemoryRuns.UnSuspendProcess(k.hand.value)) else None
    case Happens(e) => if Ends(k, e).Some? then Some(MemoryRuns.DeleteProcess(Ends(k, e).value)) else None
  }

  /** Memory after a happening. */
  function MemoryNext(k: Kernel, m: Mem, h: Happening): Mem
    requires Shape(m) && SwapOk(m)
  {
    match Asked(k, h) case Some(r) => MemoryRuns.Serve(m, r).0 case None => m
  }

  /** The CPUs that hold a process, each with it. */
  function Holders(k: Kernel, pid: nat): set<(nat, nat)> {
    set cpu: nat | cpu < |k.cpus| && k.cpus[cpu] == Some(pid) :: (cpu, pid)
  }

  function LeftAfterCall(k: Kernel, left: set<(nat, nat)>, cpu: nat): set<(nat, nat)> {
    if cpu < |k.cpus| && k.cpus[cpu].Some? then left - {(cpu, k.cpus[cpu].value)} else left
  }

  /** A CPU's result comes without EndProcess; blocking calls come after it. */
  function LeftNext(k: Kernel, left: set<(nat, nat)>, h: Happening): set<(nat, nat)> {
    match h
    case Happens(Result(pid, _, _)) => left + Holders(k, pid)
    case Happens(SyscallIO(cpu, _, _, _)) => LeftAfterCall(k, left, cpu)
    case Happens(SyscallDump(cpu, _)) => LeftAfterCall(k, left, cpu)
    case _ => left
  }

  /** A CPU writes back while it runs: pages of its process, and what others left. */
  predicate WritesFor(s: System, cpu: nat, pid: nat) {
    Runs(s.k, cpu) && (s.k.cpus[cpu] == Some(pid) || (cpu, pid) in s.left)
  }

  /** The happening can take place, and the kernel hears what memory answers. */
  ghost predicate Possible(s: System, h: Happening)
    requires Shape(s.m) && SwapOk(s.m)
  {
    match h
    case PageWritten(cpu, pid, _, _) => WritesFor(s, cpu, pid)
    case Happens(e) =>
      && Enabled(s.k, e)
      && (e.Admit? || e.Unsuspended? ==>
            (e.ok <==> Asked(s.k, h).Some? && MemoryRuns.Serve(s.m, Asked(s.k, h).value).1.None?))
  }

  ghost function KernelAfter(k: Kernel, h: Happening): Kernel
    requires h.Happens? ==> Enabled(k, h.e)
  {
    match h case Happens(e) => Step(k, e) case PageWritten(_, _, _, _) => k
  }

  ghost function SystemNext(s: System, h: Happening): System
    requires Shape(s.m) && SwapOk(s.m) && Possible(s, h)
  {
    System(KernelAfter(s.k, h), MemoryNext(s.k, s.m, h), LeftNext(s.k, s.left, h))
  }

  /** Memory has the process where the kernel thinks it is; a process without
      pages is never in swap. */
  ghost predicate Agrees(m: Mem, pid: nat, w: Where) {
    && (Exists(m, pid) <==> w != Nowhere)
    && (!Resident(m, pid) <==> w == InSwap && Table(m, pid) != [])
  }

  ghost predicate SystemOk(k: Kernel, m: Mem) {
    && KernelOk(k) && MutexOk(k) && Inv(m)
    && forall pid: nat :: Agrees(m, pid, WhereIs(k, pid))
  }

  // ---- What each request does to the place of a process

  lemma OtherAgrees(m: Mem, next: Mem, pid: nat, w: Where)
    requires Shape(m) && Shape(next) && SameImage(m, next, pid) && Agrees(m, pid, w)
    requires Resident(next, pid) <==> Resident(m, pid)
    ensures Agrees(next, pid, w)
  {
  }

  lemma CreateAgrees(m: Mem, pid: nat, code: seq<seq<string>>, size: nat, q: nat, w: Where)
    requires Inv(m) && !Exists(m, pid) && Agrees(m, q, w)
    ensures var (next, e) := Create(m, pid, code, size);
            Agrees(next, q, if q == pid && e.None? then InMemory else w)
  {
    CreateKeeps(m, pid, code, size);
    var p := CreateOutcome(m, pid, code, size);
    var (next, e) := Create(m, pid, code, size);
    if q != pid {
      assert SameImage(m, next, q);
      OtherAgrees(m, next, q, w);
    }
  }

  lemma DeleteAgrees(m: Mem, pid: nat, q: nat, w: Where)
    requires Inv(m) && Resident(m, pid) && Exists(m, pid) && Agrees(m, q, w)
    ensures Agrees(Delete(m, pid).0, q, if q == pid then Nowhere else w)
  {
    DeleteKeeps(m, pid);
    var next := Delete(m, pid).0;
    if q != pid {
      assert SameImage(m, next, q);
      OtherAgrees(m, next, q, w);
    }
  }

  lemma SuspendAgrees(m: Mem, pid: nat, q: nat, w: Where)
    requires Inv(m) && Resident(m, pid) && Exists(m, pid) && Agrees(m, q, w)
    ensures Agrees(Suspend(m, pid).0, q, if q == pid then InSwap else w)
  {
    SuspendKeeps(m, pid);
    var next := Suspend(m, pid).0;
    assert SameImage(m, next, q);
    if Table(m, pid) != [] {
      SwappedAppend(m.blocks, Block(pid, MemPages(m, pid)));
    }
  }

  lemma UnsuspendAgrees(m: Mem, pid: nat, q: nat, w: Where)
    requires Inv(m) && Agrees(m, pid, InSwap) && Agrees(m, q, w)
    ensures var (next, e) := Unsuspend(m, pid);
            Agrees(next, q, if q == pid && e.None? then InMemory else w)
  {
    hide Unsuspend, Swapped, FramesOwned;
    UnsuspendKeeps(m, pid);
    var (next, e) := Unsuspend(m, pid);
    UnsuspendSwaps(m, pid);
    assert SameImage(m, next, q);
  }

  lemma UnsuspendSwaps(m: Mem, pid: nat)
    requires Inv(m) && (Table(m, pid) != [] ==> !Resident(m, pid))
    ensures var (next, e) := Unsuspend(m, pid);
            e.None? ==> Swapped(next.blocks) == if Table(m, pid) != [] then Swapped(m.blocks) - {pid}
              else Swapped(m.blocks)
  {
    hide Swapped, Allocate, FramesOwned, PagesAt, MemPages, Unsuspend;
    SwappedIff(m.blocks, pid);
    var i, k := FindProc(m.procs, pid), FindBlock(m.blocks, pid);
    if i < |m.procs| && k < |m.blocks| {
      var next, e := UnsuspendSwapped(m, i, k);
      SwappedRemove(m, k);
    } else {
      UnsuspendIdle(m, pid);
    }
  }

  lemma WriteAgrees(m: Mem, pid: nat, base: int, value: Page, q: nat, w: Where)
    requires Shape(m) && Agrees(m, q, w)
    ensures Agrees(WritePage(m, pid, base, value).0, q, w)
  {
  }

  /** Before its first process the system is in agreement with any empty memory. */
  lemma SystemStart(m: Mem)
    requires Inv(m) && m.procs == [] && m.blocks == []
    ensures SystemOk(Start(), m)
  {
    StartOk();
  }

  // ---- The joint step

  /** A write-back through the stale table of a process in swap, to a frame that
      somebody holds now. */
  predicate Stale(s: System, h: Happening)
    requires s.m.cfg.Ok()
  {
    && h.PageWritten? && WhereIs(s.k, h.pid) == InSwap
    && h.base in Table(s.m, h.pid) && Bit(s.m.reserved, s.m.cfg.pageSize, h.base) == 1
  }

  /** No request of the kernel's own finds its process in the wrong place. */
  lemma AskedWhere(k: Kernel, e: Event)
    requires KernelOk(k) && MutexOk(k) && Enabled(k, e) && DumpOnTime(k, e)
    ensures Asked(k, Happens(e)).Some? ==>
              match Asked(k, Happens(e)).value
              case CreateProcess(pid, _, _) => WhereIs(k, pid) == Nowhere
              case UnSuspendProcess(pid) => WhereIs(k, pid) == InSwap
              case r => WhereIs(k, r.pid) == InMemory
  {
    hide Queue, KernelPlaces.PlacesBut, HasDevice, KernelCpus.CpusOk, KernelBlocked.BlockedOk;
    match e {
      case Admit(pid, _, _) => KernelPlaces.InPlace(k, KernelPlaces.Held(k), NEW, pid);
      case Result(pid, _, _) => KernelPlaces.InPlace(k, KernelPlaces.Held(k), EXEC, pid);
      case _ =>
    }
  }

  /** So memory has it there. */
  lemma AskedResident(k: Kernel, m: Mem, e: Event)
    requires SystemOk(k, m) && Enabled(k, e) && DumpOnTime(k, e)
    ensures Asked(k, Happens(e)).Some? ==>
              match Asked(k, Happens(e)).value
              case CreateProcess(pid, _, _) => !Exists(m, pid)
              case UnSuspendProcess(pid) => Agrees(m, pid, InSwap)
              case r => Resident(m, r.pid) && Exists(m, r.pid)
  {
    hide KernelOk, MutexOk, Inv, Enabled, WhereIs, DumpOnTime, Ends;
    AskedWhere(k, e);
    if Asked(k, Happens(e)).Some? {
      var pid := Asked(k, Happens(e)).value.pid;
      assert Agrees(m, pid, WhereIs(k, pid));
    }
  }

  /** A process that is not in swap may write, and so may one whose frame is free. */
  lemma WriteAllowedIff(s: System, h: Happening)
    requires SystemOk(s.k, s.m) && h.PageWritten?
    ensures MemoryRuns.Allowed(s.m, Asked(s.k, h).value) <==> !Stale(s, h)
  {
    hide KernelOk, MutexOk, Inv, WhereIs;
    assert Agrees(s.m, h.pid, WhereIs(s.k, h.pid));
  }

  /** Memory allows what a happening asks exactly when it is no stale write-back. */
  lemma AskedAllowedIff(s: System, h: Happening)
    requires SystemOk(s.k, s.m) && Possible(s, h) && (h.Happens? ==> DumpOnTime(s.k, h.e))
    ensures Asked(s.k, h).Some? ==> (MemoryRuns.Allowed(s.m, Asked(s.k, h).value) <==> !Stale(s, h))
  {
    hide KernelOk, MutexOk, Inv, Enabled, WhereIs, DumpOnTime, Ends, Agrees;
    if h.PageWritten? {
      WriteAllowedIff(s, h);
    } else {
      AskedResident(s.k, s.m, h.e);
    }
  }

  /** A write-back leaves every other process's image, whatever it writes, exactly
      when it is not stale. */
  lemma WriteBackSafeIff(s: System, h: Happening)
    requires SystemOk(s.k, s.m) && h.PageWritten? && h.base in Table(s.m, h.pid)
    ensures MemoryRuns.Harmless(s.m, h.pid, h.base) <==> !Stale(s, h)
  {
    hide KernelOk, MutexOk, WhereIs;
    WriteAllowedIff(s, h);
    MemoryRuns.WriteSafeIff(s.m, h.pid, h.base);
  }

  /** What memory does with the request that a happening makes. */
  function WhereAsked(k: Kernel, h: Happening, pid: nat): Where {
    match h case Happens(e) => WhereNext(k, e, pid) case PageWritten(_, _, _, _) => WhereIs(k, pid)
  }

  lemma RequestAgrees(s: System, h: Happening, pid: nat)
    requires SystemOk(s.k, s.m) && Possible(s, h) && (h.Happens? ==> DumpOnTime(s.k, h.e))
    ensures Agrees(MemoryNext(s.k, s.m, h), pid, WhereAsked(s.k, h, pid))
  {
    hide KernelOk, MutexOk, Agrees, Enabled, WhereIs, Create, Delete, Suspend, Unsuspend, WritePage, DumpOnTime,
         Queue, HasDevice;
    var w := WhereIs(s.k, pid);
    assert Agrees(s.m, pid, w);
    match h {
      case PageWritten(_, p, base, value) => WriteAgrees(s.m, p, base, value, pid, w);
      case Happens(e) =>
        AskedResident(s.k, s.m, e);
        KernelAgrees(s, e, pid);
    }
  }

  lemma KernelAgrees(s: System, e: Event, pid: nat)
    requires SystemOk(s.k, s.m) && Possible(s, Happens(e)) && DumpOnTime(s.k, e)
    ensures Agrees(MemoryNext(s.k, s.m, Happens(e)), pid, WhereNext(s.k, e, pid))
  {
    hide KernelOk, MutexOk, Agrees, Enabled, WhereIs, Create, Delete, Suspend, Unsuspend, WritePage, DumpOnTime,
         Queue, HasDevice;
    var w := WhereIs(s.k, pid);
    assert Agrees(s.m, pid, w);
    AskedWhere(s.k, e);
    AskedResident(s.k, s.m, e);
    var asked := Asked(s.k, Happens(e));
    if asked.Some? {
      match asked.value {
        case CreateProcess(p, code, size) => CreateAgrees(s.m, p, code, size, pid, w);
        case DeleteProcess(p) => DeleteAgrees(s.m, p, pid, w);
        case SuspendProcess(p) => SuspendAgrees(s.m, p, pid, w);
        case UnSuspendProcess(p) => UnsuspendAgrees(s.m, p, pid, w);
        case WriteBack(_, _, _) =>
      }
    }
  }

  /** Whatever it writes, a page write keeps memory's books. */
  lemma WriteKeepsInv(m: Mem, pid: nat, base: int, value: Page)
    requires Inv(m)
    ensures Inv(WritePage(m, pid, base, value).0)
  {
    hide FramesOwned;
    if WritePage(m, pid, base, value).1.None? {
      var j :| 0 <= j < |Table(m, pid)| && Table(m, pid)[j] == base;
      WriteTakes(m, pid, j, value);
    }
  }

  lemma NextKeepsInv(s: System, h: Happening)
    requires SystemOk(s.k, s.m) && Possible(s, h) && (h.Happens? ==> DumpOnTime(s.k, h.e))
    ensures Inv(MemoryNext(s.k, s.m, h))
  {
    hide KernelOk, MutexOk, Agrees, Enabled, WhereIs, DumpOnTime, Ends, MemoryRuns.Allowed, WritePage, Create, Delete,
         Suspend, Unsuspend, FramesOwned;
    match h {
      case PageWritten(_, pid, base, value) => WriteKeepsInv(s.m, pid, base, value);
      case Happens(e) =>
        AskedAllowedIff(s, h);
        if Asked(s.k, h).Some? {
          MemoryRuns.ServeKeeps(s.m, Asked(s.k, h).value);
        }
    }
  }

  /** One joint step: memory and kernel agree again afterwards. */
  lemma SystemStep(s: System, h: Happening)
    requires SystemOk(s.k, s.m) && Possible(s, h) && (h.Happens? ==> DumpOnTime(s.k, h.e))
    ensures SystemOk(SystemNext(s, h).k, SystemNext(s, h).m)
  {
    hide KernelOk, MutexOk, Agrees, Enabled, WhereIs, WhereNext, DumpOnTime, Ends, Step, MemoryNext, FramesOwned;
    NextKeepsInv(s, h);
    if h.Happens? {
      StepKeeps(s.k, h.e);
      StepWhere(s.k, h.e, 0);
    }
    forall pid: nat ensures Agrees(MemoryNext(s.k, s.m, h), pid, WhereIs(KernelAfter(s.k, h), pid)) {
      RequestAgrees(s, h, pid);
      if h.Happens? {
        StepWhere(s.k, h.e, pid);
      }
    }
  }

  // ---- Runs of kernel and memory

  /** Every happening is possible when it happens, and every dump ends on time. */
  ghost predicate CanHappen(s: System, run: seq<Happening>)
    requires SystemOk(s.k, s.m)
    decreases |run|
  {
    run == [] ||
    (Possible(s, run[0]) && (run[0].Happens? ==> DumpOnTime(s.k, run[0].e))
     && (SystemStep(s, run[0]); CanHappen(SystemNext(s, run[0]), run[1..])))
  }

  /** Where a run leads, and the requests that memory received on the way. */
  ghost function After(s: System, run: seq<Happening>): (r: (System, seq<MemoryRuns.Request>))
    requires SystemOk(s.k, s.m) && CanHappen(s, run)
    ensures SystemOk(r.0.k, r.0.m)
    decreases |run|
  {
    if run == [] then (s, [])
    else
      SystemStep(s, run[0]);
      var (last, log) := After(SystemNext(s, run[0]), run[1..]);
      (last, (if Asked(s.k, run[0]).Some? then [Asked(s.k, run[0]).value] else []) + log)
  }

  /** No write-back of the run is stale when it comes. */
  ghost predicate NoneStale(s: System, run: seq<Happening>)
    requires SystemOk(s.k, s.m) && CanHappen(s, run)
    decreases |run|
  {
    run == [] || (!Stale(s, run[0]) && (SystemStep(s, run[0]); NoneStale(SystemNext(s, run[0]), run[1..])))
  }

  /** Over any run, in any interleaving of stale and fresh timers, IO completions,
      dumps that end on time, unsuspensions and write-backs, memory receives only
      requests that it allows exactly when no write-back is stale; and then what it
      has served is what it holds. */
  lemma {:induction false} RunAllowedIff(s: System, run: seq<Happening>)
    requires SystemOk(s.k, s.m) && CanHappen(s, run)
    ensures MemoryRuns.AllAllowed(s.m, After(s, run).1) <==> NoneStale(s, run)
    ensures NoneStale(s, run) ==> MemoryRuns.Run(s.m, After(s, run).1) == After(s, run).0.m
    decreases |run|
  {
    hide KernelOk, MutexOk, Agrees, Enabled, WhereIs, DumpOnTime, Ends, Step, Stale, Possible, MemoryRuns.Allowed,
         MemoryRuns.Serve, MemoryNext, LeftNext;
    if run != [] {
      SystemStep(s, run[0]);
      AskedAllowedIff(s, run[0]);
      NotAsked(s, run[0]);
      var next := SystemNext(s, run[0]);
      RunAllowedIff(next, run[1..]);
      var log := After(next, run[1..]).1;
      Served(s.k, s.m, run[0]);
      if Asked(s.k, run[0]).Some? {
        ServedFirst(s.m, Asked(s.k, run[0]).value, log, next.m);
        assert After(s, run).1 == [Asked(s.k, run[0]).value] + log;
      } else {
        assert After(s, run).1 == log;
      }
    }
  }

  lemma NotAsked(s: System, h: Happening)
    requires s.m.cfg.Ok()
    ensures Asked(s.k, h).None? ==> !Stale(s, h)
  {
  }

  lemma Served(k: Kernel, m: Mem, h: Happening)
    requires Shape(m) && SwapOk(m)
    ensures MemoryNext(k, m, h) == if Asked(k, h).Some? then MemoryRuns.Serve(m, Asked(k, h).value).0 else m
  {
    hide MemoryRuns.Serve, Asked;
  }

  lemma ServedFirst(m: Mem, r: MemoryRuns.Request, log: seq<MemoryRuns.Request>, next: Mem)
    requires Inv(m) && Inv(next) && next == MemoryRuns.Serve(m, r).0
    ensures MemoryRuns.AllAllowed(m, [r] + log) <==> MemoryRuns.Allowed(m, r) && MemoryRuns.AllAllowed(next, log)
    ensures MemoryRuns.AllAllowed(m, [r] + log) ==> MemoryRuns.Run(m, [r] + log) == MemoryRuns.Run(next, log)
  {
    hide MemoryRuns.Allowed, MemoryRuns.Serve, Inv;
    assert ([r] + log)[1..] == log;
  }

  /** After any run: a process with pages is in swap exactly when it is SUSP_BLOCKED
      or SUSP_READY and not inside the mutex section; and one that executes, is READY
      or BLOCKED has its pages in memory. */
  lemma InSwapIffSuspended(s: System, run: seq<Happening>, pid: nat)
    requires SystemOk(s.k, s.m) && CanHappen(s, run)
    ensures var last := After(s, run).0;
            && (Table(last.m, pid) != [] ==>
                  (!Resident(last.m, pid) <==>
                    StateOf(last.k, pid) in {SUSP_BLOCKED, SUSP_READY} && last.k.mutex != Some(pid)))
            && (StateOf(last.k, pid) in {READY, EXEC, BLOCKED} ==> Exists(last.m, pid) && Resident(last.m, pid))
            && (StateOf(last.k, pid) in {NEW, EXIT} <==> !Exists(last.m, pid))
  {
    hide KernelOk, Inv, CanHappen, After;
    var last := After(s, run).0;
    assert Agrees(last.m, pid, WhereIs(last.k, pid));
  }

  /** A process keeps its bytes over any run without stale write-backs in which it is
      not created, ended or written, however often it is swapped out and in. */
  lemma RunKeepsBytes(s: System, run: seq<Happening>, pid: nat)
    requires SystemOk(s.k, s.m) && CanHappen(s, run) && NoneStale(s, run)
    requires forall i :: 0 <= i < |After(s, run).1| ==> MemoryRuns.SparesImage(After(s, run).1[i], pid)
    requires StateOf(s.k, pid) in {READY, EXEC, BLOCKED} && StateOf(After(s, run).0.k, pid) in {READY, EXEC, BLOCKED}
    ensures MemPages(After(s, run).0.m, pid) == MemPages(s.m, pid)
  {
    hide KernelOk, CanHappen, After;
    RunAllowedIff(s, run);
    assert Agrees(s.m, pid, WhereIs(s.k, pid));
    assert Agrees(After(s, run).0.m, pid, WhereIs(After(s, run).0.k, pid));
    MemoryRuns.SwapRoundTrip(s.m, After(s, run).1, pid);
  }

  // ---- Without preemption no write-back is stale

  /** Whatever was left in a cache belongs to processes that have ended. */
  ghost predicate LeftEnded(s: System) {
    forall x :: x in s.left ==> x.1 < |s.k.procs| && StateOf(s.k, x.1) == EXIT
  }

  predicate NotNew(k: Kernel, pid: nat) { pid < |k.procs| && k.procs[pid].state != NEW }

  /** A process that has left NEW never comes back to it: first by what goes to a CPU
      or leaves one. */
  lemma NeverNewCpu(k: Kernel, e: Event, pid: nat)
    requires Enabled(k, e) && NotNew(k, pid)
        && (e.Dispatch? || e.Preempt? || e.Result? || e.SyscallIO? || e.SyscallDump? || e.SyscallExit?)
    ensures NotNew(Step(k, e), pid)
  {
    hide Queue, Remove, Sorts, HasDevice, FindDevice, FreeSlot;
    match e {
      case Dispatch(_, order, ok) => SentNotNew(SetQueue(k, READY, order[1..]), order[0], FreeSlot(k.cpus), ok, pid);
      case Preempt(cpu, p, ok) => SentNotNew(RemoveByPID(k, READY, p), p, cpu, ok, pid);
      case _ =>
    }
  }

  lemma SentNotNew(k: Kernel, p: nat, cpu: nat, ok: bool, pid: nat)
    requires NotNew(k, pid) && cpu < |k.cpus|
    ensures p < |k.procs| ==> NotNew(SendToExecute(k, p, cpu, ok), pid)
  {
    hide Queue, Remove;
  }

  /** Then by anything else. */
  lemma NeverNewElse(k: Kernel, e: Event, pid: nat)
    requires Enabled(k, e) && NotNew(k, pid)
    requires !(e.Dispatch? || e.Preempt? || e.Result? || e.SyscallIO? || e.SyscallDump? || e.SyscallExit?)
    ensures NotNew(Step(k, e), pid)
  {
    hide Queue, Remove, Sorts, FindFinished, FindWaiting, RemoveBlocked, Scan, Finished, Dumped, Expired;
    match e {
      case TimerFires(t) => ExpiredNotNew(k.(timers := Without(k.timers, t)), k.timers[t], pid);
      case IOFinished(name, p) => FinishedNotNew(k, name, p, pid);
      case DumpDone(d, ok) => DumpedNotNew(k.(dumps := Without(k.dumps, d)), k.dumps[d], ok, pid);
      case _ =>
    }
  }

  lemma ExpiredNotNew(k: Kernel, p: nat, pid: nat)
    requires NotNew(k, pid)
    ensures NotNew(Expired(k, p), pid)
  {
    hide Queue, Remove;
  }

  lemma FinishedNotNew(k: Kernel, name: string, p: nat, pid: nat)
    requires NotNew(k, pid)
    ensures NotNew(Finished(k, name, p), pid)
  {
    hide Queue, Remove, FindFinished;
  }

  lemma DumpedNotNew(k: Kernel, p: nat, ok: bool, pid: nat)
    requires NotNew(k, pid)
    ensures NotNew(Dumped(k, p, ok), pid)
  {
    hide Queue, Remove, RemoveBlocked;
  }

  /** A process that has ended stays so. */
  lemma EndedStays(k: Kernel, e: Event, pid: nat)
    requires KernelOk(k) && MutexOk(k) && Enabled(k, e) && DumpOnTime(k, e) && pid < |k.procs|
        && StateOf(k, pid) == EXIT
    ensures pid < |Step(k, e).procs| && StateOf(Step(k, e), pid) == EXIT
  {
    hide KernelOk, Step, Enabled, DumpOnTime;
    if e.Dispatch? || e.Preempt? || e.Result? || e.SyscallIO? || e.SyscallDump? || e.SyscallExit? {
      NeverNewCpu(k, e, pid);
    } else {
      NeverNewElse(k, e, pid);
    }
    StepWhere(k, e, pid);
    EndedNowhere(k, e, pid);
  }

  lemma EndedNowhere(k: Kernel, e: Event, pid: nat)
    requires KernelOk(k) && MutexOk(k) && Enabled(k, e) && pid < |k.procs| && StateOf(k, pid) == EXIT
    ensures WhereNext(k, e, pid) == Nowhere
  {
    hide Queue, KernelPlaces.PlacesBut, KernelCpus.CpusOk, KernelBlocked.BlockedOk, Ends;
    if e.Admit? {
      KernelPlaces.InPlace(k, KernelPlaces.Held(k), NEW, e.pid);
    }
  }

  /** A result that is no interrupt ends its process. */
  lemma ResultEnds(k: Kernel, pid: nat, burst: int, cpu: nat)
    requires KernelOk(k) && (cpu, pid) in Holders(k, pid)
    ensures pid < |k.procs| && StateOf(Step(k, Result(pid, Exit, burst)), pid) == EXIT
    ensures |Step(k, Result(pid, Exit, burst)).procs| == |k.procs|
  {
    hide Queue, Remove, KernelPlaces.PlacesBut, KernelBlocked.BlockedOk;
    KernelPlaces.InPlace(k, KernelPlaces.Held(k), EXEC, pid);
  }

  lemma LeftStep(s: System, h: Happening)
    requires SystemOk(s.k, s.m) && Possible(s, h) && (h.Happens? ==> DumpOnTime(s.k, h.e)) && LeftEnded(s)
    requires h.Happens? && h.e.Result? ==> h.e.reason == Exit
    ensures LeftEnded(SystemNext(s, h)) && !Stale(s, h)
  {
    hide KernelOk, MutexOk, FramesOwned, Enabled, Step, Agrees, DumpOnTime, MemoryNext, Holders;
    var next := SystemNext(s, h);
    forall x | x in next.left ensures x.1 < |next.k.procs| && StateOf(next.k, x.1) == EXIT {
      if x in s.left {
        if h.Happens? {
          EndedStays(s.k, h.e, x.1);
        }
      } else {
        HolderOf(s.k, h.e.pid, x);
        ResultEnds(s.k, h.e.pid, h.e.burst, x.0);
      }
    }
    if h.PageWritten? {
      WriterAt(s, h.cpu, h.pid);
    }
  }

  lemma HolderOf(k: Kernel, pid: nat, x: (nat, nat))
    requires x in Holders(k, pid)
    ensures x.1 == pid && (x.0, pid) in Holders(k, pid)
  {
  }

  /** The running process is in memory, and what ended is nowhere. */
  lemma WriterAt(s: System, cpu: nat, pid: nat)
    requires WritesFor(s, cpu, pid) && LeftEnded(s)
    ensures WhereIs(s.k, pid) != InSwap
  {
    if (cpu, pid) in s.left {
      assert StateOf(s.k, (cpu, pid).1) == EXIT;
    }
  }

  /** Over any run in which no process is interrupted, no write-back is stale: then
      memory receives only requests that it allows. */
  lemma {:induction false} NoInterruptNoneStale(s: System, run: seq<Happening>)
    requires SystemOk(s.k, s.m) && CanHappen(s, run) && LeftEnded(s)
    requires forall i :: 0 <= i < |run| && run[i].Happens? && run[i].e.Result? ==> run[i].e.reason == Exit
    ensures NoneStale(s, run)
    decreases |run|
  {
    hide KernelOk, MutexOk, Agrees, Enabled, WhereIs, DumpOnTime, Step, Stale, Possible, LeftEnded, MemoryNext,
         LeftNext;
    if run != [] {
      SystemStep(s, run[0]);
      LeftStep(s, run[0]);
      NoInterruptNoneStale(SystemNext(s, run[0]), run[1..]);
    }
  }

  // ---- From the start

  /** The system before its first process, over an empty memory. */
  function Boot(m: Mem): System { System(Start(), m, {}) }

  /** From the start, over any memory: the requests are all allowed exactly when no
      write-back is stale, which is so when nobody is interrupted; memory holds what
      it served; and swap holds the processes that are suspended. */
  lemma FromTheStart(m: Mem, run: seq<Happening>, pid: nat)
    requires Inv(m) && m.procs == [] && m.blocks == []
    ensures SystemOk(Boot(m).k, m)
    ensures CanHappen(Boot(m), run) ==> (
              var (last, log) := After(Boot(m), run);
              && (MemoryRuns.AllAllowed(m, log) <==> NoneStale(Boot(m), run))
              && (MemoryRuns.AllAllowed(m, log) ==> MemoryRuns.Run(m, log) == last.m)
              && ((forall i :: 0 <= i < |run| && run[i].Happens? && run[i].e.Result? ==> run[i].e.reason == Exit) ==>
                    MemoryRuns.AllAllowed(m, log))
              && (Table(last.m, pid) != [] ==>
                    (!Resident(last.m, pid) <==>
                      StateOf(last.k, pid) in {SUSP_BLOCKED, SUSP_READY} && last.k.mutex != Some(pid))))
  {
    hide CanHappen, After, NoneStale, KernelOk, MutexOk, Inv, Agrees;
    SystemStart(m);
    if CanHappen(Boot(m), run) {
      RunAllowedIff(Boot(m), run);
      InSwapIffSuspended(Boot(m), run, pid);
      if forall i :: 0 <= i < |run| && run[i].Happens? && run[i].e.Result? ==> run[i].e.reason == Exit {
        NoInterruptNoneStale(Boot(m), run);
      }
    }
  }

  // ---- Exactly which dumps end on time

  /** The end of a DUMP_MEMORY keeps kernel and memory in agreement exactly when its
      process is still BLOCKED, or has no pages and is not being suspended. */
  lemma DumpKeepsIff(k: Kernel, m: Mem, d: nat, ok: bool)
    requires SystemOk(k, m) && d < |k.dumps|
    ensures var h, pid := Happens(DumpDone(d, ok)), k.dumps[d];
            SystemOk(KernelAfter(k, h), MemoryNext(k, m, h))
            <==> StateOf(k, pid) == BLOCKED || (Table(m, pid) == [] && k.mutex != Some(pid))
  {
    hide KernelOk, Delete;
    var h, pid := Happens(DumpDone(d, ok)), k.dumps[d];
    DumpEnd(k, d, ok);
    assert Agrees(m, pid, WhereIs(k, pid));
    if StateOf(k, pid) == BLOCKED {
      SystemStep(System(k, m, {}), h);
    } else if k.mutex != Some(pid) {
      if Table(m, pid) == [] {
        EmptyDump(k, m, d, ok);
      } else {
        DeletedStays(m, pid);
        assert !Agrees(MemoryNext(k, m, h), pid, WhereIs(KernelAfter(k, h), pid));
      }
    }
  }

  lemma DeletedStays(m: Mem, pid: nat)
    requires Shape(m)
    ensures Resident(Delete(m, pid).0, pid) <==> Resident(m, pid)
  {
  }

  lemma DumpEnd(k: Kernel, d: nat, ok: bool)
    requires KernelOk(k) && MutexOk(k) && d < |k.dumps|
    ensures var pid, next := k.dumps[d], Step(k, DumpDone(d, ok));
            && KernelBlocked.Waits(StateOf(k, pid)) && pid < |k.procs|
            && StateOf(next, pid) == (if ok then READY else EXIT) && next.mutex == k.mutex
            && (MutexOk(next) <==> k.mutex != Some(pid))
  {
    hide KernelCpus.CpusOk, Dumped, KernelPlaces.Places, KernelPlaces.PlacesBut;
    var rest := k.(dumps := Without(k.dumps, d));
    RestPlaces(k, d);
    DumpedWhere(rest, k.dumps[d], ok, 0);
  }

  lemma RestPlaces(k: Kernel, d: nat)
    requires KernelPlaces.Places(k) && d < |k.dumps|
    ensures KernelPlaces.Places(k.(dumps := Without(k.dumps, d)))
  {
    KernelPlaces.SamePlaces(k, k.(dumps := Without(k.dumps, d)), KernelPlaces.Held(k));
  }

  /** A process without pages may end its dump suspended: nothing of it is in swap. */
  lemma EmptyDump(k: Kernel, m: Mem, d: nat, ok: bool)
    requires SystemOk(k, m) && d < |k.dumps| && Table(m, k.dumps[d]) == [] && k.mutex != Some(k.dumps[d])
    ensures var h := Happens(DumpDone(d, ok)); SystemOk(KernelAfter(k, h), MemoryNext(k, m, h))
  {
    hide KernelOk, Step, Dumped, Delete, Agrees, WhereIs;
    var h, pid := Happens(DumpDone(d, ok)), k.dumps[d];
    StepKeeps(k, DumpDone(d, ok));
    DumpEnd(k, d, ok);
    EmptyInMemory(k, m, pid);
    DeleteKeeps(m, pid);
    forall q: nat ensures Agrees(MemoryNext(k, m, h), q, WhereIs(KernelAfter(k, h), q)) {
      assert Agrees(m, q, WhereIs(k, q));
      DumpEndWhere(k, d, ok, q);
      DeleteAgrees(m, pid, q, WhereIs(k, q));
    }
  }

  lemma EmptyInMemory(k: Kernel, m: Mem, pid: nat)
    requires SystemOk(k, m) && Table(m, pid) == [] && KernelBlocked.Waits(StateOf(k, pid))
    ensures Exists(m, pid) && Resident(m, pid) && Agrees(m, pid, InMemory)
  {
    assert Agrees(m, pid, WhereIs(k, pid));
  }

  lemma DumpEndWhere(k: Kernel, d: nat, ok: bool, q: nat)
    requires KernelOk(k) && MutexOk(k) && d < |k.dumps| && k.mutex != Some(k.dumps[d])
    ensures WhereIs(Step(k, DumpDone(d, ok)), q)
         == if q != k.dumps[d] then WhereIs(k, q) else if ok then InMemory else Nowhere
  {
    hide KernelCpus.CpusOk, Dumped, KernelPlaces.Places, KernelPlaces.PlacesBut;
    RestPlaces(k, d);
    DumpedWhere(k.(dumps := Without(k.dumps, d)), k.dumps[d], ok, q);
  }
}
