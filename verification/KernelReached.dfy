/** Runs from the start of kernel and memory that reach what the general theorems
    exclude: a dump that ends late, a stale write-back, a CPU that keeps holding an
    ended process. */
module KernelReached {
  import opened Wrappers
  import opened Pages
  import opened Frames
  import opened Memory
  import opened Requests
  import opened Keeps
  import opened KeepsSwap
  import opened KernelState
  import opened KernelPlaces
  import opened KernelCpus
  import opened KernelBlocked
  import opened KernelRuns
  import opened KernelWhere
  import opened KernelSystem
  import MemoryRuns

  // ---- The kernel at a point of a run

  datatype Shot = Shot(procs: seq<Process>, cpus: seq<Option<nat>>, mts: seq<Blocked>, timers: seq<nat>,
    dumps: seq<nat>, mutex: Option<nat>)

  /** The queues follow from the states. */
  ghost predicate At(k: Kernel, x: Shot) {
    && KernelOk(k) && k.procs == x.procs && k.cpus == x.cpus && k.mts == x.mts && k.timers == x.timers
      && k.dumps == x.dumps
    && k.mutex == x.mutex && k.hand == None && k.devices == []
  }

  function One(s: STATE, burst: int): Process { Process(s, 1, burst, false) }

  /** The only process in its state makes up that state's queue. */
  lemma OnlyOne(k: Kernel, x: Shot, pid: nat)
    requires At(k, x) && pid < |x.procs|
    requires forall p :: 0 <= p < |x.procs| && p != pid ==> x.procs[p].state != x.procs[pid].state
    ensures Queue(k, x.procs[pid].state) == [pid]
  {
    hide CpusOk, BlockedOk;
    var s := x.procs[pid].state;
    var q := Queue(k, s);
    InPlace(k, Held(k), s, pid);
    forall i | 0 <= i < |q| ensures q[i] == pid {
      assert q[i] in q;
      InPlace(k, Held(k), s, q[i]);
    }
    CountIn(k, Held(k), s, pid);
    CountSame(q, pid);
  }

  lemma {:induction false} CountSame(q: seq<nat>, pid: nat)
    requires forall i :: 0 <= i < |q| ==> q[i] == pid
    ensures Count(q, pid) == |q|
  {
    if q != [] {
      CountSame(q[1..], pid);
      assert q == [q[0]] + q[1..];
    }
  }

  lemma InQueue(k: Kernel, x: Shot, pid: nat)
    requires At(k, x) && pid < |x.procs|
    ensures pid in Queue(k, x.procs[pid].state)
  {
    hide CpusOk, BlockedOk, Queue;
    InPlace(k, Held(k), x.procs[pid].state, pid);
  }

  lemma AtCreate(k: Kernel, x: Shot)
    requires At(k, x)
    ensures Enabled(k, CreateProcess(1)) && At(Step(k, CreateProcess(1)), x.(procs := x.procs + [One(NEW, 0)]))
  {
    hide KernelOk, Queue;
    StepKeeps(k, CreateProcess(1));
  }

  lemma AtAdmit(k: Kernel, x: Shot, pid: nat)
    requires At(k, x) && pid < |x.procs| && x.procs[pid] == One(NEW, 0)
    ensures var e := Admit(pid, [], true);
            Enabled(k, e) && At(Step(k, e), x.(procs := x.procs[pid := One(READY, 0)]))
  {
    hide KernelOk, Queue, Remove;
    InQueue(k, x, pid);
    StepKeeps(k, Admit(pid, [], true));
  }

  lemma AtConnect(k: Kernel, x: Shot)
    requires At(k, x)
    ensures Enabled(k, ConnectCPU) && At(Step(k, ConnectCPU), x.(cpus := x.cpus + [None]))
  {
    hide KernelOk, Queue;
    StepKeeps(k, ConnectCPU);
  }

  /** The only READY process goes to the first free slot. */
  lemma AtDispatch(k: Kernel, x: Shot, pid: nat, cpu: nat)
    requires At(k, x) && pid < |x.procs| && x.procs[pid].state == READY && cpu == FreeSlot(x.cpus) < |x.cpus|
    requires forall p :: 0 <= p < |x.procs| && p != pid ==> x.procs[p].state != READY
    ensures var e := Dispatch(NoSort, [pid], true);
            && Enabled(k, e)
            && At(Step(k, e), x.(procs := x.procs[pid := x.procs[pid].(state := EXEC)],
                                 cpus := x.cpus[cpu := Some(pid)]))
  {
    hide KernelOk, Queue, Remove, FreeSlot;
    OnlyOne(k, x, pid);
    StepKeeps(k, Dispatch(NoSort, [pid], true));
  }

  lemma AtInterrupt(k: Kernel, x: Shot, pid: nat)
    requires At(k, x) && pid < |x.procs| && x.procs[pid] == One(EXEC, 0) && x.cpus == [Some(pid)]
    ensures var e := Result(pid, Interrupt, 1);
            Enabled(k, e) && At(Step(k, e), x.(procs := x.procs[pid := One(READY, 1)], cpus := [None]))
  {
    hide KernelOk, Queue, Remove;
    InQueue(k, x, pid);
    StepKeeps(k, Result(pid, Interrupt, 1));
    assert Step(k, Result(pid, Interrupt, 1)).cpus == [None];
  }

  /** A READY process takes the place of the one that was interrupted. */
  lemma AtPreempt(k: Kernel, x: Shot, pid: nat)
    requires At(k, x) && pid < |x.procs| && x.procs[pid] == One(READY, 0) && x.cpus == [None]
    ensures var e := Preempt(0, pid, true);
            Enabled(k, e) && At(Step(k, e), x.(procs := x.procs[pid := One(EXEC, 0)], cpus := [Some(pid)]))
  {
    hide KernelOk, Queue, Remove;
    InQueue(k, x, pid);
    StepKeeps(k, Preempt(0, pid, true));
  }

  function DumpEntry(pid: nat): Blocked { Blocked(pid, "", 0, true) }

  /** Process 0 asks for a dump on the last CPU. */
  lemma AtDump(k: Kernel, x: Shot, cpus: seq<Option<nat>>)
    requires At(k, x) && x.procs != [] && x.procs[0].state == EXEC && x.procs[0].size == 1 && !x.procs[0].timerRunning
    requires x.cpus == cpus + [Some(0)] && Some(0) !in cpus && x.mts == [] && x.dumps == []
    ensures var e := SyscallDump(|cpus|, 1);
            && Enabled(k, e)
            && At(Step(k, e), x.(procs := x.procs[0 := One(BLOCKED, 1)], cpus := cpus + [None],
                                 mts := [DumpEntry(0)], dumps := [0]))
  {
    hide KernelOk, Queue, Remove;
    var e := SyscallDump(|cpus|, 1);
    StepKeeps(k, e);
    assert Step(k, e).cpus == cpus + [None];
  }

  lemma AtScan(k: Kernel, x: Shot)
    requires At(k, x) && x.procs != [] && x.procs[0] == One(BLOCKED, 1) && x.mts == [DumpEntry(0)] && x.timers == []
    ensures Enabled(k, ScanBlocked)
    ensures At(Step(k, ScanBlocked), x.(procs := x.procs[0 := One(BLOCKED, 1).(timerRunning := true)], timers := [0]))
  {
    hide KernelOk, Queue, Remove;
    StepKeeps(k, ScanBlocked);
    assert Scan(k, 0) == k && Starts(k, k.mts[0]);
  }

  lemma AtTimer(k: Kernel, x: Shot)
    requires At(k, x) && x.procs != [] && x.procs[0] == One(BLOCKED, 1).(timerRunning := true) && x.timers == [0]
        && x.mutex == None
    ensures Enabled(k, TimerFires(0))
    ensures At(Step(k, TimerFires(0)), x.(procs := x.procs[0 := One(SUSP_BLOCKED, 1)], timers := [], mutex := Some(0)))
  {
    hide KernelOk, Remove;
    InQueue(k, x, 0);
    StepKeeps(k, TimerFires(0));
  }

  lemma AtSwapDone(k: Kernel, x: Shot)
    requires At(k, x) && x.mutex.Some?
    ensures Enabled(k, SwapDone) && At(Step(k, SwapDone), x.(mutex := None))
  {
    hide KernelOk, Queue;
    StepKeeps(k, SwapDone);
  }

  // ---- Kernel and memory at a point of a run

  /** The run leads from the start, over the empty memory m, to s. */
  ghost predicate Reached(m: Mem, run: seq<Happening>, s: System) {
    && Inv(m) && m.procs == [] && m.blocks == [] && SystemOk(Boot(m).k, m)
    && CanHappen(Boot(m), run) && After(Boot(m), run).0 == s
  }

  /** A run goes on with one more happening. */
  lemma {:induction false} JointOn(s: System, run: seq<Happening>, h: Happening)
    requires SystemOk(s.k, s.m) && CanHappen(s, run)
    requires Possible(After(s, run).0, h) && (h.Happens? ==> DumpOnTime(After(s, run).0.k, h.e))
    ensures CanHappen(s, run + [h]) && After(s, run + [h]).0 == SystemNext(After(s, run).0, h)
    decreases |run|
  {
    hide KernelOk, MutexOk, Agrees, FramesOwned, Enabled, DumpOnTime, Step, MemoryNext, LeftNext, Asked;
    if run == [] {
      SystemStep(s, h);
      assert run + [h] == [h] && [h][1..] == [];
    } else {
      SystemStep(s, run[0]);
      JointOn(SystemNext(s, run[0]), run[1..], h);
      assert (run + [h])[1..] == run[1..] + [h] && (run + [h])[0] == run[0];
    }
  }

  lemma ReachOn(m: Mem, run: seq<Happening>, s: System, h: Happening)
    requires Reached(m, run, s) && Possible(s, h) && (h.Happens? ==> DumpOnTime(s.k, h.e))
    ensures SystemOk(s.k, s.m) && Reached(m, run + [h], SystemNext(s, h))
  {
    hide KernelOk, MutexOk, Agrees, FramesOwned, Enabled, DumpOnTime, CanHappen, After, Possible;
    JointOn(Boot(m), run, h);
  }

  /** An event that asks nothing of memory. */
  lemma QuietOn(m: Mem, run: seq<Happening>, s: System, e: Event) returns (next: System)
    requires Reached(m, run, s) && Enabled(s.k, e) && !e.Admit? && !e.Unsuspended? && !e.DumpDone?
    requires Asked(s.k, Happens(e)) == None
    ensures next == System(Step(s.k, e), s.m, LeftNext(s.k, s.left, Happens(e))) && Reached(m, run + [Happens(e)], next)
  {
    hide KernelOk, MutexOk, Agrees, FramesOwned, Enabled, Step, LeftNext, Asked, CanHappen, After;
    ReachOn(m, run, s, Happens(e));
    next := SystemNext(s, Happens(e));
  }

  /** What the runs below need of memory: what is left, and process 0's one page. */
  ghost predicate Room(m: Mem, pages: nat) {
    Inv(m) && m.remaining == pages * m.cfg.pageSize
  }

  /** Memory admits a process of one page. */
  lemma AdmitOn(m: Mem, run: seq<Happening>, s: System, x: Shot, pid: nat, pages: nat) returns (next: System)
    requires Reached(m, run, s) && At(s.k, x) && pid < |x.procs| && x.procs[pid] == One(NEW, 0)
    requires Room(s.m, pages) && pages > 0
    ensures Reached(m, run + [Happens(Admit(pid, [], true))], next) && next.left == s.left
    ensures At(next.k, x.(procs := x.procs[pid := One(READY, 0)]))
    ensures Room(next.m, pages - 1) && |Table(next.m, pid)| == 1
    ensures forall q: nat :: q != pid ==> |Table(next.m, q)| == |Table(s.m, q)|
  {
    hide KernelOk, MutexOk, FramesOwned, Enabled, Step, CanHappen, After, Create;
    var e := Admit(pid, [], true);
    AtAdmit(s.k, x, pid);
    var size := s.m.cfg.pageSize;
    assert Agrees(s.m, pid, WhereIs(s.k, pid));
    PageForOne(size);
    MulMore(pages, size);
    CreateCosts(s.m, pid, 1);
    ReachOn(m, run, s, Happens(e));
    next := SystemNext(s, Happens(e));
    forall q: nat | q != pid ensures |Table(next.m, q)| == |Table(s.m, q)| {
      assert SameImage(s.m, next.m, q);
    }
  }

  lemma PageForOne(size: nat)
    requires size >= 1
    ensures PagesFor(1, size) == 1
  {
    PagesForBounds(1, size);
    assert 1 <= 1 * size <==> PagesFor(1, size) <= 1;
  }

  lemma MulMore(pages: nat, size: nat)
    requires pages > 0 && size >= 1
    ensures pages * size == (pages - 1) * size + size >= 1
  {
    assert pages * size == (pages - 1) * size + size;
    assert (pages - 1) * size >= 0;
  }

  /** The suspension of process 0 is done: its page is free again. */
  lemma SwapOn(m: Mem, run: seq<Happening>, s: System, x: Shot, pages: nat) returns (next: System)
    requires Reached(m, run, s) && At(s.k, x) && x.mutex == Some(0) && Room(s.m, pages) && |Table(s.m, 0)| == 1
    ensures Reached(m, run + [Happens(SwapDone)], next) && next.left == s.left && At(next.k, x.(mutex := None))
    ensures Room(next.m, pages + 1) && |Table(next.m, 0)| == 1
  {
    hide KernelOk, FramesOwned, Enabled, Step, CanHappen, After, CountFree;
    AtSwapDone(s.k, x);
    assert Agrees(s.m, 0, WhereIs(s.k, 0));
    ReachOn(m, run, s, Happens(SwapDone));
    next := SystemNext(s, Happens(SwapDone));
  }

  // ---- The runs

  /** Process 0 is created, admitted and executes on the only CPU. */
  function Executing(): seq<Happening> {
    [Happens(CreateProcess(1))] + [Happens(Admit(0, [], true))] + [Happens(ConnectCPU)]
      + [Happens(Dispatch(NoSort, [0], true))]
  }

  lemma BootReached(m: Mem)
    requires Inv(m) && m.procs == [] && m.blocks == []
    ensures Reached(m, [], Boot(m)) && At(Boot(m).k, Shot([], [], [], [], [], None))
  {
    hide Inv;
    SystemStart(m);
    StartOk();
  }

  lemma ExecutingReached(m: Mem, pages: nat) returns (s: System)
    requires Inv(m) && m.procs == [] && m.blocks == [] && Room(m, pages) && pages > 0
    ensures Reached(m, Executing(), s) && At(s.k, Shot([One(EXEC, 0)], [Some(0)], [], [], [], None))
    ensures s.left == {} && Room(s.m, pages - 1) && |Table(s.m, 0)| == 1
  {
    hide KernelOk, Reached, Enabled, Step, Room;
    BootReached(m);
    s := Boot(m);
    AtCreate(s.k, Shot([], [], [], [], [], None));
    s := QuietOn(m, [], s, CreateProcess(1));
    assert [] + [Happens(CreateProcess(1))] == [Happens(CreateProcess(1))];
    var x := Shot([One(NEW, 0)], [], [], [], [], None);
    s := AdmitOn(m, [Happens(CreateProcess(1))], s, x, 0, pages);
    x := x.(procs := [One(READY, 0)]);
    AtConnect(s.k, x);
    s := QuietOn(m, [Happens(CreateProcess(1))] + [Happens(Admit(0, [], true))], s, ConnectCPU);
    x := x.(cpus := [None]);
    AtDispatch(s.k, x, 0, 0);
    s := QuietOn(m, [Happens(CreateProcess(1))] + [Happens(Admit(0, [], true))] + [Happens(ConnectCPU)], s,
                 Dispatch(NoSort, [0], true));
  }

  /** Process 0 asks for a dump on the last CPU, and its timer runs out. */
  function Suspending(run: seq<Happening>, cpu: nat): seq<Happening> {
    run + [Happens(SyscallDump(cpu, 1))] + [Happens(ScanBlocked)] + [Happens(TimerFires(0))] + [Happens(SwapDone)]
  }

  lemma DumpOn(m: Mem, run: seq<Happening>, s: System, x: Shot, cpus: seq<Option<nat>>) returns (next: System)
    requires Reached(m, run, s) && At(s.k, x)
    requires x.procs != [] && x.procs[0].state == EXEC && x.procs[0].size == 1 && !x.procs[0].timerRunning
    requires x.cpus == cpus + [Some(0)] && Some(0) !in cpus && x.mts == [] && x.dumps == [] && x.timers == []
        && x.mutex == None
    ensures Reached(m, run + [Happens(SyscallDump(|cpus|, 1))], next) && next.m == s.m
        && next.left == s.left - {(|cpus|, 0)}
    ensures At(next.k, Shot(x.procs[0 := One(BLOCKED, 1)], cpus + [None], [DumpEntry(0)], [], [0], None))
  {
    hide Reached, Enabled, Step, KernelOk;
    AtDump(s.k, x, cpus);
    next := QuietOn(m, run, s, SyscallDump(|cpus|, 1));
  }

  lemma TimerOn(m: Mem, run: seq<Happening>, s: System, x: Shot) returns (next: System)
    requires Reached(m, run, s) && At(s.k, x)
    requires x.procs != [] && x.procs[0] == One(BLOCKED, 1) && x.mts == [DumpEntry(0)] && x.timers == []
        && x.mutex == None
    ensures Reached(m, run + [Happens(ScanBlocked)] + [Happens(TimerFires(0))], next) && next.m == s.m
        && next.left == s.left
    ensures At(next.k, x.(procs := x.procs[0 := One(SUSP_BLOCKED, 1)], mutex := Some(0)))
  {
    hide Reached, Enabled, Step, KernelOk;
    AtScan(s.k, x);
    next := QuietOn(m, run, s, ScanBlocked);
    var y := x.(procs := x.procs[0 := One(BLOCKED, 1).(timerRunning := true)], timers := [0]);
    AtTimer(next.k, y);
    next := QuietOn(m, run + [Happens(ScanBlocked)], next, TimerFires(0));
  }

  lemma SuspendOn(m: Mem, run: seq<Happening>, s: System, x: Shot, cpus: seq<Option<nat>>, pages: nat)
    returns (next: System)
    requires Reached(m, run, s) && At(s.k, x) && Room(s.m, pages) && |Table(s.m, 0)| == 1
    requires x.procs != [] && x.procs[0].state == EXEC && x.procs[0].size == 1 && !x.procs[0].timerRunning
    requires x.cpus == cpus + [Some(0)] && Some(0) !in cpus && x.mts == [] && x.dumps == [] && x.timers == []
        && x.mutex == None
    ensures Reached(m, Suspending(run, |cpus|), next) && Room(next.m, pages + 1) && |Table(next.m, 0)| == 1
    ensures At(next.k, Shot(x.procs[0 := One(SUSP_BLOCKED, 1)], cpus + [None], [DumpEntry(0)], [], [0], None))
    ensures next.left == s.left - {(|cpus|, 0)}
  {
    hide Reached, Room, KernelOk;
    next := DumpOn(m, run, s, x, cpus);
    var y := Shot(x.procs[0 := One(BLOCKED, 1)], cpus + [None], [DumpEntry(0)], [], [0], None);
    next := TimerOn(m, run + [Happens(SyscallDump(|cpus|, 1))], next, y);
    var z := Shot(x.procs[0 := One(SUSP_BLOCKED, 1)], cpus + [None], [DumpEntry(0)], [], [0], Some(0));
    assert y.procs[0 := One(SUSP_BLOCKED, 1)] == z.procs;
    next := SwapOn(m, run + [Happens(SyscallDump(|cpus|, 1))] + [Happens(ScanBlocked)] + [Happens(TimerFires(0))],
      next, z, pages);
  }

  // ---- A dump that ends late

  /** The only process dumps its memory; its timer runs out before the dump is done,
      and when the dump ends the process is READY without its pages: kernel and
      memory no longer agree. */
  lemma LateDumpReached(m: Mem, pages: nat) returns (s: System)
    requires Inv(m) && m.procs == [] && m.blocks == [] && Room(m, pages) && pages > 0
    ensures Reached(m, Suspending(Executing(), 0), s) && s.k.dumps == [0]
    ensures var late := Happens(DumpDone(0, true));
            && Possible(s, late) && WhereIs(s.k, 0) == InSwap && WhereIs(SystemNext(s, late).k, 0) == InMemory
            && !SystemOk(SystemNext(s, late).k, SystemNext(s, late).m)
  {
    hide Reached, Room, KernelOk, Step, FramesOwned;
    s := ExecutingReached(m, pages);
    s := SuspendOn(m, Executing(), s, Shot([One(EXEC, 0)], [Some(0)], [], [], [], None), [], pages - 1);
    ReachedOk(m, Suspending(Executing(), 0), s);
    DumpKeepsIff(s.k, s.m, 0, true);
    DumpEnd(s.k, 0, true);
  }

  lemma ReachedOk(m: Mem, run: seq<Happening>, s: System)
    requires Reached(m, run, s)
    ensures SystemOk(s.k, s.m)
  {
  }

  // ---- A stale write-back

  /** Process 1 is admitted, and process 0 interrupted. */
  function Interrupted(): seq<Happening> {
    Executing() + [Happens(CreateProcess(1))] + [Happens(Admit(1, [], true))] + [Happens(Result(0, Interrupt, 1))]
  }

  /** Process 1 takes its place, and process 0 goes on on a second CPU. */
  function Preempted(): seq<Happening> {
    Interrupted() + [Happens(Preempt(0, 1, true))] + [Happens(ConnectCPU)] + [Happens(Dispatch(NoSort, [0], true))]
  }

  /** There it blocks and is suspended, and process 2 takes its frame. */
  function FrameTaken(): seq<Happening> {
    Suspending(Preempted(), 1) + [Happens(CreateProcess(1))] + [Happens(Admit(2, [], true))]
  }

  lemma InterruptedReached(m: Mem) returns (s: System)
    requires Inv(m) && m.procs == [] && m.blocks == [] && Room(m, 2)
    ensures Reached(m, Interrupted(), s)
    ensures At(s.k, Shot([One(READY, 1), One(READY, 0)], [None], [], [], [], None))
    ensures (0, 0) in s.left && Room(s.m, 0) && |Table(s.m, 0)| == 1
  {
    hide KernelOk, Reached, Enabled, Step, Room, Executing;
    s := ExecutingReached(m, 2);
    var run, x := Executing(), Shot([One(EXEC, 0)], [Some(0)], [], [], [], None);
    AtCreate(s.k, x);
    s := QuietOn(m, run, s, CreateProcess(1));
    run, x := run + [Happens(CreateProcess(1))], x.(procs := [One(EXEC, 0), One(NEW, 0)]);
    s := AdmitOn(m, run, s, x, 1, 1);
    run, x := run + [Happens(Admit(1, [], true))], x.(procs := [One(EXEC, 0), One(READY, 0)]);
    s := InterruptOn(m, run, s, x);
  }

  lemma PreemptedReached(m: Mem) returns (s: System)
    requires Inv(m) && m.procs == [] && m.blocks == [] && Room(m, 2)
    ensures Reached(m, Preempted(), s)
    ensures At(s.k, Shot([One(EXEC, 1), One(EXEC, 0)], [Some(1), Some(0)], [], [], [], None))
    ensures (0, 0) in s.left && Room(s.m, 0) && |Table(s.m, 0)| == 1
  {
    hide KernelOk, Reached, Enabled, Step, Room, Interrupted;
    s := InterruptedReached(m);
    var run, x := Interrupted(), Shot([One(READY, 1), One(READY, 0)], [None], [], [], [], None);
    AtPreempt(s.k, x, 1);
    s := QuietOn(m, run, s, Preempt(0, 1, true));
    run, x := run + [Happens(Preempt(0, 1, true))], x.(procs := [One(READY, 1), One(EXEC, 0)], cpus := [Some(1)]);
    AtConnect(s.k, x);
    s := QuietOn(m, run, s, ConnectCPU);
    run, x := run + [Happens(ConnectCPU)], x.(cpus := [Some(1), None]);
    AtDispatch(s.k, x, 0, 1);
    s := QuietOn(m, run, s, Dispatch(NoSort, [0], true));
  }

  /** The interrupted process leaves its entries on the CPU. */
  lemma InterruptOn(m: Mem, run: seq<Happening>, s: System, x: Shot) returns (next: System)
    requires Reached(m, run, s) && At(s.k, x) && x.procs != [] && x.procs[0] == One(EXEC, 0) && x.cpus == [Some(0)]
    ensures Reached(m, run + [Happens(Result(0, Interrupt, 1))], next) && next.m == s.m && (0, 0) in next.left
    ensures At(next.k, x.(procs := x.procs[0 := One(READY, 1)], cpus := [None]))
  {
    hide Reached, Enabled, Step;
    AtInterrupt(s.k, x, 0);
    assert (0, 0) in Holders(s.k, 0);
    next := QuietOn(m, run, s, Result(0, Interrupt, 1));
  }

  /** With no memory left every frame is held. */
  lemma FullBit(m: Mem, pid: nat, j: nat)
    requires Room(m, 0) && j < |Table(m, pid)|
    ensures Bit(m.reserved, m.cfg.pageSize, Table(m, pid)[j]) == 1
  {
    hide FramesOwned;
    TableOk(m, pid);
    NoneFree(m.reserved, m.cfg.pageSize);
  }

  lemma {:induction false} NoneFree(bits: seq<bool>, size: nat)
    requires CountFree(bits) * size == 0 && size >= 1
    ensures forall f :: 0 <= f < |bits| ==> bits[f]
  {
    if bits != [] {
      var n := |bits| - 1;
      if CountFree(bits) > 0 {
        MulMore(CountFree(bits), size);
      }
      NoneFree(bits[..n], size);
      assert forall f :: 0 <= f < n ==> bits[..n][f] == bits[f];
    }
  }

  /** In a memory of two pages, with two CPUs and three processes: the first CPU
      writes back what process 0 left there, through the table of a process in swap,
      and overwrites the page of a process that wrote nothing. */
  lemma StaleWriteReached(m: Mem) returns (s: System, q: nat, value: Page)
    requires Inv(m) && m.procs == [] && m.blocks == [] && m.remaining == 2 * m.cfg.pageSize
    ensures Reached(m, FrameTaken(), s) && StateOf(s.k, 0) == SUSP_BLOCKED && |Table(s.m, 0)| == 1
    ensures var h := PageWritten(0, 0, Table(s.m, 0)[0], value);
            && SystemOk(s.k, s.m) && Possible(s, h) && Stale(s, h)
            && q != 0 && Resident(s.m, q) && Inv(SystemNext(s, h).m) && !SameImage(s.m, SystemNext(s, h).m, q)
  {
    hide Reached, Enabled, Step, Preempted, FramesOwned, KernelOk;
    s := PreemptedReached(m);
    var x := Shot([One(EXEC, 1), One(EXEC, 0)], [Some(1), Some(0)], [], [], [], None);
    s := SuspendOn(m, Preempted(), s, x, [Some(1)], 0);
    x := Shot([One(SUSP_BLOCKED, 1), One(EXEC, 0)], [Some(1), None], [DumpEntry(0)], [], [0], None);
    AtCreate(s.k, x);
    s := QuietOn(m, Suspending(Preempted(), 1), s, CreateProcess(1));
    x := x.(procs := [One(SUSP_BLOCKED, 1), One(EXEC, 0), One(NEW, 0)]);
    s := AdmitOn(m, Suspending(Preempted(), 1) + [Happens(CreateProcess(1))], s, x, 2, 1);
    ReachedOk(m, FrameTaken(), s);
    FullBit(s.m, 0, 0);
    q, value := HarmOn(s, Table(s.m, 0)[0]);
  }

  lemma HarmOn(s: System, base: int) returns (q: nat, value: Page)
    requires SystemOk(s.k, s.m) && WritesFor(s, 0, 0) && Stale(s, PageWritten(0, 0, base, []))
    ensures var h := PageWritten(0, 0, base, value);
            && Possible(s, h) && Stale(s, h)
            && q != 0 && Resident(s.m, q) && Inv(SystemNext(s, h).m) && !SameImage(s.m, SystemNext(s, h).m, q)
  {
    hide KernelOk, FramesOwned, WritePage, SameImage, Step;
    WriteAllowedIff(s, PageWritten(0, 0, base, []));
    q, value := MemoryRuns.WriteHarms(s.m, 0, base);
    WriteKeepsInv(s.m, 0, base, value);
  }

  // ---- A CPU that keeps holding an ended process

  /** The only process asks for a device that the kernel does not know. */
  lemma MissingDeviceReached(m: Mem, pages: nat) returns (s: System)
    requires Inv(m) && m.procs == [] && m.blocks == [] && Room(m, pages) && pages > 0
    ensures Reached(m, Executing(), s)
    ensures var e := SyscallIO(0, "disk", 1, 1);
            Enabled(s.k, e) && MissingDevice(s.k, e) && HoldsExec(s.k) && !HoldsExec(Step(s.k, e))
  {
    hide Reached, Room, KernelOk, Step;
    s := ExecutingReached(m, pages);
    ReachedOk(m, Executing(), s);
    EndedHeldIff(s.k, SyscallIO(0, "disk", 1, 1));
  }
}
