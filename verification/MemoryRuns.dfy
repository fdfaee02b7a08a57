/** Whole runs of the memory module, and exactly when its promises hold. */
module MemoryRuns {
  import opened Wrappers
  import opened Addressing
  import opened Pages
  import opened Frames
  import opened SwapText
  import opened Memory
  import opened Requests
  import opened Keeps
  import opened KeepsSwap

  datatype Request =
    | CreateProcess(pid: nat, lines: seq<seq<string>>, size: nat)
    | DeleteProcess(pid: nat)
    | WriteBack(pid: nat, base: int, value: Page)
    | SuspendProcess(pid: nat)
    | UnSuspendProcess(pid: nat)

  function Serve(m: Mem, r: Request): (Mem, Option<Error>)
    requires Shape(m) && SwapOk(m)
  {
    match r
    case CreateProcess(pid, lines, size) => Create(m, pid, lines, size)
    case DeleteProcess(pid) => Delete(m, pid)
    case WriteBack(pid, base, value) => WritePage(m, pid, base, value)
    case SuspendProcess(pid) => Suspend(m, pid)
    case UnSuspendProcess(pid) => Unsuspend(m, pid)
  }

  /** The frame behind a table entry that a write may go through: the process is
      in memory, or nobody holds the frame. */
  predicate PageSafe(m: Mem, pid: nat, base: int)
    requires m.cfg.Ok()
  {
    Resident(m, pid) || Bit(m.reserved, m.cfg.pageSize, base) == 0
  }

  /** What the callers of the module owe it: new pids are new, deletion and
      suspension are for processes that are not swapped out, and page writes for
      those or for frames that nobody holds. */
  predicate Allowed(m: Mem, r: Request)
    requires m.cfg.Ok()
  {
    match r
    case CreateProcess(pid, _, _) => !Exists(m, pid)
    case UnSuspendProcess(_) => true
    case WriteBack(pid, base, _) => base in Table(m, pid) ==> PageSafe(m, pid, base)
    case _ => Resident(m, r.pid)
  }

  /** A safe page write leaves every other image. */
  lemma WriteSafe(m: Mem, pid: nat, base: int, value: Page, q: nat)
    requires Inv(m) && base in Table(m, pid) && |value| == m.cfg.pageSize && q != pid && PageSafe(m, pid, base)
    ensures SameImage(m, WritePage(m, pid, base, value).0, q)
  {
    hide WritePage, MemPages, SameImage, CountFree;
    if Resident(m, q) && base in Table(m, q) {
      ResidentTable(m, FindProc(m.procs, q));
      HeldAlone(m, q, base, pid);
    }
    WriteSpares(m, pid, base, value, q);
  }

  /** One request keeps the invariant; a refused request changes nothing; and
      only creation, deletion and page writes touch an image, their own. */
  lemma ServeKeeps(m: Mem, r: Request)
    requires Inv(m) && Allowed(m, r)
    ensures Inv(Serve(m, r).0)
    ensures Serve(m, r).1.Some? ==> Serve(m, r).0 == m
    ensures forall q :: q != r.pid ==> SameImage(m, Serve(m, r).0, q)
    ensures r.SuspendProcess? || r.UnSuspendProcess? ==> SameImage(m, Serve(m, r).0, r.pid)
  {
    match r
    case CreateProcess(pid, lines, size) => CreateKeeps(m, pid, lines, size);
    case DeleteProcess(pid) => DeleteKeeps(m, pid);
    case WriteBack(pid, base, value) =>
      if WritePage(m, pid, base, value).1.None? {
        var j :| 0 <= j < |Table(m, pid)| && Table(m, pid)[j] == base;
        WriteTakes(m, pid, j, value);
        forall q: nat | q != pid ensures SameImage(m, Serve(m, r).0, q) {
          WriteSafe(m, pid, base, value, q);
        }
      }
    case SuspendProcess(pid) => SuspendKeeps(m, pid);
    case UnSuspendProcess(pid) => UnsuspendKeeps(m, pid);
  }

  ghost predicate AllAllowed(m: Mem, run: seq<Request>)
    requires Inv(m)
    decreases |run|
  {
    run == [] || (Allowed(m, run[0]) && (ServeKeeps(m, run[0]); AllAllowed(Serve(m, run[0]).0, run[1..])))
  }

  ghost function Run(m: Mem, run: seq<Request>): (r: Mem)
    requires Inv(m) && AllAllowed(m, run)
    ensures Inv(r)
    decreases |run|
  {
    if run == [] then m else ServeKeeps(m, run[0]); Run(Serve(m, run[0]).0, run[1..])
  }

  /** Requests that leave the image of pid to its owner. */
  predicate SparesImage(r: Request, pid: nat) {
    r.pid != pid || r.SuspendProcess? || r.UnSuspendProcess?
  }

  lemma ServeSpares(m: Mem, r: Request, pid: nat) returns (next: Mem)
    requires Inv(m) && Allowed(m, r) && SparesImage(r, pid)
    ensures next == Serve(m, r).0 && Inv(next) && SameImage(m, next, pid)
  {
    ServeKeeps(m, r);
    next := Serve(m, r).0;
  }

  lemma SameImageTransitive(a: Mem, b: Mem, c: Mem, pid: nat)
    requires Shape(a) && Shape(b) && Shape(c) && SameImage(a, b, pid) && SameImage(b, c, pid)
    ensures SameImage(a, c, pid)
  {
  }

  /** Over any run without its own creation, deletion or writes, the image of a
      process stays byte for byte the same, however often it and the others move. */
  lemma {:induction false} RunKeepsImage(m: Mem, run: seq<Request>, pid: nat)
    requires Inv(m) && AllAllowed(m, run)
    requires forall i :: 0 <= i < |run| ==> SparesImage(run[i], pid)
    ensures SameImage(m, Run(m, run), pid)
    decreases |run|
  {
    if run != [] {
      var next := ServeSpares(m, run[0], pid);
      RunKeepsImage(next, run[1..], pid);
      SameImageTransitive(m, next, Run(next, run[1..]), pid);
    }
  }

  /** The swap round trip: whenever a process is in memory before and after a run
      that does not write it, its frames hold the same bytes, though it may have
      been swapped out and back in between and its frames may differ. */
  lemma SwapRoundTrip(m: Mem, run: seq<Request>, pid: nat)
    requires Inv(m) && AllAllowed(m, run)
    requires forall i :: 0 <= i < |run| ==> SparesImage(run[i], pid)
    requires Resident(m, pid) && Resident(Run(m, run), pid)
    ensures MemPages(Run(m, run), pid) == MemPages(m, pid)
  {
    RunKeepsImage(m, run, pid);
    SwappedIff(m.blocks, pid);
    SwappedIff(Run(m, run).blocks, pid);
  }

  /** Allocation of any size up to the remaining memory succeeds, without panic,
      exactly when the memory is a whole number of pages. */
  lemma AllocatorSafeIff(m: Mem)
    requires AllocOk(m)
    ensures (forall size: nat :: 0 < size <= m.remaining ==> Allocate(m, size).1.Ok?) <==> Slack(m) == 0
  {
    forall size: nat | 0 < size <= m.remaining
      ensures Allocate(m, size).1.Ok? <==> size <= CountFree(m.reserved) * m.cfg.pageSize {
      AllocateOutcome(m, size);
    }
    MulNonNegative(CountFree(m.reserved), m.cfg.pageSize);
    if Slack(m) > 0 {
      assert 0 < m.remaining && !Allocate(m, m.remaining).1.Ok?;
    }
  }

  // ---- Requests for a swapped-out process

  lemma SameBitsSameReserved(a: seq<bool>, b: seq<bool>, size: nat)
    requires size >= 1 && |a| == |b| && forall base: int :: Bit(a, size, base) == Bit(b, size, base)
    ensures a == b
  {
    forall f | 0 <= f < |a| ensures a[f] == b[f] {
      FrameBase(f, size, |a|);
      assert Bit(a, size, f * size) == Bit(b, size, f * size);
    }
  }

  /** Releasing the stale table of a swapped-out process breaks the books. */
  lemma StaleReleaseBreaks(m: Mem, bases: seq<int>, next: Mem)
    requires Inv(m) && BasesOk(m, bases) && bases != []
    requires next.cfg == m.cfg && next.bytes == m.bytes
    requires next.reserved == Release(m, bases).reserved && next.remaining == Release(m, bases).remaining
    requires Owned(next.procs, Swapped(next.blocks)) == Owned(m.procs, Swapped(m.blocks))
    ensures !AllocOk(next)
  {
    MulGap(|bases|, m.cfg.pageSize);
    if FramesOwned(next) {
      forall b: int ensures Bit(next.reserved, m.cfg.pageSize, b) == Bit(m.reserved, m.cfg.pageSize, b) {
        assert Owned(next.procs, Swapped(next.blocks))[b] == Bit(next.reserved, m.cfg.pageSize, b);
        assert Owned(m.procs, Swapped(m.blocks))[b] == Bit(m.reserved, m.cfg.pageSize, b);
      }
      SameBitsSameReserved(next.reserved, m.reserved, m.cfg.pageSize);
    }
  }

  /** Suspending a process keeps the allocator's books exactly when the process
      is not already swapped out. */
  lemma SuspendSafeIff(m: Mem, pid: nat)
    requires Inv(m) && Exists(m, pid) && Table(m, pid) != []
    ensures AllocOk(Suspend(m, pid).0) <==> Resident(m, pid)
  {
    if Resident(m, pid) {
      SuspendKeeps(m, pid);
    } else {
      TableOk(m, pid);
      SwappedAppend(m.blocks, Block(pid, MemPages(m, pid)));
      OwnedSame(m.procs, Swapped(m.blocks), Swapped(Suspend(m, pid).0.blocks));
      StaleReleaseBreaks(m, Table(m, pid), Suspend(m, pid).0);
    }
  }

  /** Deleting a process keeps the allocator's books exactly when the process is
      not swapped out. */
  lemma DeleteSafeIff(m: Mem, pid: nat)
    requires Inv(m) && Exists(m, pid) && Table(m, pid) != []
    ensures AllocOk(Delete(m, pid).0) <==> Resident(m, pid)
  {
    if Resident(m, pid) {
      DeleteKeeps(m, pid);
    } else {
      var i := FindProc(m.procs, pid);
      TableOk(m, pid);
      OwnedAt(m.procs, i, Swapped(m.blocks));
      RemoveOwned(m.procs, i, Swapped(m.blocks));
      StaleReleaseBreaks(m, Table(m, pid), Delete(m, pid).0);
    }
  }

  // ---- Page writes through a stale table

  /** No write of a page there changes what any other process has. */
  ghost predicate Harmless(m: Mem, pid: nat, base: int)
    requires Inv(m) && base in Table(m, pid)
  {
    forall value: Page, q: nat :: |value| == m.cfg.pageSize && q != pid ==>
      SameImage(m, WritePage(m, pid, base, value).0, q)
  }

  /** A page of other bytes, all of them different. */
  function Other(page: Page): (r: Page)
    ensures |r| == |page| && forall k :: 0 <= k < |page| ==> r[k] != page[k]
  {
    seq(|page|, k requires 0 <= k < |page| => if page[k] == 0 then 1 else 0)
  }

  /** A process in swap whose old frame is taken overwrites its new owner. */
  lemma WriteHarms(m: Mem, pid: nat, base: int) returns (q: nat, value: Page)
    requires Inv(m) && base in Table(m, pid) && !PageSafe(m, pid, base)
    ensures q != pid && |value| == m.cfg.pageSize && Resident(m, q) && base in Table(m, q)
    ensures !SameImage(m, WritePage(m, pid, base, value).0, q)
  {
    hide WritePage, CountFree;
    assert Owned(m.procs, Swapped(m.blocks))[base] == Bit(m.reserved, m.cfg.pageSize, base);
    var i := OwnerOf(m.procs, base, Swapped(m.blocks));
    q := m.procs[i].pid;
    TableAt(m, i);
    var j :| 0 <= j < |Table(m, q)| && Table(m, q)[j] == base;
    value := Other(MemPages(m, q)[j]);
    WriteKeeps(m, q, j, value);
    SameWriter(m, pid, q, base, value);
    HarmShows(m, WritePage(m, pid, base, value).0, q, j, value);
  }

  /** The bytes that a write changes do not depend on who asks. */
  lemma SameWriter(m: Mem, pid: nat, q: nat, base: int, value: Page)
    requires Shape(m) && base in Table(m, pid) && base in Table(m, q)
    ensures WritePage(m, pid, base, value) == WritePage(m, q, base, value)
  {
  }

  lemma HarmShows(m: Mem, next: Mem, q: nat, j: nat, value: Page)
    requires Inv(m) && Inv(next) && Resident(m, q) && next.blocks == m.blocks && j < |MemPages(m, q)|
    requires MemPages(next, q) == MemPages(m, q)[j := value] && value == Other(MemPages(m, q)[j])
    ensures !SameImage(m, next, q)
  {
    SwappedIff(m.blocks, q);
    assert value[0] != MemPages(m, q)[j][0];
  }

  /** A page write through a table entry harms no other image exactly when the
      process is resident or the frame is free. */
  lemma WriteSafeIff(m: Mem, pid: nat, base: int)
    requires Inv(m) && base in Table(m, pid)
    ensures Harmless(m, pid, base) <==> PageSafe(m, pid, base)
  {
    hide SameImage, PageSafe;
    if PageSafe(m, pid, base) {
      forall value: Page, q: nat | |value| == m.cfg.pageSize && q != pid
        ensures SameImage(m, WritePage(m, pid, base, value).0, q) {
        WriteSafe(m, pid, base, value, q);
      }
    } else {
      var q, value := WriteHarms(m, pid, base);
    }
  }
}
