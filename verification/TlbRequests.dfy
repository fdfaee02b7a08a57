/** The TLB and the requests that memory serves: nobody flushes the buffer, so this
    is when it still translates as the page tables do afterwards. */
module TlbRequests {
  import opened Wrappers
  import opened Addressing
  import opened Frames
  import opened SwapText
  import opened Pages
  import opened Memory
  import opened Requests
  import opened Keeps
  import opened KeepsSwap
  import opened MemoryRuns
  import opened Storage
  import opened Tlb

  // ---- A request leaves the tables and places of the other processes

  ghost predicate SamePlace(m: Mem, next: Mem, q: nat) {
    && next.cfg == m.cfg && Table(next, q) == Table(m, q)
    && (Exists(next, q) <==> Exists(m, q)) && (Resident(next, q) <==> Resident(m, q))
  }

  lemma CreateOthers(m: Mem, pid: nat, lines: seq<seq<string>>, size: nat, q: nat)
    requires Inv(m) && q != pid
    ensures SamePlace(m, Create(m, pid, lines, size).0, q)
  {
    hide Owned, FramesOwned, Allocate;
    var p := CreateOutcome(m, pid, lines, size);
    var (next, e) := Create(m, pid, lines, size);
    if e.None? {
      FindProcAppend(m.procs, p, q);
    }
  }

  lemma DeleteOthers(m: Mem, pid: nat, q: nat)
    requires Inv(m) && q != pid
    ensures SamePlace(m, Delete(m, pid).0, q)
  {
    hide FramesOwned;
    var i := FindProc(m.procs, pid);
    if i < |m.procs| {
      RemoveTables(m, Delete(m, pid).0, i, q);
    }
  }

  lemma SuspendOthers(m: Mem, pid: nat, q: nat)
    requires Inv(m) && Resident(m, pid)
    ensures q != pid ==> SamePlace(m, Suspend(m, pid).0, q)
    ensures Table(Suspend(m, pid).0, q) == Table(m, q) && (Exists(Suspend(m, pid).0, q) <==> Exists(m, q))
    ensures Suspend(m, pid).0.cfg == m.cfg
  {
    hide FramesOwned, Swapped;
    if Exists(m, pid) && Table(m, pid) != [] {
      SwappedAppend(m.blocks, Block(pid, MemPages(m, pid)));
    }
  }

  lemma UnsuspendOthers(m: Mem, pid: nat, q: nat)
    requires Inv(m) && q != pid
    ensures SamePlace(m, Unsuspend(m, pid).0, q)
  {
    hide Swapped, Allocate, FramesOwned, PagesAt, MemPages, Unsuspend;
    SwappedIff(m.blocks, pid);
    var i, k := FindProc(m.procs, pid), FindBlock(m.blocks, pid);
    if i < |m.procs| && k < |m.blocks| {
      var next, e := UnsuspendSwapped(m, i, k);
      if e.None? {
        RestoredTables(m, next, i, k, Table(next, pid), q);
        SwappedRemove(m, k);
      }
    } else {
      UnsuspendIdle(m, pid);
    }
  }

  lemma ServeOthers(m: Mem, r: Request, q: nat)
    requires Inv(m) && Allowed(m, r) && q != r.pid
    ensures SamePlace(m, Serve(m, r).0, q)
  {
    hide Create, Delete, Suspend, Unsuspend;
    match r
    case CreateProcess(pid, lines, size) => CreateOthers(m, pid, lines, size, q);
    case DeleteProcess(pid) => DeleteOthers(m, pid, q);
    case WriteBack(_, _, _) =>
    case SuspendProcess(pid) => SuspendOthers(m, pid, q);
    case UnSuspendProcess(pid) => UnsuspendOthers(m, pid, q);
  }

  // ---- The buffer afterwards

  /** The entries of one process translate as its table does, if it exists. */
  ghost predicate RightFor(m: Mem, entries: seq<Entry>, pid: nat) {
    forall i :: 0 <= i < |entries| && entries[i].pid == pid && Exists(m, pid) ==>
      FrameOf(m, pid, entries[i].page) == Ok(entries[i].frame)
  }

  /** A request can only spoil the entries of its own process. */
  lemma ServeTlb(m: Mem, r: Request, entries: seq<Entry>, capacity: nat)
    requires Inv(m) && Allowed(m, r) && TlbOk(m, entries, capacity)
    ensures TlbOk(Serve(m, r).0, entries, capacity) <==> RightFor(Serve(m, r).0, entries, r.pid)
  {
    hide Serve, Allowed, FramesOwned;
    var next := Serve(m, r).0;
    forall i | 0 <= i < |entries| && entries[i].pid != r.pid && Exists(next, entries[i].pid)
      ensures FrameOf(next, entries[i].pid, entries[i].page) == Ok(entries[i].frame) {
      ServeOthers(m, r, entries[i].pid);
    }
  }

  /** Page writes leave the buffer right. */
  lemma WriteTlb(m: Mem, pid: nat, base: int, value: Page, entries: seq<Entry>, capacity: nat)
    requires Shape(m) && TlbOk(m, entries, capacity)
    ensures TlbOk(WritePage(m, pid, base, value).0, entries, capacity)
  {
  }

  /** So does suspension, which leaves the table, stale, in place. */
  lemma SuspendTlb(m: Mem, pid: nat, entries: seq<Entry>, capacity: nat)
    requires Inv(m) && Resident(m, pid) && TlbOk(m, entries, capacity)
    ensures TlbOk(Suspend(m, pid).0, entries, capacity)
  {
    hide Suspend, FramesOwned;
    forall i | 0 <= i < |entries| && Exists(Suspend(m, pid).0, entries[i].pid)
      ensures FrameOf(Suspend(m, pid).0, entries[i].pid, entries[i].page) == Ok(entries[i].frame) {
      SuspendOthers(m, pid, entries[i].pid);
    }
  }

  /** And so does deletion: nobody looks the entries of an ended process up again. */
  lemma DeleteTlb(m: Mem, pid: nat, entries: seq<Entry>, capacity: nat)
    requires Inv(m) && Resident(m, pid) && TlbOk(m, entries, capacity)
    ensures TlbOk(Delete(m, pid).0, entries, capacity)
  {
    hide Delete, FramesOwned;
    ServeTlb(m, DeleteProcess(pid), entries, capacity);
    DeleteKeeps(m, pid);
  }

  // ---- A process gets a new table

  /** The entry is for a page that will get the frame it names, when a process gets
      the first n free frames. */
  predicate LandsAt(m: Mem, e: Entry, n: nat)
    requires m.cfg.Ok()
  {
    var free := FirstFree(m.reserved, 0, n);
    && |e.page| == m.cfg.levels && InRange(e.page, m.cfg.entries)
    && 0 <= Value(e.page, m.cfg.entries) < |free|
    && e.frame == free[Value(e.page, m.cfg.entries)] * m.cfg.pageSize
  }

  /** So is every entry of the process. */
  predicate Lands(m: Mem, entries: seq<Entry>, pid: nat, n: nat)
    requires m.cfg.Ok()
  {
    forall i :: 0 <= i < |entries| && entries[i].pid == pid ==> LandsAt(m, entries[i], n)
  }

  /** Creation gives the first free frames, in order. */
  lemma CreatedTable(m: Mem, pid: nat, lines: seq<seq<string>>, size: nat)
    requires Inv(m) && !Exists(m, pid) && size <= m.remaining && ProgramOk(lines)
    ensures Exists(Create(m, pid, lines, size).0, pid) && Create(m, pid, lines, size).0.cfg == m.cfg
    ensures Table(Create(m, pid, lines, size).0, pid)
         == BasesOf(FirstFree(m.reserved, 0, PagesFor(size, m.cfg.pageSize)), m.cfg.pageSize)
  {
    hide FramesOwned, FirstFree, BasesOf, Set, CountFree;
    CreateKeeps(m, pid, lines, size);
    var p := CreateOutcome(m, pid, lines, size);
    FindProcAppend(m.procs, p, pid);
    if size == 0 {
      NoBases(m.reserved, m.cfg.pageSize);
    } else {
      AllocateOutcome(m, size);
    }
  }

  lemma NoBases(bits: seq<bool>, size: nat)
    requires size >= 1
    ensures PagesFor(0, size) == 0 && BasesOf(FirstFree(bits, 0, 0), size) == []
  {
    PagesForExact(0, size);
  }

  /** Unsuspension gives the first free frames too, whatever the process had before. */
  lemma ReturnedTable(m: Mem, pid: nat)
    requires Inv(m) && !Resident(m, pid) && |Table(m, pid)| <= CountFree(m.reserved)
    ensures Exists(Unsuspend(m, pid).0, pid) && Unsuspend(m, pid).0.cfg == m.cfg
    ensures Table(Unsuspend(m, pid).0, pid)
         == BasesOf(FirstFree(m.reserved, 0, |Table(m, pid)|), m.cfg.pageSize)
  {
    hide FramesOwned, FirstFree, BasesOf, Set, CountFree, MemPages, WriteAll;
    SwappedIff(m.blocks, pid);
    var i, k := FindProc(m.procs, pid), FindBlock(m.blocks, pid);
    UnsuspendKeeps(m, pid);
    PagesForExact(|Table(m, pid)|, m.cfg.pageSize);
    var next, e := UnsuspendSwapped(m, i, k);
    RestoredTables(m, next, i, k, Table(next, pid), pid);
  }

  /** With such a table an entry translates right exactly when it lands. */
  lemma LandsRight(m: Mem, next: Mem, e: Entry, n: nat)
    requires m.cfg.Ok() && next.cfg == m.cfg && Exists(next, e.pid)
    requires Table(next, e.pid) == BasesOf(FirstFree(m.reserved, 0, n), m.cfg.pageSize)
    ensures FrameOf(next, e.pid, e.page) == Ok(e.frame) <==> LandsAt(m, e, n)
  {
    hide FirstFree;
    if InRange(e.page, m.cfg.entries) {
      ValueBounds(e.page, m.cfg.entries);
    }
  }

  /** Creation leaves the buffer right exactly when every entry of the new pid lands;
      a pid that was never used has none. */
  lemma CreateTlbIff(m: Mem, pid: nat, lines: seq<seq<string>>, size: nat, entries: seq<Entry>, capacity: nat)
    requires Inv(m) && !Exists(m, pid) && TlbOk(m, entries, capacity)
    ensures TlbOk(Create(m, pid, lines, size).0, entries, capacity)
       <==> (size <= m.remaining && ProgramOk(lines) ==> Lands(m, entries, pid, PagesFor(size, m.cfg.pageSize)))
  {
    hide Create, FramesOwned, FirstFree, BasesOf, LandsAt;
    var r := MemoryRuns.CreateProcess(pid, lines, size);
    CreateKeeps(m, pid, lines, size);
    if size <= m.remaining && ProgramOk(lines) {
      ServeTlb(m, r, entries, capacity);
      CreatedTable(m, pid, lines, size);
      forall i | 0 <= i < |entries| && entries[i].pid == pid
        ensures FrameOf(Create(m, pid, lines, size).0, pid, entries[i].page) == Ok(entries[i].frame)
           <==> LandsAt(m, entries[i], PagesFor(size, m.cfg.pageSize)) {
        LandsRight(m, Create(m, pid, lines, size).0, entries[i], PagesFor(size, m.cfg.pageSize));
      }
    }
  }

  /** Unsuspension leaves the buffer right exactly when it brings nothing back, or
      every entry of the process lands. */
  lemma UnsuspendTlbIff(m: Mem, pid: nat, entries: seq<Entry>, capacity: nat)
    requires Inv(m) && TlbOk(m, entries, capacity)
    ensures TlbOk(Unsuspend(m, pid).0, entries, capacity)
       <==> (!Resident(m, pid) && |Table(m, pid)| <= CountFree(m.reserved) ==> Lands(m, entries, pid, |Table(m, pid)|))
  {
    hide Unsuspend, FramesOwned, FirstFree, BasesOf, LandsAt, Swapped;
    UnsuspendKeeps(m, pid);
    if !Resident(m, pid) && |Table(m, pid)| <= CountFree(m.reserved) {
      ServeTlb(m, UnSuspendProcess(pid), entries, capacity);
      ReturnedTable(m, pid);
      forall i | 0 <= i < |entries| && entries[i].pid == pid
        ensures FrameOf(Unsuspend(m, pid).0, pid, entries[i].page) == Ok(entries[i].frame)
           <==> LandsAt(m, entries[i], |Table(m, pid)|) {
        LandsRight(m, Unsuspend(m, pid).0, entries[i], |Table(m, pid)|);
      }
    } else {
      NothingBack(m, pid);
    }
  }

  lemma NothingBack(m: Mem, pid: nat)
    requires Inv(m) && (Resident(m, pid) || |Table(m, pid)| > CountFree(m.reserved))
    ensures Unsuspend(m, pid).0 == m
  {
    hide FramesOwned, Unsuspend;
    UnsuspendKeeps(m, pid);
    SwappedIff(m.blocks, pid);
    if Resident(m, pid) {
      UnsuspendIdle(m, pid);
    }
  }

  /** An entry whose frame is held does not land. */
  lemma TakenMisses(m: Mem, e: Entry, n: nat)
    requires m.cfg.Ok() && Bit(m.reserved, m.cfg.pageSize, e.frame) == 1
    ensures !LandsAt(m, e, n)
  {
    var free := FirstFree(m.reserved, 0, n);
    var j := Value(e.page, m.cfg.entries);
    if 0 <= j < |free| {
      FrameBase(free[j], m.cfg.pageSize, |m.reserved|);
    }
  }

  /** So once another process holds the frame of one of its entries, the buffer is
      wrong about a process that comes back. */
  lemma TakenSpoils(m: Mem, pid: nat, entries: seq<Entry>, capacity: nat, i: nat)
    requires Inv(m) && TlbOk(m, entries, capacity) && !Resident(m, pid) && |Table(m, pid)| <= CountFree(m.reserved)
    requires i < |entries| && entries[i].pid == pid && Bit(m.reserved, m.cfg.pageSize, entries[i].frame) == 1
    ensures !TlbOk(Unsuspend(m, pid).0, entries, capacity)
  {
    hide Unsuspend, FramesOwned, LandsAt;
    UnsuspendTlbIff(m, pid, entries, capacity);
    TakenMisses(m, entries[i], |Table(m, pid)|);
  }

  // ---- Any request

  /** What a request asks of a TLB that is not flushed. */
  predicate TlbSpared(m: Mem, r: Request, entries: seq<Entry>)
    requires m.cfg.Ok()
  {
    match r
    case CreateProcess(pid, lines, size) =>
      size <= m.remaining && ProgramOk(lines) ==> Lands(m, entries, pid, PagesFor(size, m.cfg.pageSize))
    case UnSuspendProcess(pid) =>
      !Resident(m, pid) && |Table(m, pid)| <= CountFree(m.reserved) ==> Lands(m, entries, pid, |Table(m, pid)|)
    case _ => true
  }

  /** An allowed request leaves the buffer right exactly then. */
  lemma TlbServeIff(m: Mem, r: Request, entries: seq<Entry>, capacity: nat)
    requires Inv(m) && Allowed(m, r) && TlbOk(m, entries, capacity)
    ensures TlbOk(Serve(m, r).0, entries, capacity) <==> TlbSpared(m, r, entries)
  {
    hide Create, Delete, Suspend, Unsuspend, TlbOk, Lands, FramesOwned, CountFree;
    match r
    case CreateProcess(pid, lines, size) => CreateTlbIff(m, pid, lines, size, entries, capacity);
    case WriteBack(pid, base, value) => WriteTlb(m, pid, base, value, entries, capacity);
    case SuspendProcess(pid) => SuspendTlb(m, pid, entries, capacity);
    case UnSuspendProcess(pid) => UnsuspendTlbIff(m, pid, entries, capacity);
    case DeleteProcess(pid) => DeleteTlb(m, pid, entries, capacity);
  }

  /** A process without entries spoils nothing. */
  lemma NoEntrySpared(m: Mem, r: Request, entries: seq<Entry>)
    requires m.cfg.Ok() && forall i :: 0 <= i < |entries| ==> entries[i].pid != r.pid
    ensures TlbSpared(m, r, entries)
  {
  }
}
