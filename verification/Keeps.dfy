/** What every memory request keeps: the frame ownership invariant, the free
    space counter, the swap blocks, and the images of all other processes. */
module Keeps {
  import opened Wrappers
  import opened Addressing
  import opened Pages
  import opened Frames
  import opened SwapText
  import opened Memory
  import opened Requests

  // ---- The allocator's books

  /** The bits and the counter of next differ from m's by the given bases only. */
  ghost predicate Booked(m: Mem, next: Mem, bases: seq<int>)
    requires m.cfg.Ok()
  {
    && |next.reserved| == |m.reserved|
    && next.remaining == CountFree(next.reserved) * m.cfg.pageSize + Slack(m)
    && forall b: int :: Bit(next.reserved, m.cfg.pageSize, b) == Bit(m.reserved, m.cfg.pageSize, b) + multiset(bases)[b]
  }

  /** What a successful allocation hands out: free frames, their bits and their price. */
  lemma AllocateTakes(m: Mem, size: nat)
    requires m.cfg.Ok() && Allocate(m, size).1.Ok?
    ensures var (next, r) := Allocate(m, size);
            && FramesOf(r.value, m.cfg.pageSize) == FirstFree(m.reserved, 0, PagesFor(size, m.cfg.pageSize))
            && |r.value| == PagesFor(size, m.cfg.pageSize) && BasesOk(m, r.value) && Distinct(r.value)
            && Within(FramesOf(r.value, m.cfg.pageSize), |m.reserved|)
            && next == m.(reserved := Set(m.reserved, FramesOf(r.value, m.cfg.pageSize), true),
                          remaining := m.remaining - m.cfg.pageSize * |r.value|)
  {
    hide CountFree, Set, IsBase;
    var ps := m.cfg.pageSize;
    var frames := FirstFree(m.reserved, 0, PagesFor(size, ps));
    BasesOfOk(frames, ps, |m.reserved|);
    FramesWithin(BasesOf(frames, ps), ps, |m.reserved|);
  }

  lemma FreeBits(m: Mem, bases: seq<int>, n: nat)
    requires m.cfg.Ok() && FramesOf(bases, m.cfg.pageSize) == FirstFree(m.reserved, 0, n)
    ensures forall j :: 0 <= j < |bases| ==> Bit(m.reserved, m.cfg.pageSize, bases[j]) == 0
  {
    var frames := FirstFree(m.reserved, 0, n);
    forall j | 0 <= j < |bases| ensures Bit(m.reserved, m.cfg.pageSize, bases[j]) == 0 {
      assert FramesOf(bases, m.cfg.pageSize)[j] == frames[j];
    }
  }

  /** A successful allocation takes free frames and balances the counter. */
  lemma AllocateKeeps(m: Mem, size: nat)
    requires AllocOk(m) && size > 0 && Allocate(m, size).1.Ok?
    ensures var (next, r) := Allocate(m, size);
            next == m.(reserved := next.reserved, remaining := next.remaining) && Booked(m, next, r.value)
            && Distinct(r.value)
  {
    hide FirstFree, CountFree, Bit, FramesOwned, Set, Allocate, IsBase;
    var (next, r) := Allocate(m, size);
    var bases := r.value;
    AllocateTakes(m, size);
    FreeBits(m, bases, PagesFor(size, m.cfg.pageSize));
    CountTable(m.reserved, bases, m.cfg.pageSize, true);
    CounterStep(CountFree(m.reserved), |bases|, m.cfg.pageSize);
    forall b: int ensures Bit(next.reserved, m.cfg.pageSize, b)
      == Bit(m.reserved, m.cfg.pageSize, b) + multiset(bases)[b] {
      ReserveBit(m.reserved, bases, m.cfg.pageSize, b);
    }
  }

  lemma CounterStep(free: int, n: int, size: int)
    ensures (free - n) * size == free * size - size * n
    ensures (free + n) * size == free * size + n * size
  {
  }

  /** Releasing a table that is owned frees its frames and balances the counter. */
  lemma ReleaseKeeps(m: Mem, bases: seq<int>)
    requires Shape(m) && BasesOk(m, bases) && Distinct(bases)
    requires forall j :: 0 <= j < |bases| ==> Bit(m.reserved, m.cfg.pageSize, bases[j]) == 1
    requires m.remaining == CountFree(m.reserved) * m.cfg.pageSize + Slack(m)
    ensures Booked(Release(m, bases), m.(remaining := CountFree(m.reserved) * m.cfg.pageSize + Slack(m)), bases)
    ensures Release(m, bases).remaining == CountFree(Release(m, bases).reserved) * m.cfg.pageSize + Slack(m)
  {
    hide CountFree, Bit, Set, IsBase;
    CountTable(m.reserved, bases, m.cfg.pageSize, false);
    CounterStep(CountFree(m.reserved), |bases|, m.cfg.pageSize);
    forall b: int ensures Bit(Release(m, bases).reserved, m.cfg.pageSize, b) + multiset(bases)[b]
      == Bit(m.reserved, m.cfg.pageSize, b) {
      ReleaseBit(m.reserved, bases, m.cfg.pageSize, b);
    }
  }

  // ---- Tables and images

  lemma TableAt(m: Mem, i: nat)
    requires Shape(m) && i < |m.procs|
    ensures FindProc(m.procs, m.procs[i].pid) == i
    ensures Exists(m, m.procs[i].pid) && Table(m, m.procs[i].pid) == m.procs[i].pageBases
  {
  }

  /** Same bytes and same table: same pages. */
  lemma SamePages(m: Mem, next: Mem, pid: nat)
    requires Shape(m) && Shape(next) && next.cfg == m.cfg && |next.reserved| == |m.reserved|
    requires Table(next, pid) == Table(m, pid)
    requires forall j :: 0 <= j < |Table(m, pid)| ==> var b := Table(m, pid)[j];
               0 <= b && b + m.cfg.pageSize <= |m.bytes| && b + m.cfg.pageSize <= |next.bytes|
               && PageAt(next.bytes, m.cfg.pageSize, b) == PageAt(m.bytes, m.cfg.pageSize, b)
    ensures MemPages(next, pid) == MemPages(m, pid)
  {
  }

  lemma SameBytesSamePages(m: Mem, next: Mem, pid: nat)
    requires Shape(m) && Shape(next) && next.cfg == m.cfg && |next.reserved| == |m.reserved|
    requires Table(next, pid) == Table(m, pid) && next.bytes == m.bytes
    ensures MemPages(next, pid) == MemPages(m, pid)
  {
    TableOk(m, pid);
    BasesInMemory(m, Table(m, pid));
    SamePages(m, next, pid);
  }

  /** Every process named has the same image, table length and existence in both states. */
  ghost predicate SameImage(m: Mem, next: Mem, pid: nat)
    requires Shape(m) && Shape(next)
  {
    ImageOf(next, pid) == ImageOf(m, pid) && |Table(next, pid)| == |Table(m, pid)|
      && (Exists(next, pid) <==> Exists(m, pid))
  }

  lemma SwappedExists(m: Mem, pid: nat)
    requires Shape(m) && SwapOk(m) && !Exists(m, pid)
    ensures Resident(m, pid)
  {
    SwappedIff(m.blocks, pid);
  }

  // ---- Create

  lemma {:induction false} FindProcAppend(procs: seq<ProcessData>, p: ProcessData, q: nat)
    ensures FindProc(procs + [p], q) ==
            if FindProc(procs, q) < |procs| then FindProc(procs, q) else if p.pid == q then |procs| else |procs| + 1
  {
    if procs != [] {
      assert (procs + [p])[1..] == procs[1..] + [p];
      FindProcAppend(procs[1..], p, q);
    }
  }

  lemma AppendKeeps(m: Mem, next: Mem, p: ProcessData)
    requires Inv(m) && !Exists(m, p.pid)
    requires Appended(m, next, p)
    ensures AllocOk(next) && Resident(next, p.pid)
  {
    SwappedExists(m, p.pid);
    OwnedOne(m.procs, p, Swapped(m.blocks));
    AppendShape(m, next, p);
    AppendOwned(m, next, p);
  }

  lemma OwnedOne(procs: seq<ProcessData>, p: ProcessData, swapped: set<nat>)
    ensures Owned(procs + [p], swapped) == Owned(procs, swapped) + Part(p, swapped)
  {
    assert (procs + [p])[..|procs|] == procs;
  }

  lemma AppendShape(m: Mem, next: Mem, p: ProcessData)
    requires Shape(m) && !Exists(m, p.pid) && Appended(m, next, p)
    ensures Shape(next)
  {
    hide Bit, CountFree;
    assert |next.reserved| == |m.reserved|;
  }

  lemma AppendOwned(m: Mem, next: Mem, p: ProcessData)
    requires Shape(m) && FramesOwned(m) && Resident(m, p.pid) && Appended(m, next, p)
    requires Owned(next.procs, Swapped(m.blocks)) == Owned(m.procs, Swapped(m.blocks)) + Part(p, Swapped(m.blocks))
    ensures FramesOwned(next)
  {
    hide Owned, Bit;
    forall base: int ensures Owned(next.procs, Swapped(next.blocks))[base] == Bit(next.reserved, m.cfg.pageSize, base) {
      assert Owned(m.procs, Swapped(m.blocks))[base] == Bit(m.reserved, m.cfg.pageSize, base);
    }
  }

  /** next is m with one more process, holding bases it did not hold before. */
  ghost predicate Appended(m: Mem, next: Mem, p: ProcessData)
    requires m.cfg.Ok()
  {
    && next == m.(procs := m.procs + [p], reserved := next.reserved, remaining := next.remaining)
    && BasesOk(m, p.pageBases)
    && Booked(m, next, p.pageBases)
  }

  /** When creation succeeds, and what it adds. */
  lemma CreateOutcome(m: Mem, pid: nat, lines: seq<seq<string>>, size: nat) returns (p: ProcessData)
    requires Inv(m)
    ensures Create(m, pid, lines, size).1.Some? ==> Create(m, pid, lines, size).0 == m
    ensures Create(m, pid, lines, size).1.None? <==> size <= m.remaining && ProgramOk(lines)
    ensures Create(m, pid, lines, size).1.None? ==>
              Appended(m, Create(m, pid, lines, size).0, p) && p.pid == pid
                && |p.pageBases| == PagesFor(size, m.cfg.pageSize)
  {
    p := ProcessData(pid, [], []);
    if size <= m.remaining && ProgramOk(lines) {
      if size == 0 {
        PagesForExact(0, m.cfg.pageSize);
        p := ProcessData(pid, ParseProgram(lines), []);
      } else {
        AllocateOutcome(m, size);
        AllocateKeeps(m, size);
        p := ProcessData(pid, ParseProgram(lines), Allocate(m, size).1.value);
      }
    }
  }

  /** Creation keeps the invariant and every other process's image; on any error
      the state is as before. */
  lemma CreateKeeps(m: Mem, pid: nat, lines: seq<seq<string>>, size: nat)
    requires Inv(m) && !Exists(m, pid)
    ensures var (next, e) := Create(m, pid, lines, size);
            && Inv(next)
            && (e.Some? ==> next == m)
            && (e.None? <==> size <= m.remaining && ProgramOk(lines))
            && (forall q :: q != pid ==> SameImage(m, next, q))
            && (e.None? ==> Exists(next, pid) && Resident(next, pid)
                            && |ImageOf(next, pid)| == PagesFor(size, m.cfg.pageSize))
  {
    var p := CreateOutcome(m, pid, lines, size);
    var (next, e) := Create(m, pid, lines, size);
    if e.None? {
      AppendKeeps(m, next, p);
      FindProcAppend(m.procs, p, pid);
      SwappedIff(m.blocks, pid);
      assert SwapOk(next) by {
        forall k | 0 <= k < |m.blocks| ensures Exists(next, m.blocks[k].pid)
          && Table(next, m.blocks[k].pid) == Table(m, m.blocks[k].pid) {
          FindProcAppend(m.procs, p, m.blocks[k].pid);
        }
      }
      forall q | q != pid ensures SameImage(m, next, q) {
        FindProcAppend(m.procs, p, q);
        SameBytesSamePages(m, next, q);
      }
    }
  }

  /** Creation takes whole pages off the remaining memory, and no byte changes. */
  lemma CreateCosts(m: Mem, pid: nat, size: nat)
    requires Inv(m) && !Exists(m, pid) && 0 < size <= m.remaining
    ensures var (next, e) := Create(m, pid, [], size);
            && e == None && Inv(next) && next.cfg == m.cfg && next.bytes == m.bytes && next.blocks == m.blocks
            && next.remaining == m.remaining - m.cfg.pageSize * PagesFor(size, m.cfg.pageSize)
            && Exists(next, pid) && Resident(next, pid) && |Table(next, pid)| == PagesFor(size, m.cfg.pageSize)
            && forall q: nat :: q != pid ==> SameImage(m, next, q)
  {
    hide IsBase, Bit, CountFree, Owned;
    CreateKeeps(m, pid, [], size);
    AllocateOutcome(m, size);
    AllocateTakes(m, size);
    SwappedIff(Create(m, pid, [], size).0.blocks, pid);
  }
}
