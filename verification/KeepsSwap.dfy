/** Deletion, page writes, suspension and return from swap: what each keeps. */
module KeepsSwap {
  import opened Wrappers
  import opened Addressing
  import opened Pages
  import opened Frames
  import opened SwapText
  import opened Memory
  import opened Requests
  import opened Keeps

  // ---- Delete

  lemma RemoveOwned(procs: seq<ProcessData>, i: nat, swapped: set<nat>)
    requires i < |procs|
    ensures Owned(RemoveProc(procs, i), swapped) == OwnedByOthers(procs, i, swapped)
  {
    var n := |procs| - 1;
    if i == n {
      assert RemoveProc(procs, i) == procs[..i] && procs[i + 1..] == [];
    } else {
      var middle, last := procs[i + 1..n], [procs[n]];
      assert procs[i + 1..] == middle + last;
      assert RemoveProc(procs, i) == procs[..i] + (last + middle);
      OwnedSplit(procs[..i], last + middle, swapped);
      OwnedSplit(last, middle, swapped);
      OwnedSplit(middle, last, swapped);
    }
  }

  /** Every process but the removed one keeps its table. */
  lemma RemoveTables(m: Mem, next: Mem, i: nat, q: nat)
    requires Shape(m) && i < |m.procs| && next.procs == RemoveProc(m.procs, i)
    ensures q != m.procs[i].pid ==> Table(next, q) == Table(m, q) && (Exists(next, q) <==> Exists(m, q))
    ensures !Exists(next, m.procs[i].pid)
  {
    var j, k, n := FindProc(next.procs, q), FindProc(m.procs, q), |m.procs| - 1;
    assert forall x :: 0 <= x < n ==> next.procs[x] == if x == i then m.procs[n] else m.procs[x];
    if q != m.procs[i].pid && k <= n {
      assert next.procs[if k == n then i else k].pid == q;
    }
  }

  /** The frames of a resident process, released, leave the books balanced when
      the process no longer counts as an owner. */
  lemma ReleaseBooks(m: Mem, i: nat, procs: seq<ProcessData>, blocks: seq<Block>)
    requires AllocOk(m) && i < |m.procs| && Resident(m, m.procs[i].pid)
    requires Owned(procs, Swapped(blocks)) == OwnedByOthers(m.procs, i, Swapped(m.blocks))
    requires Shape(Release(m, m.procs[i].pageBases).(procs := procs, blocks := blocks))
    ensures AllocOk(Release(m, m.procs[i].pageBases).(procs := procs, blocks := blocks))
  {
    hide Owned, Bit, CountFree, Distinct, IsBase;
    var bases := m.procs[i].pageBases;
    var next := Release(m, bases).(procs := procs, blocks := blocks);
    ResidentTable(m, i);
    ReleaseKeeps(m, bases);
    OwnedAt(m.procs, i, Swapped(m.blocks));
    forall b: int ensures Owned(procs, Swapped(blocks))[b] == Bit(next.reserved, m.cfg.pageSize, b) {
      assert Owned(m.procs, Swapped(m.blocks))[b] == Bit(m.reserved, m.cfg.pageSize, b);
      assert Bit(Release(m, bases).reserved, m.cfg.pageSize, b) + multiset(bases)[b]
        == Bit(m.reserved, m.cfg.pageSize, b);
    }
  }

  lemma RemoveShape(m: Mem, i: nat)
    requires Shape(m) && i < |m.procs|
    ensures Shape(Release(m, m.procs[i].pageBases).(procs := RemoveProc(m.procs, i)))
  {
  }

  lemma DeleteKeeps(m: Mem, pid: nat)
    requires Inv(m) && Resident(m, pid)
    ensures var (next, e) := Delete(m, pid);
            && Inv(next)
            && (e.Some? ==> next == m)
            && (e.None? <==> Exists(m, pid))
            && !Exists(next, pid)
            && (forall q :: q != pid ==> SameImage(m, next, q))
  {
    var i := FindProc(m.procs, pid);
    if i < |m.procs| {
      var next := Delete(m, pid).0;
      RemoveOwned(m.procs, i, Swapped(m.blocks));
      RemoveShape(m, i);
      ReleaseBooks(m, i, next.procs, m.blocks);
      RemoveTables(m, next, i, pid);
      forall k | 0 <= k < |m.blocks| ensures Exists(next, m.blocks[k].pid)
        && Table(next, m.blocks[k].pid) == Table(m, m.blocks[k].pid) {
        assert m.blocks[k] in m.blocks;
        RemoveTables(m, next, i, m.blocks[k].pid);
      }
      forall q | q != pid ensures SameImage(m, next, q) {
        RemoveTables(m, next, i, q);
        SameBytesSamePages(m, next, q);
      }
    }
  }

  // ---- Page writes

  /** A write to one base leaves the pages of all other bases alone. */
  lemma SpliceElsewhere(bytes: seq<byte>, size: nat, n: nat, base: int, value: Page, other: int)
    requires size >= 1 && n * size <= |bytes| && IsBase(base, size, n) && IsBase(other, size, n) && |value| == size
    ensures 0 <= base && base + size <= |bytes| && 0 <= other && other + size <= |bytes|
    ensures PageAt(Splice(bytes, base, value), size, other) == if other == base then value
        else PageAt(bytes, size, other)
  {
    BaseBounds(base, size, n);
    BaseBounds(other, size, n);
    BasesApart(base, other, size, n);
  }

  /** WritePage through a table entry succeeds and changes bytes alone, in swap or not. */
  lemma WriteTakes(m: Mem, pid: nat, j: nat, value: Page)
    requires Inv(m) && j < |Table(m, pid)| && |value| == m.cfg.pageSize
    ensures var (next, e) := WritePage(m, pid, Table(m, pid)[j], value);
            e.None? && Inv(next) && next == m.(bytes := next.bytes)
  {
    TableOk(m, pid);
    BaseBounds(Table(m, pid)[j], m.cfg.pageSize, |m.reserved|);
  }

  /** A write to a frame leaves the image of every process that does not hold it. */
  lemma WriteSpares(m: Mem, pid: nat, base: int, value: Page, q: nat)
    requires Inv(m) && base in Table(m, pid) && |value| == m.cfg.pageSize
    requires Resident(m, q) ==> base !in Table(m, q)
    ensures SameImage(m, WritePage(m, pid, base, value).0, q)
  {
    hide FramesOwned, CountFree, IsBase;
    var next, n := WritePage(m, pid, base, value).0, |m.reserved|;
    TableOk(m, pid);
    BaseBounds(base, m.cfg.pageSize, n);
    SwappedIff(m.blocks, q);
    if FindBlock(m.blocks, q) == |m.blocks| {
      TableOk(m, q);
      forall k | 0 <= k < |Table(m, q)| ensures MemPages(next, q)[k] == MemPages(m, q)[k] {
        assert Table(m, q)[k] in Table(m, q);
        SpliceElsewhere(m.bytes, m.cfg.pageSize, n, base, value, Table(m, q)[k]);
      }
    }
  }

  /** What a page of a resident process is after a write through its table. */
  lemma WriteShows(m: Mem, pid: nat, j: nat, value: Page)
    requires Inv(m) && Resident(m, pid) && j < |Table(m, pid)| && |value| == m.cfg.pageSize
    ensures MemPages(WritePage(m, pid, Table(m, pid)[j], value).0, pid) == MemPages(m, pid)[j := value]
  {
    hide FramesOwned, CountFree, IsBase;
    var base, n := Table(m, pid)[j], |m.reserved|;
    TableOk(m, pid);
    BaseBounds(base, m.cfg.pageSize, n);
    var next := WritePage(m, pid, base, value).0;
    ResidentTable(m, FindProc(m.procs, pid));
    forall k | 0 <= k < |Table(m, pid)| ensures MemPages(next, pid)[k] == MemPages(m, pid)[j := value][k] {
      SpliceElsewhere(m.bytes, m.cfg.pageSize, n, base, value, Table(m, pid)[k]);
    }
  }

  /** A base of a resident process is in no other resident table. */
  lemma HeldAlone(m: Mem, pid: nat, base: int, q: nat)
    requires Inv(m) && Resident(m, pid) && base in Table(m, pid) && q != pid && Resident(m, q)
    ensures base !in Table(m, q)
  {
    ResidentTable(m, FindProc(m.procs, pid));
  }

  /** WritePage replaces exactly one page of one process's image. */
  lemma WriteKeeps(m: Mem, pid: nat, j: nat, value: Page)
    requires Inv(m) && Resident(m, pid) && j < |Table(m, pid)| && |value| == m.cfg.pageSize
    ensures var (next, e) := WritePage(m, pid, Table(m, pid)[j], value);
            && e.None? && Inv(next) && next == m.(bytes := next.bytes)
            && MemPages(next, pid) == MemPages(m, pid)[j := value]
            && (forall q :: q != pid ==> SameImage(m, next, q))
  {
    hide WritePage, MemPages, SameImage, FramesOwned, CountFree;
    var base := Table(m, pid)[j];
    WriteTakes(m, pid, j, value);
    WriteShows(m, pid, j, value);
    forall q: nat | q != pid ensures SameImage(m, WritePage(m, pid, base, value).0, q) {
      if Resident(m, q) {
        HeldAlone(m, pid, base, q);
      }
      WriteSpares(m, pid, base, value, q);
    }
  }

  // ---- Suspend

  lemma {:induction false} FindBlockAppend(blocks: seq<Block>, b: Block, q: nat)
    ensures FindBlock(blocks + [b], q) ==
            if FindBlock(blocks, q) < |blocks| then FindBlock(blocks, q)
            else if b.pid == q then |blocks|
            else |blocks| + 1
  {
    if blocks != [] {
      assert (blocks + [b])[1..] == blocks[1..] + [b];
      FindBlockAppend(blocks[1..], b, q);
    }
  }

  lemma SwappedAppend(blocks: seq<Block>, b: Block)
    ensures Swapped(blocks + [b]) == Swapped(blocks) + {b.pid}
  {
    forall q ensures q in Swapped(blocks + [b]) <==> q in Swapped(blocks) || q == b.pid {
      SwappedIff(blocks, q);
      SwappedIff(blocks + [b], q);
      FindBlockAppend(blocks, b, q);
    }
  }

  lemma SuspendBooks(m: Mem, pid: nat)
    requires AllocOk(m) && Resident(m, pid) && Exists(m, pid) && Table(m, pid) != []
    ensures AllocOk(Suspend(m, pid).0)
  {
    hide Owned, Bit, CountFree, IsBase, Swapped;
    var i, next := FindProc(m.procs, pid), Suspend(m, pid).0;
    var b := Block(pid, MemPages(m, pid));
    SwappedAppend(m.blocks, b);
    OwnedChange(m.procs, i, m.procs[i], Swapped(m.blocks), Swapped(next.blocks));
    assert m.procs[i := m.procs[i]] == m.procs;
    ReleaseBooks(m, i, m.procs, next.blocks);
  }

  lemma SuspendSwap(m: Mem, pid: nat)
    requires Inv(m) && Resident(m, pid) && Exists(m, pid) && Table(m, pid) != []
    ensures SwapOk(Suspend(m, pid).0) && !Resident(Suspend(m, pid).0, pid)
  {
    hide FramesOwned;
    var b := Block(pid, MemPages(m, pid));
    SwappedAppend(m.blocks, b);
    SwappedIff(m.blocks, pid);
  }

  /** Suspension frees the frames and loses nothing: every image is as before. */
  lemma SuspendKeeps(m: Mem, pid: nat)
    requires Inv(m) && Resident(m, pid)
    ensures var (next, e) := Suspend(m, pid);
            && Inv(next)
            && (e.Some? ==> next == m)
            && (e.None? <==> Exists(m, pid))
            && (e.None? && Table(m, pid) != [] ==> !Resident(next, pid))
            && (forall q :: SameImage(m, next, q))
  {
    if Exists(m, pid) && Table(m, pid) != [] {
      var next := Suspend(m, pid).0;
      SuspendBooks(m, pid);
      SuspendSwap(m, pid);
      SwappedIff(m.blocks, pid);
      forall q ensures SameImage(m, next, q) {
        FindBlockAppend(m.blocks, Block(pid, MemPages(m, pid)), q);
        SameBytesSamePages(m, next, q);
      }
    }
  }

  // ---- Unsuspend

  lemma {:induction false} WriteAllPages(bytes: seq<byte>, size: nat, n: nat, bases: seq<int>, pages: Image, b: int)
    requires size >= 1 && n * size <= |bytes| && AllBases(bases, size, n) && Distinct(bases)
    requires |bases| == |pages| && Uniform(pages, size) && IsBase(b, size, n)
    requires forall j :: 0 <= j < |bases| ==> 0 <= bases[j] && bases[j] + size <= |bytes|
    ensures 0 <= b && b + size <= |bytes|
    ensures b !in bases ==> PageAt(WriteAll(bytes, size, bases, pages), size, b) == PageAt(bytes, size, b)
    ensures forall j :: 0 <= j < |bases| && bases[j] == b ==>
        PageAt(WriteAll(bytes, size, bases, pages), size, b) == pages[j]
  {
    hide PageAt, Splice, Distinct;
    BaseBounds(b, size, n);
    if bases != [] {
      var k := |bases| - 1;
      AllButLast(bases, size, n);
      WriteAllPages(bytes, size, n, bases[..k], pages[..k], b);
      SpliceElsewhere(WriteAll(bytes, size, bases[..k], pages[..k]), size, n, bases[k], pages[k], b);
    }
  }

  lemma AllButLast(bases: seq<int>, size: nat, n: nat)
    requires size >= 1 && bases != [] && AllBases(bases, size, n) && Distinct(bases)
    ensures var k := |bases| - 1;
            AllBases(bases[..k], size, n) && Distinct(bases[..k]) && bases[k] !in bases[..k]
              && IsBase(bases[k], size, n)
  {
  }

  lemma {:induction false} FindBlockRemove(blocks: seq<Block>, k: nat, q: nat)
    requires k < |blocks| && forall i, j :: 0 <= i < j < |blocks| ==> blocks[i].pid != blocks[j].pid
    ensures var rest := blocks[..k] + blocks[k + 1..];
            && (q == blocks[k].pid ==> FindBlock(rest, q) == |rest|)
            && (q != blocks[k].pid && FindBlock(blocks, q) < |blocks| ==>
                  FindBlock(rest, q) < |rest| && rest[FindBlock(rest, q)] == blocks[FindBlock(blocks, q)])
            && (FindBlock(blocks, q) == |blocks| ==> FindBlock(rest, q) == |rest|)
  {
    var rest := blocks[..k] + blocks[k + 1..];
    assert forall x :: 0 <= x < |rest| ==> rest[x] == if x < k then blocks[x] else blocks[x + 1];
    var i := FindBlock(blocks, q);
    if q != blocks[k].pid && i < |blocks| {
      assert rest[if i < k then i else i - 1] == blocks[i];
    }
  }

  /** next is m with process i back in the given frames and block k gone. */
  ghost predicate Restored(m: Mem, next: Mem, i: nat, k: nat, bases: seq<int>)
    requires Shape(m)
  {
    && i < |m.procs| && k < |m.blocks| && m.blocks[k].pid == m.procs[i].pid
    && |bases| == |m.blocks[k].pages| == |m.procs[i].pageBases| && Uniform(m.blocks[k].pages, m.cfg.pageSize)
    && BasesOk(m, bases) && Distinct(bases) && Booked(m, next, bases)
    && next == Restore(m, i, k, bases).(reserved := next.reserved, remaining := next.remaining)
  }

  lemma RestoredTables(m: Mem, next: Mem, i: nat, k: nat, bases: seq<int>, q: nat)
    requires Shape(m) && Restored(m, next, i, k, bases)
    ensures Exists(next, q) <==> Exists(m, q)
    ensures Table(next, q) == if q == m.procs[i].pid then bases else Table(m, q)
  {
    var x, y := FindProc(m.procs, q), FindProc(next.procs, q);
    assert forall z :: 0 <= z < |m.procs| ==> next.procs[z].pid == m.procs[z].pid;
  }

  lemma SwappedRemove(m: Mem, k: nat)
    requires SwapOk(m) && k < |m.blocks|
    ensures Swapped(m.blocks[..k] + m.blocks[k + 1..]) == Swapped(m.blocks) - {m.blocks[k].pid}
  {
    var rest := m.blocks[..k] + m.blocks[k + 1..];
    forall q ensures q in Swapped(rest) <==> q in Swapped(m.blocks) && q != m.blocks[k].pid {
      SwappedIff(m.blocks, q);
      SwappedIff(rest, q);
      FindBlockRemove(m.blocks, k, q);
    }
  }

  lemma RestoredShape(m: Mem, next: Mem, i: nat, k: nat, bases: seq<int>)
    requires Shape(m) && Restored(m, next, i, k, bases)
    ensures Shape(next) && Slack(next) == Slack(m)
    ensures next.procs == m.procs[i := m.procs[i].(pageBases := bases)]
    ensures next.blocks == m.blocks[..k] + m.blocks[k + 1..]
  {
  }

  lemma RestoredBooks(m: Mem, next: Mem, i: nat, k: nat, bases: seq<int>)
    requires Inv(m) && Restored(m, next, i, k, bases)
    ensures AllocOk(next) && Slack(next) == 0
  {
    var s, t := Swapped(m.blocks), Swapped(next.blocks);
    RestoredShape(m, next, i, k, bases);
    SwappedRemove(m, k);
    assert m.blocks[k] in m.blocks;
    OwnedChange(m.procs, i, m.procs[i].(pageBases := bases), s, t);
    RestoredOwned(m, next, i, bases, s, t);
  }

  lemma RestoredOwned(m: Mem, next: Mem, i: nat, bases: seq<int>, s: set<nat>, t: set<nat>)
    requires m.cfg.Ok() && Booked(m, next, bases) && i < |m.procs|
    requires Owned(m.procs, s) == OwnedByOthers(m.procs, i, s)
    requires Owned(next.procs, t) == OwnedByOthers(m.procs, i, s) + multiset(bases)
    requires forall b: int :: Owned(m.procs, s)[b] == Bit(m.reserved, m.cfg.pageSize, b)
    ensures forall b: int :: Owned(next.procs, t)[b] == Bit(next.reserved, m.cfg.pageSize, b)
  {
  }

  lemma RestoredSwap(m: Mem, next: Mem, i: nat, k: nat, bases: seq<int>)
    requires Inv(m) && Restored(m, next, i, k, bases)
    ensures SwapOk(next)
  {
    var pid := m.procs[i].pid;
    forall x | 0 <= x < |next.blocks|
      ensures Exists(next, next.blocks[x].pid) && |next.blocks[x].pages| == |Table(next, next.blocks[x].pid)| > 0
        && Uniform(next.blocks[x].pages, m.cfg.pageSize) {
      var y := if x < k then x else x + 1;
      assert next.blocks[x] == m.blocks[y] && m.blocks[y].pid != pid;
      RestoredTables(m, next, i, k, bases, m.blocks[y].pid);
    }
  }

  lemma RestoredImage(m: Mem, next: Mem, i: nat, k: nat, bases: seq<int>, q: nat)
    requires Inv(m) && Restored(m, next, i, k, bases) && Inv(next)
    ensures SameImage(m, next, q)
  {
    hide FramesOwned, MemPages, Booked, Restore, BasesOk;
    RestoredTables(m, next, i, k, bases, q);
    FindBlockRemove(m.blocks, k, q);
    RestoredShape(m, next, i, k, bases);
    if q == m.procs[i].pid {
      assert FindBlock(m.blocks, q) == k;
      RestoredOwnPages(m, next, i, k, bases);
    } else if FindBlock(m.blocks, q) == |m.blocks| {
      RestoredOtherPages(m, next, i, k, bases, q);
    }
  }

  /** The frames of the process now hold its block. */
  lemma RestoredOwnPages(m: Mem, next: Mem, i: nat, k: nat, bases: seq<int>)
    requires Shape(m) && Restored(m, next, i, k, bases) && Shape(next)
    ensures MemPages(next, m.procs[i].pid) == m.blocks[k].pages
  {
    hide Booked;
    RestoredTables(m, next, i, k, bases, m.procs[i].pid);
    BasesInMemory(m, bases);
    forall j | 0 <= j < |bases| ensures MemPages(next, m.procs[i].pid)[j] == m.blocks[k].pages[j] {
      WriteAllPages(m.bytes, m.cfg.pageSize, |m.reserved|, bases, m.blocks[k].pages, bases[j]);
    }
  }

  /** No frame that was handed out belonged to a resident process. */
  lemma RestoredElsewhere(m: Mem, next: Mem, bases: seq<int>, q: nat, b: int)
    requires Inv(m) && Booked(m, next, bases) && Exists(m, q) && Resident(m, q) && b in Table(m, q)
    ensures b !in bases
  {
    ResidentTable(m, FindProc(m.procs, q));
    assert Bit(next.reserved, m.cfg.pageSize, b) == Bit(m.reserved, m.cfg.pageSize, b) + multiset(bases)[b];
    assert b in bases ==> b in multiset(bases);
  }

  /** So a resident process keeps its pages. */
  lemma RestoredOtherPages(m: Mem, next: Mem, i: nat, k: nat, bases: seq<int>, q: nat)
    requires Inv(m) && Restored(m, next, i, k, bases) && Shape(next)
    requires q != m.procs[i].pid && FindBlock(m.blocks, q) == |m.blocks|
    ensures MemPages(next, q) == MemPages(m, q)
  {
    hide Booked, FramesOwned;
    SwappedIff(m.blocks, q);
    RestoredTables(m, next, i, k, bases, q);
    BasesInMemory(m, bases);
    TableOk(m, q);
    forall j | 0 <= j < |Table(m, q)| ensures MemPages(next, q)[j] == MemPages(m, q)[j] {
      RestoredElsewhere(m, next, bases, q, Table(m, q)[j]);
      WriteAllPages(m.bytes, m.cfg.pageSize, |m.reserved|, bases, m.blocks[k].pages, Table(m, q)[j]);
    }
  }

  /** Return from swap: on success every image is as before, though the frames may
      differ; on any error the state is as before. */
  lemma UnsuspendKeeps(m: Mem, pid: nat)
    requires Inv(m)
    ensures var (next, e) := Unsuspend(m, pid);
            && Inv(next)
            && (e.Some? ==> next == m)
            && (e.None? ==> Resident(next, pid))
            && (e.None? <==> (Exists(m, pid)
                 && (Table(m, pid) == [] || (!Resident(m, pid) && |Table(m, pid)| <= CountFree(m.reserved)))))
            && (e == Some(Eof) <==> Exists(m, pid) && Table(m, pid) != [] && Resident(m, pid))
            && (forall q :: SameImage(m, next, q))
  {
    var i, k := FindProc(m.procs, pid), FindBlock(m.blocks, pid);
    SwappedIff(m.blocks, pid);
    if i < |m.procs| && k < |m.blocks| {
      var next, e := UnsuspendSwapped(m, i, k);
      if e.None? {
        var bases := Table(next, pid);
        RestoredBooks(m, next, i, k, bases);
        RestoredSwap(m, next, i, k, bases);
        forall q ensures SameImage(m, next, q) {
          RestoredImage(m, next, i, k, bases, q);
        }
      }
    } else if i < |m.procs| && m.procs[i].pageBases == [] && k < |m.blocks| {
      assert false;
    }
  }

  lemma UnsuspendIdle(m: Mem, pid: nat)
    requires Shape(m) && SwapOk(m) && (!Exists(m, pid) || FindBlock(m.blocks, pid) == |m.blocks|)
    ensures Unsuspend(m, pid).0 == m
  {
  }

  lemma UnsuspendSwapped(m: Mem, i: nat, k: nat) returns (next: Mem, e: Option<Error>)
    requires Inv(m) && i < |m.procs| && k < |m.blocks|
    requires i == FindProc(m.procs, m.procs[i].pid) && k == FindBlock(m.blocks, m.procs[i].pid)
    ensures (next, e) == Unsuspend(m, m.procs[i].pid)
    ensures e.Some? ==> next == m && e == Some(NotEnoughMemory)
    ensures e.None? <==> |m.procs[i].pageBases| <= CountFree(m.reserved)
    ensures e.None? ==> Restored(m, next, i, k, Table(next, m.procs[i].pid))
  {
    var pid := m.procs[i].pid;
    var r := Unsuspend(m, pid);
    next, e := r.0, r.1;
    var block := m.blocks[k];
    var size := m.cfg.pageSize * |block.pages|;
    PagesForExact(|block.pages|, m.cfg.pageSize);
    MulGap(|block.pages|, m.cfg.pageSize);
    AllocateOutcome(m, size);
    SlackBelowPage(CountFree(m.reserved), |block.pages|, m.cfg.pageSize, 0);
    var (got, a) := Allocate(m, size);
    if a.Ok? {
      AllocateKeeps(m, size);
      assert Restored(m, next, i, k, a.value);
      RestoredTables(m, next, i, k, a.value, pid);
    }
  }
}
