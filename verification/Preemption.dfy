/** What an interrupted process leaves in the cache: when the lookups, which compare
    page addresses alone, still serve the next process right, and what it reads when
    they do not. */
module Preemption {
  import opened Wrappers
  import opened Addressing
  import opened Pages
  import opened Frames
  import opened Memory
  import opened Requests
  import opened Keeps
  import opened Storage
  import opened Clock
  import opened Coherence
  import opened CpuState
  import opened Mmu
  import opened Insertion
  import opened CacheAccess
  import opened CacheReads
  import opened CpuMemory
  import opened DirectReads
  import opened FlatMachine
  import Tlb

  // ---- When lookups by page alone are right

  /** Whatever page q has, a lookup finds q's own entry or none. */
  ghost predicate LooksUpOwn(m: Mem, entries: seq<CacheEntry>, q: nat) {
    forall page :: Mapped(m, q, page) ==>
      First(entries, page) < |entries| ==> entries[First(entries, page)].pid == q
  }

  /** No used entry of another process has a page address that q maps. */
  ghost predicate OutOfTheWay(m: Mem, entries: seq<CacheEntry>, q: nat) {
    forall k :: 0 <= k < |entries| && entries[k].pid != -1 && entries[k].pid != q ==> !Mapped(m, q, entries[k].page)
  }

  /** Lookups compare the page alone: they are right for q exactly when no used
      entry of another process has a page address that q maps. */
  lemma LookupRightIff(m: Mem, entries: seq<CacheEntry>, q: nat)
    requires m.cfg.Ok() && EmptyOk(entries)
    requires forall i, j :: 0 <= i < j < |entries| && entries[i].pid != -1 && entries[j].pid != -1 ==>
               entries[i].page != entries[j].page
    ensures LooksUpOwn(m, entries, q) <==> OutOfTheWay(m, entries, q)
  {
    if LooksUpOwn(m, entries, q) {
      forall k | 0 <= k < |entries| && entries[k].pid != -1 && entries[k].pid != q
        ensures !Mapped(m, q, entries[k].page) {
        if entries[k].page != [] {
          FirstIs(entries, k);
        }
      }
    }
  }

  lemma FirstIs(entries: seq<CacheEntry>, k: nat)
    requires k < |entries| && entries[k].page != [] && EmptyOk(entries)
    requires forall i :: 0 <= i < k && entries[i].pid != -1 ==> entries[i].page != entries[k].page
    ensures First(entries, entries[k].page) == k
  {
  }

  /** The condition on the entries is the one on their lines. */
  lemma WayIff(c: Cpu, q: nat)
    requires c.Linked()
    ensures OutOfTheWay(c.memory.Model(), c.entries, q) <==> NoClash(c.Now(), q)
  {
    assert forall k :: 0 <= k < |c.entries| ==> Matches(c.entries[k], c.lines[k]);
  }

  /** Looks for an entry of another process at a page address that q maps. */
  method InTheWay(c: Cpu, q: nat) returns (found: bool)
    requires c.Linked() && c.memory.cfg.Ok()
    ensures found <==> !NoClash(c.Now(), q)
  {
    hide Separate, EmptyOk, Matches, NoClash, FrameOf;
    WayIff(c, q);
    for k := 0 to |c.entries|
      invariant forall j :: 0 <= j < k && c.entries[j].pid != -1 && c.entries[j].pid != q ==>
                  !Mapped(c.memory.Model(), q, c.entries[j].page)
    {
      if c.entries[k].pid != -1 && c.entries[k].pid != q {
        var frame := c.memory.LogicAddressToFrame(q, c.entries[k].page);
        if frame.Ok? {
          return true;
        }
      }
    }
    return false;
  }

  // ---- What goes wrong otherwise

  /** The slice of an entry of process p. */
  method HitForeign(c: Cpu, page: seq<int>, at: nat, n: nat, ghost p: nat) returns (bytes: seq<byte>)
    requires c.Linked() && c.memory.Wired() && PidSound(c.Now(), p)
    requires page != [] && Cached(c.entries, page) && c.entries[First(c.entries, page)].pid == p
    requires at + n <= c.memory.cfg.pageSize
    modifies c`entries
    ensures 0 <= Value(page, c.memory.cfg.entries) < |old(c.Seen(p))|
    ensures |old(c.Seen(p))[Value(page, c.memory.cfg.entries)]| == c.memory.cfg.pageSize
    ensures bytes == old(c.Seen(p))[Value(page, c.memory.cfg.entries)][at..at + n]
    ensures c.Now() == old(c.Now())
  {
    hide Separate, EmptyOk, FindLine;
    ghost var k := First(c.entries, page);
    assert Matches(c.entries[k], c.lines[k]);
    SeenLine(c.memory.cfg, MemPages(c.memory.Model(), p), c.lines, p, k);
    assert LineOk(c.memory.cfg, MemPages(c.memory.Model(), p), c.lines[k]);
    ghost var all := c.entries[k].content[..];
    assert c.entries[k].content[at..at + n] == all[at..at + n];
    bytes := ReadHit(c, page, at, n);
  }

  /** ReadMemory within a page, when the cache holds that page address for process p:
      an address that the running process does not map is refused, and any other one
      gives the bytes that p sees. */
  method ReadForeign(c: Cpu, address: seq<int>, n: nat, ghost p: nat) returns (r: Reply)
    requires c.Linked() && c.memory.Wired() && c.TlbRight() && PidSound(c.Now(), p) && Exists(c.memory.Model(), c.pid)
    requires |address| >= 2 && 0 <= address[|address| - 1] && address[|address| - 1] + n <= c.memory.cfg.pageSize
    requires var page := address[..|address| - 1];
             Cached(c.entries, page) && c.entries[First(c.entries, page)].pid == p
    modifies c`entries, c.tlb
    ensures var page, at := address[..|address| - 1], address[|address| - 1];
            if Mapped(c.memory.Model(), c.pid, page) then
              var i := Value(page, c.memory.cfg.entries);
              && 0 <= i < |old(c.Seen(p))| && |old(c.Seen(p))[i]| == c.memory.cfg.pageSize
              && r == Content(old(c.Seen(p))[i][at..at + n])
            else r == Failed
    ensures c.Now() == old(c.Now())
  {
    hide SeenIn, PidSound, Inv, Matches, Separate, EmptyOk, FrameOf;
    var frame := Traducir(c, address, c.pid);
    if frame.None? {
      frame := Traducir(c, address, c.pid);
      if frame.None? {
        return Failed;
      }
    }
    var page := address[..|address| - 1];
    var cached := IsInCache(c, page);
    var bytes := HitForeign(c, page, address[|address| - 1], n, p);
    r := Content(bytes);
  }

  /** A process writes within a page, which is then in the cache as its own. */
  method WriteAt(c: Cpu, a: nat, value: seq<byte>) returns (address: seq<int>)
    requires c.Ready() && c.cacheEnable
    requires Legal(c.memory.cfg, Reach(c.memory.cfg, |c.Seen(c.pid)|), true, Write(a, value))
    requires c.memory.cfg.pageSize > 0 && a % c.memory.cfg.pageSize + |value| <= c.memory.cfg.pageSize
    modifies c`entries, c`lines, c.tlb, c.memory.userMemory, Buffers(c.entries)
    ensures c.Ready() && Confined(old(c.Now()), c.Now(), c.pid)
    ensures |address| >= 2 && |address| == c.memory.cfg.levels + 1
    ensures InRange(address[..|address| - 1], c.memory.cfg.entries)
    ensures address[|address| - 1] == a % c.memory.cfg.pageSize
    ensures var page, i, at, size := address[..|address| - 1], a / c.memory.cfg.pageSize, a % c.memory.cfg.pageSize,
                c.memory.cfg.pageSize;
            && Cached(c.entries, page) && c.entries[First(c.entries, page)].pid == c.pid
            && Value(page, c.memory.cfg.entries) == i < |c.Seen(c.pid)| && |c.Seen(c.pid)[i]| == size
            && c.Seen(c.pid)[i][at..at + |value|] == value
  {
    hide SeenIn, PidSound, Sound, NoClash, Inv, Confined, EmptyOk, FrameOf, Reach, WriteFrom, FitsFrom, NoWrap,
         Matches, Separate;
    ghost var seen, cfg, was := c.Seen(c.pid), c.memory.cfg, c.Now();
    address := FromIntToLogicalAddres(a, c.memory.cfg.pageSize, c.memory.cfg.entries, c.memory.cfg.levels);
    AccessFits(c, address, a, |value|);
    ghost var page := address[..|address| - 1];
    var ok := WriteMemory(c, address, value);
    ConfinedMapped(was, c.Now(), c.pid, page);
    CachedLine(c, page, First(c.entries, page));
    WriteInPage(seen, cfg.pageSize, Top(cfg), a / cfg.pageSize, a % cfg.pageSize, value);
  }

  /** The page of an address within a process's reach is mapped for it. */
  lemma WithinReach(m: Mem, q: nat, page: seq<int>, a: nat)
    requires Shape(m) && Exists(m, q) && a < Reach(m.cfg, |Table(m, q)|)
    requires |page| == m.cfg.levels && InRange(page, m.cfg.entries) && Value(page, m.cfg.entries) == a / m.cfg.pageSize
    ensures Mapped(m, q, page)
  {
    AddressPage(m.cfg, |Table(m, q)|, a);
    MappedIff(m, q, page);
  }

  /** Confined work of one process leaves who exists, and the tables. */
  lemma ConfinedTables(a: Snap, b: Snap, pid: nat, q: nat)
    requires Confined(a, b, pid)
    ensures (Exists(b.m, q) <==> Exists(a.m, q)) && Table(b.m, q) == Table(a.m, q) && b.m.cfg == a.m.cfg
  {
  }

  /** A process writes within a page and is interrupted; another one that reaches the
      same address, dispatched next, reads there what the first wrote, whatever its
      own memory holds. */
  method Misread(c: Cpu, a: nat, value: seq<byte>, q: nat) returns (r: Reply)
    requires c.Ready() && c.cacheEnable && q != c.pid
    requires Legal(c.memory.cfg, Reach(c.memory.cfg, |c.Seen(c.pid)|), true, Write(a, value))
    requires c.memory.cfg.pageSize > 0 && a % c.memory.cfg.pageSize + |value| <= c.memory.cfg.pageSize
    requires Exists(c.memory.Model(), q) && a < Reach(c.memory.cfg, |Table(c.memory.Model(), q)|)
    modifies c`pid, c`entries, c`lines, c.tlb, c.memory.userMemory, Buffers(c.entries)
    ensures c.pid == q && r == Content(value) && Confined(old(c.Now()), c.Now(), old(c.pid))
  {
    hide SeenIn, PidSound, Sound, NoClash, Inv, Confined, EmptyOk, Reach, Matches, Separate, FrameOf, Mapped;
    ghost var p, was := c.pid, c.Now();
    var address := WriteAt(c, a, value);
    RunningSound(c);
    ConfinedTables(was, c.Now(), p, q);
    WithinReach(c.memory.Model(), q, address[..|address| - 1], a);
    c.pid := q;
    r := ReadForeign(c, address, |value|, p);
  }

  lemma WriteInPage(seen: Image, size: nat, top: nat, i: nat, at: nat, value: seq<byte>)
    requires Uniform(seen, size) && i < |seen| && at < size && at + |value| <= size
    ensures WriteFrom(seen, size, top, i, at, value)[i][at..at + |value|] == value
  {
  }

  /** Two processes of one page are created in a memory of two zeroed bytes. */
  lemma TwoProcesses(m: Mem)
    requires Inv(m) && m.procs == [] && m.blocks == [] && m.cfg == Config(1, 2, 1) && m.bytes == [0, 0]
        && m.remaining == 2
    ensures !Exists(m, 0) && Create(m, 0, [], 1).1 == None && Inv(Create(m, 0, [], 1).0)
        && !Exists(Create(m, 0, [], 1).0, 1)
    ensures var (b, e) := Create(Create(m, 0, [], 1).0, 1, [], 1);
            && e == None && Inv(b) && b.cfg == m.cfg && |Table(b, 0)| == 1
            && PidSound(Snap(b, []), 0) && PidSound(Snap(b, []), 1) && MemPages(b, 1) == [[0]]
  {
    hide Create, FramesOwned, CountFree;
    PagesForExact(1, 1);
    CreateCosts(m, 0, 1);
    var a := Create(m, 0, [], 1).0;
    assert SameImage(m, a, 1);
    CreateCosts(a, 1, 1);
    var b := Create(a, 1, [], 1).0;
    assert SameImage(a, b, 0);
    BareSound(b, 0);
    BareSound(b, 1);
    assert MemPages(b, 1)[0] == [0];
  }

  lemma BareSound(m: Mem, pid: nat)
    requires Shape(m) && Exists(m, pid) && Resident(m, pid)
    ensures PidSound(Snap(m, []), pid)
  {
  }

  /** A process without lines on a CPU that has just started. */
  lemma FreshReady(c: Cpu, p: nat)
    requires c.memory.Valid() && c.tlb.entries == [] && c.Linked() && PidSound(Snap(c.memory.Model(), []), p)
    requires forall k :: 0 <= k < |c.entries| ==> c.entries[k].pid == -1
    ensures c.TlbRight() && Sound(c.Now(), p) && NoClash(c.Now(), p)
    ensures c.Seen(p) == MemPages(c.memory.Model(), p)
  {
    assert forall k :: 0 <= k < |c.lines| ==> Matches(c.entries[k], c.lines[k]);
    NoLinesView(c.memory.cfg, MemPages(c.memory.Model(), p), c.lines, p);
  }

  /** A memory of two bytes, two processes of a page each, a TLB and a cache of one
      entry, and process 0 on the CPU. */
  method TwoOnOneCpu() returns (c: Cpu)
    ensures fresh(c) && fresh(c.tlb) && fresh(c.memory.userMemory) && fresh(Buffers(c.entries))
    ensures c.Ready() && c.pid == 0 && c.cacheEnable && c.memory.cfg == Config(1, 2, 1) && |c.Seen(0)| == 1
    ensures PidSound(c.Now(), 1) && c.Seen(1) == [[0]] && |Table(c.memory.Model(), 1)| == 1
  {
    hide PidSound, SeenIn, Sound, NoClash, Inv, EmptyOk, Matches, Separate, Create, FrameOf, Buffers;
    var memory := new Storage(2, Config(1, 2, 1));
    assert memory.userMemory[..] == [0, 0];
    TwoProcesses(memory.Model());
    var first := memory.CreateProcess(0, [], 1);
    var second := memory.CreateProcess(1, [], 1);
    var tlb := new Tlb.Buffer(1, Tlb.LRU);
    c := new Cpu(memory, tlb, 1, CLOCK, 0);
    FreshReady(c, 0);
    FreshReady(c, 1);
  }

  /** Process 0 writes a byte and is interrupted, process 1 is dispatched, reads its
      own address 0, where its memory holds a 0, and gets that byte. */
  method StaleRead(value: byte) returns (c: Cpu, r: Reply)
    ensures c.pid == 1 && r == Content([value])
    ensures c.memory.Wired() && PidSound(c.Now(), 1) && c.Seen(1) == [[0]]
  {
    hide SeenIn, Sound, NoClash, Inv, EmptyOk, Matches, Separate, FrameOf, Buffers, PidOk;
    c := TwoOnOneCpu();
    r := Misread(c, 0, [value], 1);
  }
}
