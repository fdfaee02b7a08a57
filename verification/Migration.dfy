/** A process that is interrupted on one CPU and goes on on another: what the first
    one's cache still holds of it. */
module Migration {
  import opened Wrappers
  import opened Addressing
  import opened Pages
  import opened Memory
  import opened Keeps
  import opened Storage
  import opened Clock
  import opened Coherence
  import opened CpuState
  import opened Mmu
  import opened Insertion
  import opened CacheAccess
  import opened DirectReads
  import opened CpuReads
  import opened Preemption
  import Tlb

  /** Every modified line of the process holds what memory has. */
  ghost predicate NothingPending(s: Snap, p: nat)
    requires PidSound(s, p)
  {
    forall k :: 0 <= k < |s.lines| && s.lines[k].pid == p && s.lines[k].modified ==>
      var i := Value(s.lines[k].page, s.m.cfg.entries);
      0 <= i < |MemPages(s.m, p)| && s.lines[k].content == MemPages(s.m, p)[i]
  }

  /** Over a cache that has nothing of it a process sees what it saw over the one it
      left exactly when no modified line was left behind, but for what memory has. */
  lemma MigrationRightIff(m: Mem, left: seq<Line>, lines: seq<Line>, p: nat)
    requires PidSound(Snap(m, left), p) && NoLine(lines, p)
    ensures SeenIn(Snap(m, lines), p) == SeenIn(Snap(m, left), p) <==> NothingPending(Snap(m, left), p)
  {
    var pages := MemPages(m, p);
    NoLinesView(m.cfg, pages, lines, p);
    forall k | 0 <= k < |left| && left[k].pid == p
      ensures var i := Value(left[k].page, m.cfg.entries);
              0 <= i < |pages| && SeenIn(Snap(m, left), p)[i] == left[k].content {
      SeenLine(m.cfg, pages, left, p, k);
    }
    if NothingPending(Snap(m, left), p) {
      forall i | 0 <= i < |pages| ensures SeenPage(m.cfg, pages, left, p, i) == pages[i] {
        var k := FindLine(m.cfg, left, p, i);
        assert k < |left| ==> LineOk(m.cfg, pages, left[k]);
      }
    }
  }

  /** The cache holds this byte as page 0 of process 0. */
  ghost predicate Holds(c: Cpu, value: byte)
    reads c, Buffers(c.entries)
  {
    var k := First(c.entries, [0]);
    && k < |c.entries| && c.entries[k] in c.entries && c.entries[k].pid == 0 && c.entries[k].content != null
    && c.entries[k].content[..] == [value]
  }

  /** The process writes a byte that memory does not have, on a CPU that has its page
      in the cache. */
  method WriteOther(c: Cpu) returns (value: byte, memorys: byte)
    requires c.Ready() && c.pid == 0 && c.cacheEnable && c.memory.cfg == Config(1, 2, 1) && |c.Seen(0)| == 1
    modifies c`entries, c`lines, c.tlb, c.memory.userMemory, Buffers(c.entries)
    ensures c.Ready() && c.pid == 0 && value != memorys && Holds(c, value)
    ensures c.Seen(0) == [[value]] && MemPages(c.memory.Model(), 0) == [[memorys]]
  {
    hide PidSound, SeenIn, Sound, NoClash, Confined, Inv, Matches, Separate, EmptyOk;
    OnePage(c);
    var frame := TranslateRunning(c, [0, 0]);
    ghost var was := c.Now();
    Load(c, [0], frame.value);
    ConfinedTables(was, c.Now(), 0, 0);
    value, memorys := WriteDifferent(c, frame.value.frame);
  }

  lemma OnePage(c: Cpu)
    requires c.Ready() && c.pid == 0 && c.memory.cfg == Config(1, 2, 1) && |c.Seen(0)| == 1
    ensures Mapped(c.memory.Model(), 0, [0]) && [0, 0][..1] == [0]
    ensures |Table(c.memory.Model(), 0)| == 1 && FrameOf(c.memory.Model(), 0, [0]) == Ok(Table(c.memory.Model(), 0)[0])
  {
    hide Sound, NoClash;
    RunningSound(c);
    MappedIff(c.memory.Model(), 0, [0]);
    assert Value([0], 2) == 0;
  }

  /** The write, once the page is cached: memory keeps its byte. */
  method WriteDifferent(c: Cpu, base: int) returns (value: byte, memorys: byte)
    requires c.Ready() && c.pid == 0 && c.cacheEnable && c.memory.cfg == Config(1, 2, 1) && |c.Seen(0)| == 1
    requires Cached(c.entries, [0]) && Table(c.memory.Model(), 0) == [base]
    modifies c`entries, c`lines, Buffers(c.entries)
    ensures c.Ready() && c.pid == 0 && value != memorys && Holds(c, value)
    ensures c.Seen(0) == [[value]] && MemPages(c.memory.Model(), 0) == [[memorys]]
  {
    hide PidSound, SeenIn, Sound, NoClash, Confined, Inv, Matches, Separate, EmptyOk;
    OnePage(c);
    var page := c.memory.GetPage(0, base);
    assert page == Ok(MemPages(c.memory.Model(), 0)[0]);
    memorys := page.value[0];
    assert |page.value| == 1 && page.value == [memorys];
    assert MemPages(c.memory.Model(), 0) == [page.value];
    value := if memorys == 0 then 1 else 0;
    var content, found := SearchPageInCache(c, [0]);
    CachedLength(c, [0], First(c.entries, [0]));
    assert c.entries[First(c.entries, [0])] in c.entries;
    ghost var seen := c.Seen(0);
    WriteHit(c, [0], content, 0, [value]);
    OneByte(seen[0], value);
    CachedLength(c, [0], First(c.entries, [0]));
  }

  lemma OneByte(page: Page, value: byte)
    requires |page| == 1
    ensures Splice(page, 0, [value]) == [value]
  {
  }

  /** A second CPU over the same memory, and the process on it. */
  method SecondCpu(c: Cpu) returns (d: Cpu)
    requires c.Ready()
    ensures fresh(d) && fresh(d.tlb) && fresh(Buffers(d.entries)) && d.memory == c.memory && d.pid == c.pid
    ensures d.cacheEnable && d.Ready() && d.Seen(c.pid) == MemPages(c.memory.Model(), c.pid)
  {
    hide SeenIn, Sound, NoClash, Inv, Matches, Separate, EmptyOk, PidOk;
    RunningSound(c);
    BareSound(c.memory.Model(), c.pid);
    var tlb := new Tlb.Buffer(1, Tlb.LRU);
    d := new Cpu(c.memory, tlb, 1, CLOCK, c.pid);
    FreshReady(d, c.pid);
  }

  /** A process writes its byte at address 0, is interrupted, is dispatched on another
      CPU, and reads there what memory had before: not the byte that it wrote. */
  method Migrated() returns (c: Cpu, d: Cpu, value: byte, r: Reply)
    ensures c != d && c.memory == d.memory && c.pid == d.pid == 0
    ensures Holds(c, value)
    ensures r.Content? && |r.bytes| == 1 && r.bytes[0] != value
  {
    hide PidSound, SeenIn, Sound, NoClash, Confined, Inv, Matches, Separate, EmptyOk, Buffers;
    c := TwoOnOneCpu();
    var memorys: byte;
    value, memorys := WriteOther(c);
    d := SecondCpu(c);
    OnePage(d);
    OutsideMemory(c);
    r := ReadOne(d);
  }

  /** READ 0 1. */
  method ReadOne(d: Cpu) returns (r: Reply)
    requires d.Ready() && d.cacheEnable && d.memory.cfg == Config(1, 2, 1)
    requires Mapped(d.memory.Model(), d.pid, [0]) && |d.Seen(d.pid)| == 1 && |d.Seen(d.pid)[0]| == 1
    modifies d`entries, d`lines, d.tlb, d.memory.userMemory
    ensures r == Content(old(d.Seen(d.pid))[0])
    ensures Confined(old(d.Now()), d.Now(), d.pid)
  {
    hide PidSound, SeenIn, Sound, NoClash, Confined, Inv, Matches, Separate, EmptyOk;
    assert [0, 0][..1] == [0] && Value([0], 2) == 0;
    r := ReadMemory(d, [0, 0], 1, []);
  }
}
