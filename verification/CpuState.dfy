/** The state of a CPU: its TLB, its page cache, and the memory it talks to. */
module CpuState {
  import opened Wrappers
  import opened Pages
  import opened Memory
  import opened Storage
  import opened Clock
  import opened Coherence
  import Tlb

  /** A cache entry as the CPU holds it: its content is a buffer that can be
      written through. */
  type CacheEntry = Entry<array?<byte>>

  datatype Replacement = CLOCK | CLOCKM

  ghost function Buffers(entries: seq<CacheEntry>): set<array?<byte>> {
    set e | e in entries && e.content != null :: e.content
  }

  /** The line is what the entry holds now. */
  ghost predicate Matches(e: CacheEntry, l: Line)
    reads e.content
  {
    && l.page == e.page && l.modified == e.modified && l.pid == e.pid
    && l.content == if e.content == null then [] else e.content[..]
  }

  /** Every used entry has a buffer of its own. */
  ghost predicate Separate(entries: seq<CacheEntry>) {
    && (forall k :: 0 <= k < |entries| && entries[k].pid != -1 ==> entries[k].content != null)
    && (forall k, j :: 0 <= k < j < |entries| && entries[k].content != null ==>
      entries[k].content != entries[j].content)
  }

  /** Empty entries are blank. */
  predicate EmptyOk(entries: seq<CacheEntry>) {
    forall k :: 0 <= k < |entries| ==>
      entries[k].pid >= -1 && (entries[k].pid == -1 ==>
        entries[k].page == [] && !entries[k].use && !entries[k].modified)
  }

  // ---- Memory and cache together

  /** Memory, and the lines of a cache over it. */
  datatype Snap = Snap(m: Mem, lines: seq<Line>)

  /** A page address that the process's table maps. */
  ghost predicate Mapped(m: Mem, pid: nat, page: seq<int>) {
    FrameOf(m, pid, page).Ok?
  }

  /** A process in memory whose lines agree with its pages. */
  ghost predicate PidSound(s: Snap, q: nat) {
    && Shape(s.m) && Exists(s.m, q) && Resident(s.m, q)
    && PidOk(s.m.cfg, MemPages(s.m, q), s.lines, q)
  }

  /** So for the running process, and for every process that left lines behind. */
  ghost predicate Sound(s: Snap, pid: nat) {
    && PidSound(s, pid)
    && forall k :: 0 <= k < |s.lines| && s.lines[k].pid >= 0 ==> PidSound(s, s.lines[k].pid)
  }

  /** No line of another process has a page address that this process maps: since
      lookups compare the page alone, every hit of this process is then its own. */
  ghost predicate NoClash(s: Snap, pid: nat) {
    forall k :: 0 <= k < |s.lines| && s.lines[k].pid >= 0 && s.lines[k].pid != pid ==>
      !Mapped(s.m, pid, s.lines[k].page)
  }

  /** The image that process q sees. */
  ghost function SeenIn(s: Snap, q: nat): Image
    requires Shape(s.m)
  {
    View(s.m.cfg, MemPages(s.m, q), s.lines, q)
  }

  /** Some line is of that process and page. */
  ghost predicate HasLine(lines: seq<Line>, pid: int, page: seq<int>) {
    exists j :: 0 <= j < |lines| && lines[j].pid == pid && lines[j].page == page
  }

  /** No line is of that process. */
  predicate NoLine(lines: seq<Line>, pid: int) {
    forall k :: 0 <= k < |lines| ==> lines[k].pid != pid
  }

  /** What one process's work leaves to all the others: only bytes of memory change,
      what each of them sees stays, and no line of theirs is new. */
  ghost predicate Confined(a: Snap, b: Snap, pid: nat) {
    && Inv(a.m) && Inv(b.m) && b.m == a.m.(bytes := b.m.bytes)
    && (forall q: nat :: q != pid && PidSound(a, q) ==> PidSound(b, q) && SeenIn(b, q) == SeenIn(a, q))
    && (forall k :: 0 <= k < |b.lines| && b.lines[k].pid >= 0 && b.lines[k].pid != pid ==>
          HasLine(a.lines, b.lines[k].pid, b.lines[k].page))
  }

  lemma ConfinedTransitive(a: Snap, b: Snap, c: Snap, pid: nat)
    requires Confined(a, b, pid) && Confined(b, c, pid)
    ensures Confined(a, c, pid)
  {
    hide PidSound, SeenIn;
    forall q: nat | q != pid && PidSound(a, q) ensures PidSound(c, q) && SeenIn(c, q) == SeenIn(a, q) {
      assert PidSound(b, q);
    }
    forall k | 0 <= k < |c.lines| && c.lines[k].pid >= 0 && c.lines[k].pid != pid
      ensures HasLine(a.lines, c.lines[k].pid, c.lines[k].page) {
      assert HasLine(b.lines, c.lines[k].pid, c.lines[k].page);
      var j :| 0 <= j < |b.lines| && b.lines[j].pid == c.lines[k].pid && b.lines[j].page == c.lines[k].page;
      assert HasLine(a.lines, b.lines[j].pid, b.lines[j].page);
    }
  }

  /** Doing nothing is confined. */
  lemma ConfinedReflexive(a: Snap, pid: nat)
    requires Inv(a.m)
    ensures Confined(a, a, pid)
  {
  }

  /** Confined work keeps the whole cache sound, once the process itself is. */
  lemma SoundOn(a: Snap, b: Snap, pid: nat)
    requires Sound(a, pid) && Confined(a, b, pid) && PidSound(b, pid)
    ensures Sound(b, pid)
    ensures NoClash(a, pid) ==> NoClash(b, pid)
  {
    hide PidSound, SeenIn, Inv;
    forall k | 0 <= k < |b.lines| && b.lines[k].pid >= 0 && b.lines[k].pid != pid
      ensures PidSound(b, b.lines[k].pid) && (NoClash(a, pid) ==> !Mapped(b.m, pid, b.lines[k].page)) {
      assert HasLine(a.lines, b.lines[k].pid, b.lines[k].page);
      var j :| 0 <= j < |a.lines| && a.lines[j].pid == b.lines[k].pid && a.lines[j].page == b.lines[k].page;
      assert PidSound(a, a.lines[j].pid);
      MappedSame(a.m, b.m, pid, b.lines[k].page);
    }
  }

  lemma MappedSame(m: Mem, next: Mem, pid: nat, page: seq<int>)
    requires next == m.(bytes := next.bytes)
    ensures Mapped(next, pid, page) <==> Mapped(m, pid, page)
    ensures FrameOf(next, pid, page) == FrameOf(m, pid, page)
  {
  }

  /** InitCache: empty entries, each with a buffer of its own, of whatever the page
      size is then known to be; the first has the hand. */
  method InitCache(memory: Storage, n: nat, pageSize: nat) returns (entries: seq<CacheEntry>, ghost lines: seq<Line>)
    ensures |entries| == |lines| == n && fresh(Buffers(entries)) && Separate(entries)
    ensures forall k :: 0 <= k < n ==> entries[k] == Entry([], entries[k].content, false, false, k == 0, -1)
    ensures forall k :: 0 <= k < n ==> Matches(entries[k], lines[k]) && entries[k].content != memory.userMemory
    ensures forall k :: 0 <= k < n ==> entries[k].content != null && entries[k].content.Length == pageSize
  {
    entries, lines := [], [];
    for i := 0 to n
      invariant |entries| == |lines| == i && fresh(Buffers(entries)) && Separate(entries)
      invariant forall k :: 0 <= k < i ==> entries[k] == Entry([], entries[k].content, false, false, k == 0, -1)
      invariant forall k :: 0 <= k < i ==> Matches(entries[k], lines[k]) && entries[k].content != memory.userMemory
      invariant forall k :: 0 <= k < i ==> entries[k].content != null && entries[k].content.Length == pageSize
    {
      var content := new byte[pageSize](_ => 0);
      MoreBuffers(entries, Entry([], content, false, false, i == 0, -1));
      entries := entries + [Entry([], content, false, false, i == 0, -1)];
      lines := lines + [Line([], content[..], false, -1)];
    }
  }

  lemma MoreBuffers(entries: seq<CacheEntry>, e: CacheEntry)
    requires Separate(entries) && e.content != null && e.content !in Buffers(entries)
    ensures Separate(entries + [e]) && Buffers(entries + [e]) == Buffers(entries) + {e.content}
  {
    assert forall k :: 0 <= k < |entries| ==> entries[k] in entries;
  }

  class Cpu {
    const memory: Storage
    const tlb: Tlb.Buffer
    const cacheEnable: bool
    const replacement: Replacement
    var entries: seq<CacheEntry>
    var pid: nat
    ghost var lines: seq<Line>

    /** A CPU whose cache has `cacheEntries` entries; with none it is off. The cache
        is set up before memory has told its page size, so with empty buffers. */
    constructor (memory: Storage, tlb: Tlb.Buffer, cacheEntries: nat, replacement: Replacement, pid: nat)
      requires memory.cfg.Ok()
      ensures this.memory == memory && this.tlb == tlb && this.pid == pid && this.replacement == replacement
      ensures |entries| == cacheEntries && (cacheEnable <==> cacheEntries != 0) && fresh(Buffers(entries))
      ensures Linked() && OneHand(entries)
      ensures forall k :: 0 <= k < |entries| ==> entries[k].pid == -1
      ensures cacheEntries > 0 ==> entries[0].position
    {
      this.memory := memory;
      this.tlb := tlb;
      this.cacheEnable := cacheEntries != 0;
      this.replacement := replacement;
      this.pid := pid;
      entries := [];
      lines := [];
      new;
      entries, lines := InitCache(memory, cacheEntries, 0);
    }

    /** The entries and their lines, each with its own buffer outside the memory. */
    ghost predicate Linked()
      reads `lines, `entries, Buffers(entries)
    {
      && |lines| == |entries| && (forall k :: 0 <= k < |entries| ==> Matches(entries[k], lines[k]))
      && Separate(entries) && EmptyOk(entries)
      && (forall k :: 0 <= k < |entries| ==> entries[k].content != memory.userMemory)
    }

    ghost predicate TlbRight()
      reads tlb, memory, memory.userMemory, memory.reservationBits
    {
      Tlb.TlbOk(memory.Model(), tlb.entries, tlb.capacity)
    }

    /** Memory and cache as they are. */
    ghost function Now(): Snap
      reads `lines, memory, memory.userMemory, memory.reservationBits
    {
      Snap(memory.Model(), lines)
    }

    /** Process q is in memory, and the TLB and q's lines agree with its pages. */
    ghost predicate Coherent(q: nat)
      reads `lines, tlb, memory, memory.userMemory, memory.reservationBits
    {
      memory.Valid() && TlbRight() && PidSound(Now(), q)
    }

    /** What holds while a process runs: the cache is sound, and what others left
        in it is out of the process's way. */
    ghost predicate Ready()
      reads this, tlb, memory, memory.userMemory, memory.reservationBits, Buffers(entries)
    {
      && memory.Valid() && TlbRight() && Sound(Now(), pid) && NoClash(Now(), pid)
      && Linked() && OneHand(entries) && (cacheEnable <==> entries != [])
    }

    /** The image that process q sees through the cache. */
    ghost function Seen(q: nat): Image
      requires memory.Wired()
      reads `lines, memory, memory.userMemory, memory.reservationBits
    {
      SeenIn(Now(), q)
    }
  }

  /** No entry's buffer is the user memory. */
  lemma OutsideMemory(c: Cpu)
    requires c.Linked()
    ensures c.memory.userMemory !in Buffers(c.entries)
  {
  }
}
