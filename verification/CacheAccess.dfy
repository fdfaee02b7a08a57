/** cpu/memory/cache.go: reads and writes through the page cache, page after page. */
module CacheAccess {
  import opened Wrappers
  import opened Addressing
  import opened Pages
  import opened Memory
  import opened Keeps
  import opened Storage
  import opened Clock
  import opened Coherence
  import opened CpuState
  import opened Mmu
  import opened Insertion
  import Tlb

  /** Nothing changed is a confined change. */
  lemma Unmoved(c: Cpu)
    requires c.Ready()
    ensures Confined(c.Now(), c.Now(), c.pid)
  {
    ConfinedReflexive(c.Now(), c.pid);
  }

  /** An entry with a page address of the running process is the process's own, and
      the lines know what it holds. */
  lemma CachedLine(c: Cpu, page: seq<int>, k: nat)
    requires c.Ready() && k < |c.entries| && c.entries[k].page == page && Mapped(c.memory.Model(), c.pid, page)
    ensures c.entries[k].pid == c.pid && c.entries[k].content != null
    ensures Matches(c.entries[k], c.lines[k]) && c.lines[k].pid == c.pid
    ensures Coherence.LineOk(c.memory.cfg, MemPages(c.memory.Model(), c.pid), c.lines[k])
    ensures 0 <= Value(page, c.memory.cfg.entries) < |c.Seen(c.pid)| == |Table(c.memory.Model(), c.pid)|
    ensures c.Seen(c.pid)[Value(page, c.memory.cfg.entries)] == c.entries[k].content[..]
  {
    hide Sound;
    OwnEntry(c, page, k);
    RunningSound(c);
    SeenLine(c.memory.cfg, MemPages(c.memory.Model(), c.pid), c.lines, c.pid, k);
    MappedIff(c.memory.Model(), c.pid, page);
  }

  lemma OwnEntry(c: Cpu, page: seq<int>, k: nat)
    requires c.Linked() && NoClash(c.Now(), c.pid) && k < |c.entries| && c.entries[k].page == page
    requires Mapped(c.memory.Model(), c.pid, page) && c.memory.cfg.Ok()
    ensures c.entries[k].pid == c.pid && Matches(c.entries[k], c.lines[k]) && c.entries[k].content != null
  {
    assert Matches(c.entries[k], c.lines[k]) && page != [];
  }

  lemma RunningSound(c: Cpu)
    requires c.Ready()
    ensures PidSound(c.Now(), c.pid)
  {
    hide PidSound;
  }

  /** copy(dst[at:], src). */
  method CopyInto(dst: array<byte>, at: nat, src: seq<byte>)
    requires at + |src| <= dst.Length
    modifies dst
    ensures dst[..] == Splice(old(dst[..]), at, src)
  {
    ghost var was := dst[..];
    for i := 0 to |src|
      invariant dst[..] == Splice(was, at, src[..i])
    {
      dst[at + i] := src[i];
    }
    assert src[..|src|] == src;
  }

  /** ModifyCache: marks the page's entry as modified. */
  method ModifyCache(c: Cpu, page: seq<int>)
    modifies c`entries
    ensures var k := First(old(c.entries), page);
            c.entries == if k == |old(c.entries)| then old(c.entries)
              else old(c.entries)[k := old(c.entries)[k].(modified := true)]
    ensures c.Now() == old(c.Now())
  {
    var k := FindPage(c, page);
    if k < |c.entries| {
      c.entries := c.entries[k := c.entries[k].(modified := true)];
    }
  }

  /** copy into the buffer of an entry: nothing else changes. */
  method WriteBuffer(c: Cpu, dst: array<byte>, at: nat, value: seq<byte>)
    requires at + |value| <= dst.Length && dst != c.memory.userMemory
    modifies dst
    ensures dst[..] == Splice(old(dst[..]), at, value)
    ensures c.Now() == old(c.Now()) && (old(c.memory.Valid()) ==> c.memory.Valid())
        && (old(c.TlbRight()) ==> c.TlbRight())
  {
    CopyInto(dst, at, value);
  }

  /** Writing line k, for its process. */
  lemma WriteOwn(m: Mem, lines: seq<Line>, pid: nat, k: nat, content: seq<byte>)
    requires PidSound(Snap(m, lines), pid) && k < |lines| && lines[k].pid == pid && |content| == m.cfg.pageSize
    ensures 0 <= Value(lines[k].page, m.cfg.entries) < |MemPages(m, pid)|
    ensures var b := Snap(m, lines[k := lines[k].(content := content, modified := true)]);
            PidSound(b, pid) && SeenIn(b, pid)
              == SeenIn(Snap(m, lines), pid)[Value(lines[k].page, m.cfg.entries) := content]
  {
    SeenLine(m.cfg, MemPages(m, pid), lines, pid, k);
    ModifyKeeps(m.cfg, MemPages(m, pid), lines, pid, k, content);
  }

  /** Changing a line of process pid shows to no other. */
  lemma OwnLineConfined(m: Mem, lines: seq<Line>, pid: nat, k: nat, l: Line)
    requires Inv(m) && k < |lines| && lines[k].pid == pid == l.pid
    ensures Confined(Snap(m, lines), Snap(m, lines[k := l]), pid)
  {
    hide PidSound, SeenIn;
    var a, b := Snap(m, lines), Snap(m, lines[k := l]);
    forall r: nat | r != pid && PidSound(a, r) ensures PidSound(b, r) && SeenIn(b, r) == SeenIn(a, r) {
      OwnLineOther(m, lines, pid, k, l, r);
    }
    forall j | 0 <= j < |b.lines| && b.lines[j].pid >= 0 && b.lines[j].pid != pid
      ensures HasLine(a.lines, b.lines[j].pid, b.lines[j].page) {
      assert a.lines[j] == b.lines[j];
    }
  }

  lemma OwnLineOther(m: Mem, lines: seq<Line>, pid: nat, k: nat, l: Line, r: nat)
    requires PidSound(Snap(m, lines), r) && k < |lines| && lines[k].pid == pid == l.pid && r != pid
    ensures var b := Snap(m, lines[k := l]); PidSound(b, r) && SeenIn(b, r) == SeenIn(Snap(m, lines), r)
  {
    DropKeeps(m.cfg, MemPages(m, r), lines, r, k, l);
  }

  /** The line of entry k is written. */
  ghost method CountWrite(c: Cpu, k: nat, content: seq<byte>)
    requires c.memory.Valid() && PidSound(c.Now(), c.pid) && k < |c.lines| && c.lines[k].pid == c.pid
    requires |content| == c.memory.cfg.pageSize
    modifies c`lines
    ensures PidSound(c.Now(), c.pid) && Confined(old(c.Now()), c.Now(), c.pid)
    ensures c.lines == old(c.lines)[k := old(c.lines)[k].(content := content, modified := true)]
    ensures 0 <= Value(c.lines[k].page, c.memory.cfg.entries) < |old(c.Seen(c.pid))|
    ensures c.Seen(c.pid) == old(c.Seen(c.pid))[Value(c.lines[k].page, c.memory.cfg.entries) := content]
  {
    hide PidSound, Confined;
    WriteOwn(c.memory.Model(), c.lines, c.pid, k, content);
    OwnLineConfined(c.memory.Model(), c.lines, c.pid, k, c.lines[k].(content := content, modified := true));
    c.lines := c.lines[k := c.lines[k].(content := content, modified := true)];
  }

  /** Entries stay linked when one of them is written and marked. */
  lemma LinkWritten(c: Cpu, was: seq<CacheEntry>, lines: seq<Line>, k: nat, content: seq<byte>)
    requires k < |was| == |lines| && was[k].pid != -1 && was[k].content != null && was[k].content[..] == content
    requires Separate(was) && EmptyOk(was) && forall j :: 0 <= j < |was| ==> was[j].content != c.memory.userMemory
    requires forall j :: 0 <= j < |was| && j != k ==> Matches(was[j], lines[j])
    requires lines[k].page == was[k].page && lines[k].pid == was[k].pid
    requires c.entries == was[k := was[k].(modified := true)]
    requires c.lines == lines[k := lines[k].(content := content, modified := true)]
    ensures c.Linked() && Buffers(c.entries) == Buffers(was)
    ensures OneHand(was) ==> OneHand(c.entries)
  {
    SameBuffers(was, c.entries);
    assert forall j :: 0 <= j < |was| && j != k ==> c.entries[j] == was[j];
  }

  /** The buffer that a lookup of the page hands out, or one that no entry holds. */
  ghost predicate Own(c: Cpu, page: seq<int>, content: array<byte>)
    reads c
  {
    && First(c.entries, page) < |c.entries|
    && c.entries[First(c.entries, page)].content == content
  }

  ghost predicate Detached(c: Cpu, content: array<byte>)
    reads c
  {
    content !in Buffers(c.entries) && content != c.memory.userMemory
  }

  /** copy into the page at hand, then ModifyCache: what the buffers hold after. */
  method StoreBytes(c: Cpu, page: seq<int>, content: array<byte>, at: nat, value: seq<byte>, ghost k: nat)
    requires k == First(c.entries, page) < |c.entries| && c.entries[k].content != null && at + |value| <= content.Length
    requires Own(c, page, content) || Detached(c, content)
    requires Separate(c.entries) && content != c.memory.userMemory
    modifies c`entries, content
    ensures c.Now() == old(c.Now()) && (old(c.memory.Valid()) ==> c.memory.Valid())
        && (old(c.TlbRight()) ==> c.TlbRight())
    ensures c.entries == old(c.entries)[k := old(c.entries)[k].(modified := true)]
    ensures old(Own(c, page, content)) ==> c.entries[k].content[..] == Splice(old(content[..]), at, value)
    ensures !old(Own(c, page, content)) ==> c.entries[k].content[..] == old(c.entries[k].content[..])
    ensures forall j :: 0 <= j < |c.entries| && j != k ==> old(c.entries)[j].content != content
  {
    assert c.entries[k] in c.entries && forall j :: 0 <= j < |c.entries| ==> c.entries[j] in c.entries;
    WriteBuffer(c, content, at, value);
    ModifyCache(c, page);
  }

  lemma SameUpdate(s: Image, i: nat, page: Page)
    requires i < |s| && s[i] == page
    ensures s[i := page] == s
  {
  }

  /** The bytes of entry k after the page at hand has been written. */
  ghost function Written(c: Cpu, page: seq<int>, content: array<byte>, at: nat, value: seq<byte>, k: nat): seq<byte>
    requires k < |c.entries| && c.entries[k].content != null && at + |value| <= c.entries[k].content.Length
    reads c, if k < |c.entries| then {c.entries[k].content} else {}
  {
    if Own(c, page, content) then Splice(c.entries[k].content[..], at, value) else c.entries[k].content[..]
  }

  /** copy into the page at hand, and ModifyCache, with the line that goes with it. */
  method StoreLine(c: Cpu, page: seq<int>, content: array<byte>, at: nat, value: seq<byte>, ghost k: nat)
    requires c.memory.Valid() && PidSound(c.Now(), c.pid) && c.Linked() && k == First(c.entries, page) < |c.entries|
    requires c.entries[k].pid == c.pid && c.entries[k].content != null
    requires c.entries[k].content.Length == content.Length == c.memory.cfg.pageSize && at + |value| <= content.Length
    requires Own(c, page, content) || Detached(c, content)
    modifies c`entries, c`lines, content
    ensures c.memory.Valid() && (old(c.TlbRight()) ==> c.TlbRight()) && c.Linked() && PidSound(c.Now(), c.pid)
    ensures c.memory.Model() == old(c.memory.Model()) && Confined(old(c.Now()), c.Now(), c.pid)
    ensures 0 <= Value(page, c.memory.cfg.entries) < |old(c.Seen(c.pid))|
    ensures c.Seen(c.pid)
         == old(c.Seen(c.pid))[Value(page, c.memory.cfg.entries) := old(Written(c, page, content, at, value, k))]
    ensures c.entries == old(c.entries)[k := old(c.entries)[k].(modified := true)]
        && Buffers(c.entries) == old(Buffers(c.entries))
    ensures OneHand(old(c.entries)) ==> OneHand(c.entries)
  {
    hide PidSound, SeenIn, Confined, Inv, OneHand;
    ghost var was, lines := c.entries, c.lines;
    assert Matches(was[k], lines[k]);
    StoreBytes(c, page, content, at, value, k);
    ghost var after := c.entries[k].content[..];
    CountWrite(c, k, after);
    LinkWritten(c, was, lines, k, after);
  }

  /** Writing the page at hand. Through the entry's own buffer one page of what
      the process sees changes; a detached copy shows nowhere. */
  method WriteHit(c: Cpu, page: seq<int>, content: array<byte>, at: nat, value: seq<byte>)
    requires c.Ready() && Cached(c.entries, page) && Mapped(c.memory.Model(), c.pid, page)
    requires at + |value| <= c.memory.cfg.pageSize == content.Length
    requires Own(c, page, content) || Detached(c, content)
    modifies c`entries, c`lines, content
    ensures c.Ready() && c.memory.Model() == old(c.memory.Model()) && Confined(old(c.Now()), c.Now(), c.pid)
    ensures var i := Value(page, c.memory.cfg.entries);
            0 <= i < |old(c.Seen(c.pid))| && |old(c.Seen(c.pid))[i]| == c.memory.cfg.pageSize
            && c.Seen(c.pid) == if old(Own(c, page, content))
                                then old(c.Seen(c.pid))[i := Splice(old(c.Seen(c.pid))[i], at, value)]
                                else old(c.Seen(c.pid))
    ensures Cached(c.entries, page) && Buffers(c.entries) == old(Buffers(c.entries))
  {
    hide PidSound, SeenIn, Sound, NoClash, Confined, Inv, EmptyOk, Separate, Matches, FrameOf, OneHand, Buffers;
    ghost var k, now := First(c.entries, page), c.Now();
    CachedLength(c, page, k);
    RunningSound(c);
    SameUpdate(c.Seen(c.pid), Value(page, c.memory.cfg.entries), c.entries[k].content[..]);
    StoreLine(c, page, content, at, value, k);
    SoundOn(now, c.Now(), c.pid);
    assert c.entries[k].page == page;
  }

  lemma CachedLength(c: Cpu, page: seq<int>, k: nat)
    requires c.Ready() && k < |c.entries| && c.entries[k].page == page && Mapped(c.memory.Model(), c.pid, page)
    ensures c.entries[k].pid == c.pid && c.entries[k].content != null
    ensures c.entries[k].content.Length == c.memory.cfg.pageSize
    ensures 0 <= Value(page, c.memory.cfg.entries) < |c.Seen(c.pid)|
    ensures c.Seen(c.pid)[Value(page, c.memory.cfg.entries)] == c.entries[k].content[..]
  {
    hide PidSound, SeenIn, Sound, NoClash, EmptyOk, Separate, Inv;
    CachedLine(c, page, k);
  }

  /** After an insertion the cache holds the page, and one entry carries the hand. */
  lemma InsertedCached(c: Cpu, was: seq<CacheEntry>, v: nat, page: seq<int>)
    requires Inserted(c, was, v, page)
    ensures OneHand(c.entries) && c.entries != [] && Cached(c.entries, page)
    ensures Buffers(c.entries) <= Buffers(was) + {c.entries[v].content}
  {
    InsertedHand(c, was, v, page);
    forall e | e in c.entries && e.content != null ensures e.content in Buffers(was) + {c.entries[v].content} {
      var k :| 0 <= k < |c.entries| && c.entries[k] == e;
      assert k != v ==> was[k] in was;
    }
  }

  /** GetPageInMemory for a mapped page of the running process. */
  method GetMapped(c: Cpu, page: seq<int>, frame: Physical) returns (content: array<byte>)
    requires c.memory.Wired() && Mapped(c.memory.Model(), c.pid, page)
    requires FrameOf(c.memory.Model(), c.pid, page) == Ok(frame.frame)
    ensures fresh(content) && 0 <= Value(page, c.memory.cfg.entries) < |MemPages(c.memory.Model(), c.pid)|
    ensures content[..] == MemPages(c.memory.Model(), c.pid)[Value(page, c.memory.cfg.entries)]
    ensures old(c.Ready()) ==> c.Ready()
  {
    MappedIff(c.memory.Model(), c.pid, page);
    var ok: bool;
    content, ok := GetPageInMemory(c, frame);
  }

  /** AddEntryCache leaves a cache that is ready again and holds the page. */
  method AddPage(c: Cpu, page: seq<int>, content: array<byte>)
    requires c.Ready() && c.cacheEnable && content != c.memory.userMemory
    requires Mapped(c.memory.Model(), c.pid, page) && !Cached(c.entries, page) && page != []
    requires 0 <= Value(page, c.memory.cfg.entries) < |MemPages(c.memory.Model(), c.pid)|
    requires content[..] == MemPages(c.memory.Model(), c.pid)[Value(page, c.memory.cfg.entries)]
    modifies c`entries, c`lines, c.tlb, c.memory.userMemory
    ensures c.Ready() && c.Seen(c.pid) == old(c.Seen(c.pid)) && Cached(c.entries, page)
    ensures Confined(old(c.Now()), c.Now(), c.pid)
    ensures fresh(Buffers(c.entries) - old(Buffers(c.entries)))
  {
    hide PidSound, SeenIn, Sound, NoClash, Confined, Inv, Matches, Separate, EmptyOk, FrameOf;
    ghost var was, now := c.entries, c.Now();
    var v := AddEntryCache(c, page, content);
    InsertedCached(c, was, v, page);
    SoundOn(now, c.Now(), c.pid);
  }

  /** A mapped page address has a digit. */
  lemma MappedPage(c: Cpu, page: seq<int>)
    requires c.memory.Wired() && Mapped(c.memory.Model(), c.pid, page)
    ensures page != [] && 0 <= Value(page, c.memory.cfg.entries) < |Table(c.memory.Model(), c.pid)|
  {
    MappedIff(c.memory.Model(), c.pid, page);
  }

  /** Makes a page cached; the process sees the same. */
  method Load(c: Cpu, page: seq<int>, frame: Physical)
    requires c.Ready() && c.cacheEnable && Mapped(c.memory.Model(), c.pid, page)
    requires FrameOf(c.memory.Model(), c.pid, page) == Ok(frame.frame)
    modifies c`entries, c`lines, c.tlb, c.memory.userMemory
    ensures c.Ready() && c.Seen(c.pid) == old(c.Seen(c.pid)) && Cached(c.entries, page)
    ensures Mapped(c.memory.Model(), c.pid, page)
    ensures Confined(old(c.Now()), c.Now(), c.pid)
    ensures fresh(Buffers(c.entries) - old(Buffers(c.entries)))
  {
    hide PidSound, SeenIn, Sound, NoClash, Confined, Matches, Separate, EmptyOk, FrameOf, Inv;
    ghost var now := c.Now();
    Unmoved(c);
    MappedPage(c, page);
    var cached := IsInCache(c, page);
    if !cached {
      var content := GetMapped(c, page, frame);
      AddPage(c, page, content);
      ConfinedMapped(now, c.Now(), c.pid, page);
    }
  }

  /** Confined work leaves the page tables. */
  lemma ConfinedMapped(a: Snap, b: Snap, pid: nat, page: seq<int>)
    requires Confined(a, b, pid)
    ensures Mapped(b.m, pid, page) <==> Mapped(a.m, pid, page)
    ensures FrameOf(b.m, pid, page) == FrameOf(a.m, pid, page) && Table(b.m, pid) == Table(a.m, pid)
  {
    MappedSame(a.m, b.m, pid, page);
  }

  // ---- Page after page

  /** How many page numbers there are. */
  function Top(cfg: Config): nat { Pow(cfg.entries, cfg.levels) }

  /** The running process maps the page address of its page i. */
  ghost predicate PageIs(c: Cpu, page: seq<int>, i: nat)
    reads c, c.memory, c.memory.userMemory, c.memory.reservationBits
    requires c.memory.Wired()
  {
    Mapped(c.memory.Model(), c.pid, page) && Value(page, c.memory.cfg.entries) == i < |c.Seen(c.pid)|
  }

  /** NextPageMMU while a process runs: only the TLB changes. */
  method StepPage(c: Cpu, page: seq<int>, ghost i: nat) returns (r: Option<(seq<int>, Physical)>)
    requires c.Ready() && PageIs(c, page, i)
    modifies c.tlb
    ensures c.Ready()
    ensures r.Some? <==> NextNumber(i, Top(c.memory.cfg)) < |c.Seen(c.pid)|
    ensures r.Some? ==> PageIs(c, r.value.0, NextNumber(i, Top(c.memory.cfg)))
                        && FrameOf(c.memory.Model(), c.pid, r.value.0) == Ok(r.value.1.frame)
  {
    hide Sound, NoClash, View, Inv;
    r := NextPageMMU(c, page);
    if r.Some? {
      MappedIff(c.memory.Model(), c.pid, r.value.0);
    }
  }

  /** NextPageMMU, and the next page cached: the process sees the same. */
  method Advance(c: Cpu, page: seq<int>, ghost i: nat) returns (next: Option<seq<int>>)
    requires c.Ready() && c.cacheEnable && PageIs(c, page, i)
    modifies c`entries, c`lines, c.tlb, c.memory.userMemory
    ensures c.Ready() && c.Seen(c.pid) == old(c.Seen(c.pid)) && Confined(old(c.Now()), c.Now(), c.pid)
    ensures fresh(Buffers(c.entries) - old(Buffers(c.entries)))
    ensures next.Some? <==> NextNumber(i, Top(c.memory.cfg)) < |c.Seen(c.pid)|
    ensures next.Some? ==> PageIs(c, next.value, NextNumber(i, Top(c.memory.cfg))) && Cached(c.entries, next.value)
  {
    hide PidSound, SeenIn, Sound, NoClash, Confined, Matches, Separate, EmptyOk, FrameOf, Inv;
    Unmoved(c);
    var r := StepPage(c, page, i);
    if r.None? {
      return None;
    }
    Load(c, r.value.0, r.value.1);
    return Some(r.value.0);
  }

  /** A translation made only to report the address: the TLB alone takes note. */
  method Report(c: Cpu, page: seq<int>)
    requires c.Ready()
    modifies c.tlb
    ensures c.Ready()
  {
    hide Sound, NoClash;
    var frame := Traducir(c, page + [0], c.pid);
  }

  /** findFrame, called only to report the address. */
  method ReportFrame(c: Cpu, page: seq<int>)
    requires c.Ready()
    modifies c.tlb
    ensures c.Ready()
  {
    hide Sound, NoClash, PidSound, Inv, Matches, Separate, EmptyOk, Tlb.TlbOk;
    ghost var was := c.tlb.entries;
    var frame := c.tlb.FindFrame(page, c.pid);
    if frame.Some? {
      Tlb.EntriesKeep(c.memory.Model(), was, c.tlb.capacity, Tlb.Lookup(was, Tlb.Key(c.pid, page)), c.tlb.now);
    }
  }

  lemma SeenUniform(c: Cpu)
    requires c.Ready()
    ensures Uniform(c.Seen(c.pid), c.memory.cfg.pageSize) && |c.Seen(c.pid)| == |Table(c.memory.Model(), c.pid)|
    ensures c.memory.cfg.Ok()
  {
    hide Sound;
    RunningSound(c);
    ViewUniform(c.memory.cfg, MemPages(c.memory.Model(), c.pid), c.lines, c.pid);
  }

  /** Traducir for the running process: only the TLB changes. */
  method TranslateRunning(c: Cpu, address: seq<int>) returns (frame: Option<Physical>)
    requires c.Ready() && |address| >= 2
    modifies c.tlb
    ensures c.Ready()
    ensures frame.Some? <==> Mapped(c.memory.Model(), c.pid, address[..|address| - 1])
    ensures frame.Some? ==> FrameOf(c.memory.Model(), c.pid, address[..|address| - 1]) == Ok(frame.value.frame)
  {
    hide Sound, NoClash;
    RunningSound(c);
    frame := Traducir(c, address, c.pid);
  }
}
