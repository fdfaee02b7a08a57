/** cpu/memory/cache.go: lookups in the page cache, and insertion with write-back
    of the victim. */
module Insertion {
  import opened Wrappers
  import opened Addressing
  import opened Pages
  import opened Memory
  import opened Requests
  import opened Keeps
  import opened KeepsSwap
  import opened Storage
  import opened Clock
  import opened Coherence
  import opened CpuState
  import opened Mmu
  import opened Replacement

  predicate Cached(entries: seq<CacheEntry>, page: seq<int>) {
    exists k :: 0 <= k < |entries| && entries[k].page == page
  }

  // ---- Lookups compare the page only

  /** The first entry with the page, or the end. */
  function First(entries: seq<CacheEntry>, page: seq<int>): (k: nat)
    ensures k <= |entries| && (k < |entries| ==> entries[k].page == page)
    ensures forall j :: 0 <= j < k ==> entries[j].page != page
  {
    if entries == [] || entries[0].page == page then 0 else 1 + First(entries[1..], page)
  }

  /** The lookup loop shared by SearchPageInCache, UseCache, ModifyCache and IsInCache. */
  method FindPage(c: Cpu, page: seq<int>) returns (k: nat)
    ensures k == First(c.entries, page)
  {
    k := 0;
    while k < |c.entries|
      invariant k <= |c.entries| && forall j :: 0 <= j < k ==> c.entries[j].page != page
    {
      if c.entries[k].page == page {
        return;
      }
      k := k + 1;
    }
  }

  /** SearchPageInCache: hands out the entry's own buffer. The use bits it sets
      are those of copies, so the entries do not change. */
  method SearchPageInCache(c: Cpu, page: seq<int>) returns (content: array?<byte>, found: bool)
    ensures found <==> Cached(c.entries, page)
    ensures found ==> First(c.entries, page) < |c.entries| && content == c.entries[First(c.entries, page)].content
  {
    var k := FindPage(c, page);
    if k == |c.entries| {
      return null, false;
    }
    return c.entries[k].content, true;
  }

  method IsInCache(c: Cpu, page: seq<int>) returns (found: bool)
    ensures found <==> Cached(c.entries, page)
  {
    var k := FindPage(c, page);
    found := k < |c.entries|;
  }

  // ---- Insertion

  /** The same entries up to use bits and the hand. */
  predicate SameEntries(a: seq<CacheEntry>, b: seq<CacheEntry>) {
    && |a| == |b|
    && forall k :: 0 <= k < |a| ==>
         b[k] == a[k].(use := b[k].use, position := b[k].position) && (b[k].use ==> a[k].use || a[k].pid != -1)
  }

  lemma SweptSame(was: seq<CacheEntry>, now: seq<CacheEntry>, h: nat, limit: nat, p: nat)
    requires SweptTo(was, now, h, limit, p)
    ensures SameEntries(was, now)
  {
    forall k | 0 <= k < |was|
      ensures now[k] == was[k].(use := now[k].use, position := now[k].position) && (now[k].use ==> was[k].use) {
      assert WithHand(now, p)[k] == Swept(was, h, limit, p)[k];
    }
  }

  lemma SameBuffers(a: seq<CacheEntry>, b: seq<CacheEntry>)
    requires |a| == |b| && forall k :: 0 <= k < |a| ==> b[k].content == a[k].content
    ensures Buffers(b) == Buffers(a)
  {
    assert forall k :: 0 <= k < |a| ==> a[k] in a && b[k] in b;
  }

  /** UseCache: sets the use bit of the page's entry. */
  method UseCache(c: Cpu, page: seq<int>)
    requires c.Linked() && page != []
    modifies c`entries
    ensures c.Linked() && SameEntries(old(c.entries), c.entries)
    ensures forall k :: 0 <= k < |c.entries| ==> c.entries[k].position == old(c.entries)[k].position
    ensures Buffers(c.entries) == old(Buffers(c.entries))
    ensures var k := First(old(c.entries), page);
            c.entries == if k == |old(c.entries)| then old(c.entries)
              else old(c.entries)[k := old(c.entries)[k].(use := true)]
  {
    var k := FindPage(c, page);
    if k < |c.entries| {
      ghost var was := c.entries;
      c.entries := c.entries[k := c.entries[k].(use := true)];
      SameBuffers(was, c.entries);
    }
  }

  /** Only bytes of memory changed, and nobody sees a difference. */
  ghost predicate Quiet(a: Snap, b: Snap) {
    && Inv(a.m) && Inv(b.m) && b.m == a.m.(bytes := b.m.bytes) && b.lines == a.lines
    && forall r: nat :: PidSound(a, r) ==> PidSound(b, r) && SeenIn(b, r) == SeenIn(a, r)
  }

  lemma QuietConfined(a: Snap, b: Snap, pid: nat)
    requires Quiet(a, b)
    ensures Confined(a, b, pid)
  {
    hide PidSound, SeenIn;
    forall k | 0 <= k < |b.lines| ensures HasLine(a.lines, b.lines[k].pid, b.lines[k].page) {
      assert a.lines[k] == b.lines[k];
    }
  }

  /** The write-back of line k, for its own process. */
  lemma SaveOwn(m: Mem, lines: seq<Line>, pid: nat, k: nat)
    requires Inv(m) && PidSound(Snap(m, lines), pid) && k < |lines| && lines[k].pid == pid
    ensures Mapped(m, pid, lines[k].page) && |lines[k].content| == m.cfg.pageSize
    ensures var (next, e) := WritePage(m, pid, FrameOf(m, pid, lines[k].page).value, lines[k].content);
            && Inv(next) && next == m.(bytes := next.bytes)
            && MemPages(next, pid) == MemPages(m, pid)[Value(lines[k].page, m.cfg.entries) := lines[k].content]
            && PidSound(Snap(next, lines), pid) && SeenIn(Snap(next, lines), pid) == SeenIn(Snap(m, lines), pid)
            && Settled(m.cfg, MemPages(next, pid), lines[k], pid)
            && (forall r: nat :: r != pid ==> SameImage(m, next, r))
  {
    SaveKeeps(m.cfg, MemPages(m, pid), lines, pid, k);
    MappedIff(m, pid, lines[k].page);
    WriteKeeps(m, pid, Value(lines[k].page, m.cfg.entries), lines[k].content);
  }

  /** A process whose image stays sees what it saw. */
  lemma SameSound(m: Mem, next: Mem, lines: seq<Line>, r: nat)
    requires Inv(m) && Inv(next) && next == m.(bytes := next.bytes) && SameImage(m, next, r)
        && PidSound(Snap(m, lines), r)
    ensures MemPages(next, r) == MemPages(m, r)
    ensures PidSound(Snap(next, lines), r) && SeenIn(Snap(next, lines), r) == SeenIn(Snap(m, lines), r)
  {
    SwappedIff(m.blocks, r);
  }

  /** Page i of process r is not the one the line holds. */
  predicate Elsewhere(cfg: Config, l: Line, r: nat, i: int) {
    l.pid == r ==> Value(l.page, cfg.entries) != i
  }

  /** What the write-back of line k does, in values. */
  lemma SaveFacts(m: Mem, lines: seq<Line>, k: nat)
    requires Inv(m) && k < |lines| && lines[k].pid >= 0 && PidSound(Snap(m, lines), lines[k].pid)
    ensures Mapped(m, lines[k].pid, lines[k].page) && |lines[k].content| == m.cfg.pageSize
    ensures var pid: nat := lines[k].pid;
            var (next, e) := WritePage(m, pid, FrameOf(m, pid, lines[k].page).value, lines[k].content);
            && Quiet(Snap(m, lines), Snap(next, lines))
            && Settled(m.cfg, MemPages(next, pid), lines[k], pid)
            && forall r: nat, i :: (PidSound(Snap(m, lines), r) && 0 <= i < |MemPages(m, r)|
                                    && Elsewhere(m.cfg, lines[k], r, i)) ==>
                 i < |MemPages(next, r)| && MemPages(next, r)[i] == MemPages(m, r)[i]
  {
    hide PidSound, SeenIn, FrameOf, WritePage, SameImage;
    var pid: nat := lines[k].pid;
    SaveOwn(m, lines, pid, k);
    var next := WritePage(m, pid, FrameOf(m, pid, lines[k].page).value, lines[k].content).0;
    forall r: nat | PidSound(Snap(m, lines), r)
      ensures PidSound(Snap(next, lines), r) && SeenIn(Snap(next, lines), r) == SeenIn(Snap(m, lines), r)
      ensures forall i :: 0 <= i < |MemPages(m, r)| && Elsewhere(m.cfg, lines[k], r, i) ==>
                i < |MemPages(next, r)| && MemPages(next, r)[i] == MemPages(m, r)[i] {
      if r != pid {
        SameSound(m, next, lines, r);
      }
    }
  }

  /** Writes entry k back, whoever's it is: its page is then in memory, and nobody
      sees a difference. */
  method SaveEntry(c: Cpu, k: nat, ghost r: nat)
    requires c.memory.Valid() && c.TlbRight() && c.Linked() && k < |c.entries| && PidSound(c.Now(), r)
    requires c.entries[k].pid != -1 ==> PidSound(c.Now(), c.entries[k].pid)
    modifies c.tlb, c.memory.userMemory
    ensures c.memory.Valid() && c.TlbRight() && c.Linked() && Quiet(old(c.Now()), c.Now())
    ensures c.lines[k].pid == c.entries[k].pid
    ensures c.entries[k].pid != -1 ==>
              Settled(c.memory.cfg, MemPages(c.memory.Model(), c.entries[k].pid), c.lines[k], c.entries[k].pid)
    ensures forall i :: 0 <= i < |old(MemPages(c.memory.Model(), r))| && Elsewhere(c.memory.cfg, c.lines[k], r, i) ==>
              i < |MemPages(c.memory.Model(), r)|
                && MemPages(c.memory.Model(), r)[i] == old(MemPages(c.memory.Model(), r))[i]
  {
    hide PidSound, SeenIn, FrameOf, Quiet;
    ghost var m := c.memory.Model();
    assert Matches(c.entries[k], c.lines[k]);
    QuietItself(c.Now());
    if c.entries[k].pid != -1 {
      SaveFacts(m, c.lines, k);
    }
    SavePageInMemory(c, c.entries[k].content, c.entries[k].page, c.entries[k].pid);
  }

  lemma QuietItself(a: Snap)
    requires Inv(a.m)
    ensures Quiet(a, a)
  {
  }

  /** The copy of the page that takes place v, with the hand moved on. */
  method Place(c: Cpu, v: nat, page: seq<int>, content: array<byte>)
    requires v < |c.entries|
    modifies c`entries
    ensures c.Now() == old(c.Now())
    ensures |c.entries| == |old(c.entries)| && fresh(c.entries[v].content)
    ensures c.entries[v].content != null && c.entries[v].content[..] == content[..]
    ensures c.entries == Placed(old(c.entries), v, Entry(page, c.entries[v].content, true, false, false, c.pid))
  {
    var bytes := new byte[content.Length](i requires 0 <= i < content.Length reads content => content[i]);
    assert bytes[..] == content[..];
    c.entries := c.entries[v := Entry(page, bytes, true, false, false, c.pid)];
    StepOn(v, 0, |c.entries|);
    var next := (v + 1) % |c.entries|;
    c.entries := c.entries[next := c.entries[next].(position := true)];
  }

  /** Which entry an insertion takes, by the CPU's policy. */
  ghost predicate Victim(alg: CpuState.Replacement, entries: seq<CacheEntry>, v: nat) {
    if alg == CLOCK then ClockVictim(entries, v) else ClockMVictim(entries, v)
  }

  function Limit(alg: CpuState.Replacement, entries: seq<CacheEntry>, v: nat): nat
    requires v < |entries|
  {
    if alg == CLOCK then ClockLimit(entries, v) else ClockMLimit(entries, v)
  }

  /** The sweep that the policy asks for. */
  method SweepBy(c: Cpu) returns (v: nat)
    requires c.entries != [] && OneHand(c.entries)
    modifies c`entries
    ensures v < |old(c.entries)| && Victim(c.replacement, old(c.entries), v)
    ensures SweptTo(old(c.entries), c.entries, Hand(old(c.entries)), Limit(c.replacement, old(c.entries), v), v)
  {
    hide OneHand, ClockLimit, ClockMLimit, SweptTo;
    if c.replacement == CLOCK {
      v := ClockSweep(c);
    } else {
      var found: bool;
      v, found := ClockMSweep(c);
    }
  }

  /** Entries stay linked when only use bits and the hand change. */
  lemma LinkSame(c: Cpu, was: seq<CacheEntry>)
    requires SameEntries(was, c.entries) && Separate(was) && EmptyOk(was) && |c.lines| == |was|
    requires forall k :: 0 <= k < |was| ==> Matches(was[k], c.lines[k]) && was[k].content != c.memory.userMemory
    ensures c.Linked() && Buffers(c.entries) == Buffers(was)
  {
    SameBuffers(was, c.entries);
  }

  /** The sweep of either policy, up to the entry to take. */
  method Sweep(c: Cpu) returns (v: nat)
    requires c.Linked() && c.entries != [] && OneHand(c.entries)
    modifies c`entries
    ensures c.Now() == old(c.Now())
    ensures c.Linked() && SameEntries(old(c.entries), c.entries) && Buffers(c.entries) == old(Buffers(c.entries))
    ensures Victim(c.replacement, old(c.entries), v)
    ensures SweptTo(old(c.entries), c.entries, Hand(old(c.entries)), Limit(c.replacement, old(c.entries), v), v)
  {
    hide OneHand, SweptTo, Limit, ClockVictim, ClockMVictim, Separate, EmptyOk, Matches, SameEntries, Buffers;
    ghost var was := c.entries;
    v := SweepBy(c);
    SweptSame(was, c.entries, Hand(was), Limit(c.replacement, was, v), v);
    LinkSame(c, was);
  }

  /** The line of a freshly fetched page. */
  function Fetched(page: seq<int>, content: seq<byte>, pid: nat): Line { Line(page, content, false, pid) }

  /** Putting a fetched page in the place of a settled line, for its process. */
  lemma FetchOwn(m: Mem, lines: seq<Line>, pid: nat, v: nat, page: seq<int>, content: seq<byte>)
    requires PidSound(Snap(m, lines), pid) && v < |lines|
    requires Settled(m.cfg, MemPages(m, pid), lines[v], pid) && Mapped(m, pid, page)
    requires 0 <= Value(page, m.cfg.entries) < |MemPages(m, pid)|
        && content == MemPages(m, pid)[Value(page, m.cfg.entries)]
    requires forall k :: 0 <= k < |lines| ==> lines[k].page != page
    ensures var b := Snap(m, lines[v := Fetched(page, content, pid)]);
            PidSound(b, pid) && SeenIn(b, pid) == SeenIn(Snap(m, lines), pid)
  {
    MappedIff(m, pid, page);
    InsertKeeps(m.cfg, MemPages(m, pid), lines, pid, v, Fetched(page, content, pid));
  }

  /** A settled line gives way to one of another process. */
  lemma GiveWay(m: Mem, lines: seq<Line>, r: nat, v: nat, l: Line)
    requires PidSound(Snap(m, lines), r) && v < |lines| && l.pid != r
    requires Settled(m.cfg, MemPages(m, r), lines[v], r)
    ensures var b := Snap(m, lines[v := l]); PidSound(b, r) && SeenIn(b, r) == SeenIn(Snap(m, lines), r)
  {
    DropKeeps(m.cfg, MemPages(m, r), lines, r, v, l);
  }

  /** Replacing line v by one of process pid, when v's bytes are in memory. */
  lemma ReplaceConfined(m: Mem, lines: seq<Line>, pid: nat, v: nat, l: Line)
    requires Inv(m) && v < |lines| && l.pid == pid && (lines[v].pid >= 0 ==> PidSound(Snap(m, lines), lines[v].pid))
    requires lines[v].pid >= 0 ==> Settled(m.cfg, MemPages(m, lines[v].pid), lines[v], lines[v].pid)
    ensures Confined(Snap(m, lines), Snap(m, lines[v := l]), pid)
  {
    hide PidSound, SeenIn;
    var a, b := Snap(m, lines), Snap(m, lines[v := l]);
    forall r: nat | r != pid && PidSound(a, r) ensures PidSound(b, r) && SeenIn(b, r) == SeenIn(a, r) {
      GiveWay(m, lines, r, v, l);
    }
    forall k | 0 <= k < |b.lines| && b.lines[k].pid >= 0 && b.lines[k].pid != pid
      ensures HasLine(a.lines, b.lines[k].pid, b.lines[k].page) {
      assert a.lines[k] == b.lines[k];
    }
  }

  /** Writes the victim back and counts the fetched page in its place. */
  method Settle(c: Cpu, v: nat, ghost page: seq<int>, ghost bytes: seq<byte>)
    requires c.memory.Valid() && c.TlbRight() && Sound(c.Now(), c.pid) && c.Linked() && v < |c.entries|
    requires Mapped(c.memory.Model(), c.pid, page) && !Cached(c.entries, page)
    requires 0 <= Value(page, c.memory.cfg.entries) < |MemPages(c.memory.Model(), c.pid)|
    requires bytes == MemPages(c.memory.Model(), c.pid)[Value(page, c.memory.cfg.entries)]
    modifies c`lines, c.tlb, c.memory.userMemory
    ensures c.memory.Valid() && c.TlbRight() && PidSound(c.Now(), c.pid) && c.Seen(c.pid) == old(c.Seen(c.pid))
    ensures Confined(old(c.Now()), c.Now(), c.pid)
    ensures |old(c.lines)| == |c.entries| && c.lines == old(c.lines)[v := Fetched(page, bytes, c.pid)]
    ensures forall k :: 0 <= k < |c.entries| ==> Matches(c.entries[k], old(c.lines)[k])
  {
    hide PidSound, SeenIn, Confined, FrameOf, Separate;
    ghost var lines, was := c.lines, c.Now();
    VictimSound(c, v);
    assert forall k :: 0 <= k < |lines| ==> Matches(c.entries[k], lines[k]) && lines[k].page != page;
    ElsewhereFor(c.Now(), c.pid, v, page);
    SaveEntry(c, v, c.pid);
    ghost var mid := c.Now();
    SettleFacts(was, mid, c.pid, v, page, bytes);
    c.lines := lines[v := Fetched(page, bytes, c.pid)];
  }

  lemma VictimSound(c: Cpu, v: nat)
    requires Sound(c.Now(), c.pid) && c.Linked() && v < |c.entries|
    ensures c.entries[v].pid != -1 ==> PidSound(c.Now(), c.entries[v].pid)
    ensures PidSound(c.Now(), c.pid)
  {
    hide PidSound;
    assert Matches(c.entries[v], c.lines[v]);
  }

  /** After the write-back, the fetched page in the victim's place. */
  lemma SettleFacts(was: Snap, mid: Snap, pid: nat, v: nat, page: seq<int>, bytes: seq<byte>)
    requires Quiet(was, mid) && PidSound(was, pid) && v < |was.lines| && Mapped(was.m, pid, page)
    requires was.lines[v].pid >= 0 ==> PidSound(was, was.lines[v].pid)
    requires mid.lines[v].pid >= 0 ==>
        Settled(mid.m.cfg, MemPages(mid.m, mid.lines[v].pid), mid.lines[v], mid.lines[v].pid)
    requires var i := Value(page, was.m.cfg.entries);
             0 <= i < |MemPages(mid.m, pid)| && bytes == MemPages(mid.m, pid)[i]
    requires forall k :: 0 <= k < |was.lines| ==> was.lines[k].page != page
    ensures var b := Snap(mid.m, mid.lines[v := Fetched(page, bytes, pid)]);
            PidSound(b, pid) && SeenIn(b, pid) == SeenIn(was, pid) && Confined(was, b, pid)
  {
    hide PidSound, SeenIn, Confined, FrameOf;
    MappedSame(was.m, mid.m, pid, page);
    FetchOwn(mid.m, mid.lines, pid, v, page, bytes);
    ReplaceConfined(mid.m, mid.lines, pid, v, Fetched(page, bytes, pid));
    QuietConfined(was, mid, pid);
    ConfinedTransitive(was, mid, Snap(mid.m, mid.lines[v := Fetched(page, bytes, pid)]), pid);
  }

  /** The victim's page is not the one fetched. */
  lemma ElsewhereFor(s: Snap, pid: nat, v: nat, page: seq<int>)
    requires PidSound(s, pid) && Mapped(s.m, pid, page) && v < |s.lines| && s.lines[v].page != page
    ensures Elsewhere(s.m.cfg, s.lines[v], pid, Value(page, s.m.cfg.entries))
  {
    MappedIff(s.m, pid, page);
    if s.lines[v].pid == pid {
      assert LineOk(s.m.cfg, MemPages(s.m, pid), s.lines[v]);
      ValueInjective(s.lines[v].page, page, s.m.cfg.entries);
    }
  }

  /** Linked entries stay linked when one gets a buffer nobody else has. */
  lemma LinkPlaced(c: Cpu, was: seq<CacheEntry>, lines: seq<Line>, v: nat, page: seq<int>)
    requires v < |was| == |c.entries| == |lines| && page != []
    requires c.entries == Placed(was, v, Entry(page, c.entries[v].content, true, false, false, c.pid))
    requires forall k :: 0 <= k < |was| && k != v ==> Matches(was[k], lines[k])
    requires Separate(was) && EmptyOk(was) && forall k :: 0 <= k < |was| ==> was[k].content != c.memory.userMemory
    requires c.entries[v].content != null && c.entries[v].content !in Buffers(was)
        && c.entries[v].content != c.memory.userMemory
    requires c.lines == lines[v := Fetched(page, c.entries[v].content[..], c.pid)]
    ensures c.Linked()
  {
    forall k | 0 <= k < |was| && k != v
      ensures c.entries[k] == was[k].(position := c.entries[k].position) && was[k] in was {
    }
    assert c.entries[v].page == page && c.entries[v].pid == c.pid && !c.entries[v].modified;
  }

  /** Place, for linked entries whose lines already count the new page. */
  method PlaceLinked(c: Cpu, v: nat, page: seq<int>, content: array<byte>, ghost lines: seq<Line>)
    requires v < |c.entries| == |lines| && page != [] && Separate(c.entries) && EmptyOk(c.entries)
    requires forall k :: 0 <= k < |c.entries| ==>
        Matches(c.entries[k], lines[k]) && c.entries[k].content != c.memory.userMemory
    requires c.lines == lines[v := Fetched(page, content[..], c.pid)]
    modifies c`entries
    ensures c.Now() == old(c.Now())
    ensures c.Linked()
    ensures v < |c.entries| == |old(c.entries)| && fresh(c.entries[v].content)
    ensures c.entries == Placed(old(c.entries), v, Entry(page, c.entries[v].content, true, false, false, c.pid))
  {
    ghost var was := c.entries;
    Place(c, v, page, content);
    LinkPlaced(c, was, lines, v, page);
  }

  /** The entries after an insertion: the sweep's marks, the new entry, one hand. */
  ghost predicate Inserted(c: Cpu, was: seq<CacheEntry>, v: nat, page: seq<int>)
    reads c
  {
    && Victim(c.replacement, was, v) && v < |was| == |c.entries|
    && c.entries == Placed(Swept(was, Hand(was), Limit(c.replacement, was, v), v), v,
                           Entry(page, c.entries[v].content, true, false, false, c.pid))
  }

  lemma InsertedHand(c: Cpu, was: seq<CacheEntry>, v: nat, page: seq<int>)
    requires Inserted(c, was, v, page)
    ensures OneHand(c.entries) && c.entries != []
    ensures exists i :: 0 <= i < |c.entries| && c.entries[i].position
    ensures c.entries[v].page == page && c.entries[v].pid == c.pid
    ensures forall k :: 0 <= k < |c.entries| && k != v ==> c.entries[k].content == was[k].content
    ensures forall k :: 0 <= k < |c.entries| && k != v ==> c.entries[k].page == was[k].page
  {
    PlacedHand(was, Hand(was), Limit(c.replacement, was, v), v,
      Entry(page, c.entries[v].content, true, false, false, c.pid));
    assert c.entries[Around(v, 1, |was|)].position;
  }

  /** AddEntryCache, AddEntryCacheClock and AddEntryCacheClockM: the policy's
      victim goes, written back first, and the page is cached in its place. */
  method AddEntryCache(c: Cpu, page: seq<int>, content: array<byte>) returns (v: nat)
    requires c.Ready() && c.entries != [] && content != c.memory.userMemory
    requires Mapped(c.memory.Model(), c.pid, page) && !Cached(c.entries, page) && page != []
    requires 0 <= Value(page, c.memory.cfg.entries) < |MemPages(c.memory.Model(), c.pid)|
    requires content[..] == MemPages(c.memory.Model(), c.pid)[Value(page, c.memory.cfg.entries)]
    modifies c`entries, c`lines, c.tlb, c.memory.userMemory
    ensures c.memory.Valid() && c.TlbRight() && PidSound(c.Now(), c.pid) && c.Seen(c.pid) == old(c.Seen(c.pid))
    ensures Confined(old(c.Now()), c.Now(), c.pid) && c.Linked()
    ensures Inserted(c, old(c.entries), v, page) && fresh(c.entries[v].content)
  {
    hide Sound, PidSound, SeenIn, NoClash, Confined, FrameOf, Separate, EmptyOk;
    ghost var was, lines := c.entries, c.lines;
    v := Sweep(c);
    ghost var swept := c.entries;
    Settle(c, v, page, content[..]);
    PlaceLinked(c, v, page, content, lines);
    PlacedSwept(was, swept, Hand(was), Limit(c.replacement, was, v), v,
      Entry(page, c.entries[v].content, true, false, false, c.pid));
  }
}
