/** cpu/memory/mmu.go: WriteMemory, with the cache and without it. */
module CpuMemory {
  import opened Wrappers
  import opened Addressing
  import opened Pages
  import opened Memory
  import opened Requests
  import opened Keeps
  import opened KeepsSwap
  import opened Storage
  import opened Clock
  import opened Coherence
  import opened CpuState
  import opened Mmu
  import opened Insertion
  import opened CacheAccess
  import opened CacheWrites

  // ---- Without the cache

  /** Without lines a process sees its memory. */
  lemma Bare(m: Mem, pid: nat)
    requires Shape(m)
    ensures SeenIn(Snap(m, []), pid) == MemPages(m, pid)
  {
  }

  /** What saving a whole page of the running process does, in values. */
  lemma PutFacts(m: Mem, pid: nat, page: seq<int>, bytes: Page)
    requires Inv(m) && PidSound(Snap(m, []), pid) && Mapped(m, pid, page) && |bytes| == m.cfg.pageSize
    ensures 0 <= Value(page, m.cfg.entries) < |MemPages(m, pid)|
    ensures var (next, e) := WritePage(m, pid, FrameOf(m, pid, page).value, bytes);
            Confined(Snap(m, []), Snap(next, []), pid) && PidSound(Snap(next, []), pid) && Mapped(next, pid, page)
            && MemPages(next, pid) == MemPages(m, pid)[Value(page, m.cfg.entries) := bytes]
  {
    hide SeenIn, FrameOf, PidOk;
    MappedIff(m, pid, page);
    WriteKeeps(m, pid, Value(page, m.cfg.entries), bytes);
    var next := WritePage(m, pid, FrameOf(m, pid, page).value, bytes).0;
    MappedSame(m, next, pid, page);
    PutSound(m, next, pid, Value(page, m.cfg.entries), bytes);
    forall q: nat | q != pid && PidSound(Snap(m, []), q)
      ensures PidSound(Snap(next, []), q) && SeenIn(Snap(next, []), q) == SeenIn(Snap(m, []), q) {
      SameSound(m, next, [], q);
    }
  }

  lemma PutSound(m: Mem, next: Mem, pid: nat, i: nat, bytes: Page)
    requires PidSound(Snap(m, []), pid) && Inv(next) && next == m.(bytes := next.bytes)
    requires i < |MemPages(m, pid)| && |bytes| == m.cfg.pageSize && MemPages(next, pid) == MemPages(m, pid)[i := bytes]
    ensures PidSound(Snap(next, []), pid)
  {
  }

  /** SavePageInMemory for a page of the running process, without a cache. */
  method SaveMapped(c: Cpu, content: array<byte>, page: seq<int>)
    requires c.Ready() && c.entries == [] && content != c.memory.userMemory
    requires Mapped(c.memory.Model(), c.pid, page) && content.Length == c.memory.cfg.pageSize
    modifies c.tlb, c.memory.userMemory
    ensures c.Ready() && Confined(old(c.Now()), c.Now(), c.pid)
    ensures 0 <= Value(page, c.memory.cfg.entries) < |old(c.Seen(c.pid))| && Mapped(c.memory.Model(), c.pid, page)
    ensures c.Seen(c.pid) == old(c.Seen(c.pid))[Value(page, c.memory.cfg.entries) := content[..]]
  {
    hide SeenIn, PidSound, Sound, NoClash, Inv, Confined, FrameOf;
    ghost var m := c.memory.Model();
    assert c.lines == [];
    RunningSound(c);
    PutFacts(m, c.pid, page, content[..]);
    Bare(m, c.pid);
    SavePageInMemory(c, content, page, c.pid);
    Bare(c.memory.Model(), c.pid);
    SoundOn(Snap(m, []), c.Now(), c.pid);
  }

  /** A page is fetched, changed at one place and saved. */
  method PutPage(c: Cpu, page: seq<int>, frame: Physical, at: nat, chunk: seq<byte>)
    requires c.Ready() && c.entries == [] && Mapped(c.memory.Model(), c.pid, page)
    requires FrameOf(c.memory.Model(), c.pid, page) == Ok(frame.frame) && at + |chunk| <= c.memory.cfg.pageSize
    modifies c.tlb, c.memory.userMemory
    ensures c.Ready() && Confined(old(c.Now()), c.Now(), c.pid) && Mapped(c.memory.Model(), c.pid, page)
    ensures var i := Value(page, c.memory.cfg.entries);
            0 <= i < |old(c.Seen(c.pid))| && |old(c.Seen(c.pid))[i]| == c.memory.cfg.pageSize
            && c.Seen(c.pid) == old(c.Seen(c.pid))[i := Splice(old(c.Seen(c.pid))[i], at, chunk)]
  {
    hide SeenIn, PidSound, Sound, NoClash, Inv, Confined, FrameOf, Matches;
    SeenUniform(c);
    assert c.lines == [];
    Bare(c.memory.Model(), c.pid);
    var content := GetMapped(c, page, frame);
    CopyFetched(c, content, at, chunk);
    SaveMapped(c, content, page);
  }

  /** copy into a page just fetched. */
  method CopyFetched(c: Cpu, content: array<byte>, at: nat, chunk: seq<byte>)
    requires content != c.memory.userMemory && content !in Buffers(c.entries) && at + |chunk| <= content.Length
    modifies content
    ensures content[..] == Splice(old(content[..]), at, chunk)
    ensures old(c.Ready()) ==> c.Ready()
    ensures c.Now() == old(c.Now())
  {
    CopyInto(content, at, chunk);
  }

  /** An uncached write under way, from page i on. */
  ghost predicate Writing(c: Cpu, page: seq<int>, i: nat, rest: seq<byte>, image: Image, fits: bool)
    reads c, c.memory, c.memory.userMemory, c.memory.reservationBits
    requires c.memory.Wired() && c.memory.cfg.Ok()
  {
    && PageIs(c, page, i) && rest != []
    && Uniform(c.Seen(c.pid), c.memory.cfg.pageSize)
    && WriteFrom(c.Seen(c.pid), c.memory.cfg.pageSize, Top(c.memory.cfg), i, 0, rest) == image
    && (FitsFrom(|c.Seen(c.pid)|, c.memory.cfg.pageSize, Top(c.memory.cfg), i, |rest|) <==> fits)
  }

  /** One turn of the uncached loop of WriteMemory. */
  method PutOn(c: Cpu, page: seq<int>, frame: Physical, rest: seq<byte>, ghost i: nat, ghost image: Image,
      ghost fits: bool, ghost was: Snap)
    returns (next: Option<(seq<int>, Physical)>)
    requires c.Ready() && c.entries == [] && c.memory.cfg.Ok() && Writing(c, page, i, rest, image, fits)
    requires FrameOf(c.memory.Model(), c.pid, page) == Ok(frame.frame) && Confined(was, c.Now(), c.pid)
    modifies c.tlb, c.memory.userMemory
    ensures c.Ready() && Confined(was, c.Now(), c.pid)
    ensures next.None? ==> c.Seen(c.pid) == image && (fits <==> |rest| <= c.memory.cfg.pageSize)
    ensures next.Some? ==> |rest| > c.memory.cfg.pageSize
    ensures next.Some? ==> Writing(c, next.value.0, NextNumber(i, Top(c.memory.cfg)), rest[c.memory.cfg.pageSize..],
        image, fits)
    ensures next.Some? ==> FrameOf(c.memory.Model(), c.pid, next.value.0) == Ok(next.value.1.frame)
  {
    hide SeenIn, PidSound, Sound, NoClash, Inv, Confined, FrameOf, Matches, WriteFrom;
    WriteTurn(c.memory.cfg, c.Seen(c.pid), i, rest);
    ghost var mid := c.Now();
    var n := Min(c.memory.cfg.pageSize, |rest|);
    Report(c, page);
    PutPage(c, page, frame, 0, rest[..n]);
    ConfinedTransitive(was, mid, c.Now(), c.pid);
    if n == |rest| {
      return None;
    }
    PastEnd(c.memory.cfg, c.Seen(c.pid), NextNumber(i, Top(c.memory.cfg)), rest[n..]);
    next := StepPage(c, page, i);
    SeenUniform(c);
  }

  /** The uncached loop of WriteMemory: page after page. */
  method PutRest(c: Cpu, page: seq<int>, frame: Physical, value: seq<byte>, ghost i: nat, ghost image: Image,
                 ghost fits: bool, ghost was: Snap)
    returns (ok: bool)
    requires c.Ready() && c.entries == [] && c.memory.cfg.Ok() && Writing(c, page, i, value, image, fits)
    requires FrameOf(c.memory.Model(), c.pid, page) == Ok(frame.frame) && Confined(was, c.Now(), c.pid)
    modifies c.tlb, c.memory.userMemory
    ensures c.Ready() && Confined(was, c.Now(), c.pid)
    ensures c.Seen(c.pid) == image && ok == fits
  {
    hide SeenIn, PidSound, Sound, NoClash, Inv, Confined, FrameOf, Matches, Writing;
    ghost var j: nat := i;
    var current, base, rest := page, frame, value;
    while true
      invariant c.Ready() && Confined(was, c.Now(), c.pid) && Writing(c, current, j, rest, image, fits)
      invariant FrameOf(c.memory.Model(), c.pid, current) == Ok(base.frame)
      decreases |rest|
    {
      var next := PutOn(c, current, base, rest, j, image, fits, was);
      if next.None? {
        return |rest| <= c.memory.cfg.pageSize;
      }
      rest := rest[c.memory.cfg.pageSize..];
      current, base := next.value.0, next.value.1;
      j := NextNumber(j, Top(c.memory.cfg));
    }
  }

  /** WriteMemory without the cache. */
  method WriteBare(c: Cpu, address: seq<int>, value: seq<byte>) returns (ok: bool)
    requires c.Ready() && c.entries == [] && |address| >= 2 && 0 <= address[|address| - 1] < c.memory.cfg.pageSize
    modifies c.tlb, c.memory.userMemory
    ensures c.Ready() && Confined(old(c.Now()), c.Now(), c.pid)
    ensures !Mapped(old(c.memory.Model()), c.pid, address[..|address| - 1]) ==>
        !ok && c.Seen(c.pid) == old(c.Seen(c.pid))
    ensures Mapped(old(c.memory.Model()), c.pid, address[..|address| - 1]) ==> (
              var page, at, seen, cfg := address[..|address| - 1], address[|address| - 1], old(c.Seen(c.pid)),
                c.memory.cfg;
              var i := Value(page, cfg.entries);
              0 <= i < |seen| && Uniform(seen, cfg.pageSize)
              && c.Seen(c.pid) == CacheWrite(cfg, seen, i, at, value, true)
              && (ok <==> FitsFrom(|seen|, cfg.pageSize, Top(cfg), i, at + |value|)))
  {
    hide SeenIn, PidSound, Sound, NoClash, Separate, EmptyOk, Matches, Inv, Confined, WriteFrom, CacheWrite;
    var delta := address[|address| - 1];
    var base := address[..|address| - 1];
    ghost var was, seen, cfg, i := c.Now(), c.Seen(c.pid), c.memory.cfg, Value(base, c.memory.cfg.entries);
    SeenUniform(c);
    Unmoved(c);
    var frame := TranslateRunning(c, address);
    if frame.None? {
      return false;
    }
    MappedIff(was.m, c.pid, base);
    var n := Min(c.memory.cfg.pageSize - delta, |value|);
    PutPage(c, base, frame.value, delta, value[..n]);
    HeadTurn(cfg, seen, i, delta, value, true);
    if n == |value| {
      return true;
    }
    ok := PutTail(c, base, value[n..], i, CacheWrite(cfg, seen, i, delta, value, true),
                  FitsFrom(|seen|, cfg.pageSize, Top(cfg), i, delta + |value|), was);
  }

  /** The uncached write past its first page. */
  method PutTail(c: Cpu, page: seq<int>, rest: seq<byte>, ghost i: nat, ghost image: Image, ghost fits: bool,
      ghost was: Snap)
    returns (ok: bool)
    requires c.Ready() && c.entries == [] && PageIs(c, page, i) && rest != [] && c.memory.cfg.Ok()
    requires Confined(was, c.Now(), c.pid) && Uniform(c.Seen(c.pid), c.memory.cfg.pageSize)
    requires var j := NextNumber(i, Top(c.memory.cfg));
             image == WriteFrom(c.Seen(c.pid), c.memory.cfg.pageSize, Top(c.memory.cfg), j, 0, rest)
             && (fits <==> FitsFrom(|c.Seen(c.pid)|, c.memory.cfg.pageSize, Top(c.memory.cfg), j, |rest|))
    modifies c.tlb, c.memory.userMemory
    ensures c.Ready() && Confined(was, c.Now(), c.pid)
    ensures c.Seen(c.pid) == image && ok == fits
  {
    hide SeenIn, PidSound, Sound, NoClash, Separate, EmptyOk, Matches, Inv, Confined, WriteFrom, FrameOf;
    PastEnd(c.memory.cfg, c.Seen(c.pid), NextNumber(i, Top(c.memory.cfg)), rest);
    var next := StepPage(c, page, i);
    if next.None? {
      return false;
    }
    ok := PutRest(c, next.value.0, next.value.1, rest, NextNumber(i, Top(c.memory.cfg)), image, fits, was);
  }

  // ---- With the cache

  /** WriteMemory with the cache. Whether the write fits is not reported. */
  method WriteCached(c: Cpu, address: seq<int>, value: seq<byte>) returns (ok: bool)
    requires c.Ready() && c.cacheEnable && |address| >= 2 && 0 <= address[|address| - 1] < c.memory.cfg.pageSize
    requires Cached(c.entries, address[..|address| - 1]) ==> Mapped(c.memory.Model(), c.pid, address[..|address| - 1])
    modifies c`entries, c`lines, c.tlb, c.memory.userMemory, Buffers(c.entries)
    ensures c.Ready() && Confined(old(c.Now()), c.Now(), c.pid)
    ensures fresh(Buffers(c.entries) - old(Buffers(c.entries)))
    ensures ok <==> Mapped(old(c.memory.Model()), c.pid, address[..|address| - 1])
    ensures !ok ==> c.Seen(c.pid) == old(c.Seen(c.pid))
    ensures ok ==> (
              var page, at, seen := address[..|address| - 1], address[|address| - 1], old(c.Seen(c.pid));
              var i := Value(page, c.memory.cfg.entries);
              0 <= i < |seen| && Uniform(seen, c.memory.cfg.pageSize)
              && c.Seen(c.pid) == CacheWrite(c.memory.cfg, seen, i, at, value, true)
              && (at + |value| <= c.memory.cfg.pageSize ==> Cached(c.entries, page)))
  {
    hide SeenIn, PidSound, Sound, NoClash, Separate, EmptyOk, Matches, Inv, Confined, CacheWrite, FrameOf;
    var base := address[..|address| - 1];
    ghost var was := c.Now();
    Unmoved(c);
    ok := LoadFirst(c, address);
    if !ok {
      return;
    }
    ghost var mid := c.Now();
    ConfinedMapped(was, mid, c.pid, base);
    var written := WriteCache(c, address, value);
    ConfinedTransitive(was, mid, c.Now(), c.pid);
  }

  /** The page of the address cached, when it is mapped. */
  method LoadFirst(c: Cpu, address: seq<int>) returns (ok: bool)
    requires c.Ready() && c.cacheEnable && |address| >= 2
    requires Cached(c.entries, address[..|address| - 1]) ==> Mapped(c.memory.Model(), c.pid, address[..|address| - 1])
    modifies c`entries, c`lines, c.tlb, c.memory.userMemory
    ensures c.Ready() && c.Seen(c.pid) == old(c.Seen(c.pid)) && Confined(old(c.Now()), c.Now(), c.pid)
    ensures fresh(Buffers(c.entries) - old(Buffers(c.entries)))
    ensures ok <==> Mapped(old(c.memory.Model()), c.pid, address[..|address| - 1])
    ensures ok ==> Cached(c.entries, address[..|address| - 1])
  {
    hide SeenIn, PidSound, Sound, NoClash, Separate, EmptyOk, Matches, Inv, Confined, FrameOf;
    Unmoved(c);
    var base := address[..|address| - 1];
    var cached := IsInCache(c, base);
    if cached {
      return true;
    }
    var content := FetchPage(c, address);
    ok := content != null;
  }

  /** WriteMemory: one paged write to what the running process sees, going around
      the page numbers. With the cache it succeeds whether the value fits or not. */
  method WriteMemory(c: Cpu, address: seq<int>, value: seq<byte>) returns (ok: bool)
    requires c.Ready() && |address| >= 2 && 0 <= address[|address| - 1] < c.memory.cfg.pageSize
    requires Cached(c.entries, address[..|address| - 1]) ==> Mapped(c.memory.Model(), c.pid, address[..|address| - 1])
    modifies c`entries, c`lines, c.tlb, c.memory.userMemory, Buffers(c.entries)
    ensures c.Ready() && Confined(old(c.Now()), c.Now(), c.pid)
    ensures fresh(Buffers(c.entries) - old(Buffers(c.entries)))
    ensures !Mapped(old(c.memory.Model()), c.pid, address[..|address| - 1]) ==>
        !ok && c.Seen(c.pid) == old(c.Seen(c.pid))
    ensures Mapped(old(c.memory.Model()), c.pid, address[..|address| - 1]) ==> (
              var page, at, seen, cfg := address[..|address| - 1], address[|address| - 1], old(c.Seen(c.pid)),
                c.memory.cfg;
              var i := Value(page, cfg.entries);
              0 <= i < |seen| && Uniform(seen, cfg.pageSize)
              && c.Seen(c.pid) == WriteFrom(seen, cfg.pageSize, Top(cfg), i, at, value)
              && (ok <==> c.cacheEnable || FitsFrom(|seen|, cfg.pageSize, Top(cfg), i, at + |value|))
              && (c.cacheEnable && at + |value| <= cfg.pageSize ==> Cached(c.entries, page)))
  {
    hide SeenIn, PidSound, Sound, NoClash, Separate, EmptyOk, Matches, Inv, Confined, WriteFrom, Mapped;
    if c.cacheEnable {
      ok := WriteCached(c, address, value);
    } else {
      ok := WriteBare(c, address, value);
    }
  }
}
