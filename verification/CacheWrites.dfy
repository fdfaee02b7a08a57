/** cpu/memory/cache.go: WriteCache, page number after page number. */
module CacheWrites {
  import opened Wrappers
  import opened Addressing
  import opened Pages
  import opened Memory
  import opened Storage
  import opened Coherence
  import opened CpuState
  import opened Mmu
  import opened Insertion
  import opened CacheAccess

  /** One turn of a write: the chunk goes to a cached page, and is reported. */
  method WriteChunk(c: Cpu, page: seq<int>, at: nat, chunk: seq<byte>, ghost i: nat)
    requires c.Ready() && Cached(c.entries, page) && PageIs(c, page, i) && at + |chunk| <= c.memory.cfg.pageSize
    modifies c`entries, c`lines, c.tlb, Buffers(c.entries)
    ensures c.Ready() && Buffers(c.entries) == old(Buffers(c.entries)) && Confined(old(c.Now()), c.Now(), c.pid)
    ensures |old(c.Seen(c.pid))[i]| == c.memory.cfg.pageSize
    ensures c.Seen(c.pid) == old(c.Seen(c.pid))[i := Splice(old(c.Seen(c.pid))[i], at, chunk)] && PageIs(c, page, i)
  {
    hide PidSound, SeenIn, Sound, NoClash, Confined, Inv, FrameOf;
    var content, found := SearchPageInCache(c, page);
    CachedLine(c, page, First(c.entries, page));
    assert c.entries[First(c.entries, page)] in c.entries;
    WriteHit(c, page, content, at, chunk);
    Report(c, page);
  }

  /** The write of a value from the start of page i on, one page less. */
  lemma WriteTurn(cfg: Config, seen: Image, i: nat, value: seq<byte>)
    requires cfg.Ok() && Uniform(seen, cfg.pageSize) && i < |seen| && value != []
    ensures var n := Min(cfg.pageSize, |value|);
            var next := seen[i := Splice(seen[i], 0, value[..n])];
            Uniform(next, cfg.pageSize)
            && WritePast(cfg, seen, i, 0, value, next)
            && (FitsFrom(|seen|, cfg.pageSize, Top(cfg), i, |value|) <==>
                n == |value| || FitsFrom(|seen|, cfg.pageSize, Top(cfg), NextNumber(i, Top(cfg)), |value| - n))
  {
    if |value| <= cfg.pageSize {
      assert value[..|value|] == value;
    }
    PastEnd(cfg, seen[i := Splice(seen[i], 0, value[..Min(cfg.pageSize, |value|)])], NextNumber(i, Top(cfg)),
      value[Min(cfg.pageSize, |value|)..]);
  }

  /** The write goes on from `next`, which has page i done, unless nothing is left
      or there is no next page. */
  predicate WritePast(cfg: Config, seen: Image, i: nat, at: nat, value: seq<byte>, next: Image)
    requires Uniform(seen, cfg.pageSize) && Uniform(next, cfg.pageSize) && at < cfg.pageSize
  {
    var n, j := Min(cfg.pageSize - at, |value|), NextNumber(i, Top(cfg));
    WriteFrom(seen, cfg.pageSize, Top(cfg), i, at, value)
    == if n == |value| || j >= |next| then next else WriteFrom(next, cfg.pageSize, Top(cfg), j, 0, value[n..])
  }

  lemma PastEnd(cfg: Config, seen: Image, j: nat, value: seq<byte>)
    requires Uniform(seen, cfg.pageSize) && cfg.Ok()
    ensures j >= |seen| ==> WriteFrom(seen, cfg.pageSize, Top(cfg), j, 0, value) == seen
    ensures j >= |seen| ==> !FitsFrom(|seen|, cfg.pageSize, Top(cfg), j, |value|)
  {
  }

  /** A write under way: `rest` still has to go from cached page i on, and then
      the process sees `image`; `fits` says whether there are pages for all of it. */
  ghost predicate Pending(c: Cpu, page: seq<int>, i: nat, rest: seq<byte>, image: Image, fits: bool)
    reads c, c.memory, c.memory.userMemory, c.memory.reservationBits
    requires c.memory.Wired() && c.memory.cfg.Ok()
  {
    && PageIs(c, page, i) && Cached(c.entries, page) && rest != []
    && Uniform(c.Seen(c.pid), c.memory.cfg.pageSize)
    && WriteFrom(c.Seen(c.pid), c.memory.cfg.pageSize, Top(c.memory.cfg), i, 0, rest) == image
    && (FitsFrom(|c.Seen(c.pid)|, c.memory.cfg.pageSize, Top(c.memory.cfg), i, |rest|) <==> fits)
  }

  /** One turn of the loop of WriteCache: a page is written, and the next cached
      when there is more to write. */
  method WriteOn(c: Cpu, page: seq<int>, rest: seq<byte>, ghost i: nat, ghost image: Image, ghost fits: bool,
      ghost was: Snap)
    returns (next: Option<seq<int>>)
    requires c.Ready() && c.cacheEnable && c.memory.cfg.Ok() && Pending(c, page, i, rest, image, fits)
    requires Confined(was, c.Now(), c.pid)
    modifies c`entries, c`lines, c.tlb, c.memory.userMemory, Buffers(c.entries)
    ensures c.Ready() && Confined(was, c.Now(), c.pid)
    ensures fresh(Buffers(c.entries) - old(Buffers(c.entries)))
    ensures next.None? ==> c.Seen(c.pid) == image && (fits <==> |rest| <= c.memory.cfg.pageSize)
    ensures next.Some? ==> |rest| > c.memory.cfg.pageSize
    ensures next.Some? ==> Pending(c, next.value, NextNumber(i, Top(c.memory.cfg)), rest[c.memory.cfg.pageSize..],
        image, fits)
  {
    hide PidSound, SeenIn, Sound, NoClash, Confined, Inv, FrameOf, WriteFrom, Separate, EmptyOk, Matches;
    ghost var now := c.Now();
    WriteTurn(c.memory.cfg, c.Seen(c.pid), i, rest);
    var n := Min(c.memory.cfg.pageSize, |rest|);
    WriteChunk(c, page, 0, rest[..n], i);
    ConfinedTransitive(was, now, c.Now(), c.pid);
    if n == |rest| {
      return None;
    }
    ghost var mid := c.Now();
    PastEnd(c.memory.cfg, c.Seen(c.pid), NextNumber(i, Top(c.memory.cfg)), rest[n..]);
    next := Advance(c, page, i);
    ConfinedTransitive(was, mid, c.Now(), c.pid);
  }

  /** The loop of WriteCache: the value goes to page after page, from a cached one. */
  method WriteRest(c: Cpu, page: seq<int>, value: seq<byte>, ghost i: nat, ghost image: Image, ghost fits: bool,
      ghost was: Snap)
    returns (ok: bool)
    requires c.Ready() && c.cacheEnable && c.memory.cfg.Ok() && Pending(c, page, i, value, image, fits)
    requires Confined(was, c.Now(), c.pid)
    modifies c`entries, c`lines, c.tlb, c.memory.userMemory, Buffers(c.entries)
    ensures c.Ready() && Confined(was, c.Now(), c.pid)
    ensures fresh(Buffers(c.entries) - old(Buffers(c.entries)))
    ensures c.Seen(c.pid) == image && ok == fits
  {
    hide PidSound, SeenIn, Sound, NoClash, Confined, Inv, Pending, Separate, EmptyOk, Matches;
    ghost var j: nat := i;
    var current, rest := page, value;
    while true
      invariant c.Ready() && Confined(was, c.Now(), c.pid) && Pending(c, current, j, rest, image, fits)
      invariant fresh(Buffers(c.entries) - old(Buffers(c.entries)))
      decreases |rest|
    {
      var next := WriteOn(c, current, rest, j, image, fits, was);
      if next.None? {
        return |rest| <= c.memory.cfg.pageSize;
      }
      rest := rest[c.memory.cfg.pageSize..];
      current := next.value;
      j := NextNumber(j, Top(c.memory.cfg));
    }
  }

  /** The page at hand for a write: the cached entry's buffer, or on a miss a copy
      of the page, which is then cached from another copy. */
  method FirstPage(c: Cpu, address: seq<int>) returns (content: array?<byte>)
    requires c.Ready() && c.cacheEnable && |address| >= 2
    requires Cached(c.entries, address[..|address| - 1]) ==> Mapped(c.memory.Model(), c.pid, address[..|address| - 1])
    modifies c`entries, c`lines, c.tlb, c.memory.userMemory
    ensures c.Ready() && c.Seen(c.pid) == old(c.Seen(c.pid)) && Confined(old(c.Now()), c.Now(), c.pid)
    ensures fresh(Buffers(c.entries) - old(Buffers(c.entries)))
    ensures content != null <==> Mapped(old(c.memory.Model()), c.pid, address[..|address| - 1])
    ensures content != null ==> content.Length == c.memory.cfg.pageSize && Cached(c.entries, address[..|address| - 1])
    ensures content != null ==>
              if Cached(old(c.entries), address[..|address| - 1]) then
                content in old(Buffers(c.entries)) && Own(c, address[..|address| - 1], content)
              else fresh(content) && Detached(c, content)
  {
    hide PidSound, SeenIn, Sound, NoClash, Confined, Separate, EmptyOk, FrameOf, Inv;
    var base := address[..|address| - 1];
    var found: bool;
    Unmoved(c);
    content, found := SearchPageInCache(c, base);
    if found {
      CachedLine(c, base, First(c.entries, base));
      assert c.entries[First(c.entries, base)] in c.entries;
      return;
    }
    content := FetchPage(c, address);
  }

  /** Traducir, GetPageInMemory and AddEntryCache for a page not yet cached. */
  method FetchPage(c: Cpu, address: seq<int>) returns (content: array?<byte>)
    requires c.Ready() && c.cacheEnable && |address| >= 2 && !Cached(c.entries, address[..|address| - 1])
    modifies c`entries, c`lines, c.tlb, c.memory.userMemory
    ensures c.Ready() && c.Seen(c.pid) == old(c.Seen(c.pid)) && Confined(old(c.Now()), c.Now(), c.pid)
    ensures fresh(Buffers(c.entries) - old(Buffers(c.entries)))
    ensures content != null <==> Mapped(old(c.memory.Model()), c.pid, address[..|address| - 1])
    ensures content != null ==> content.Length == c.memory.cfg.pageSize && fresh(content) && Detached(c, content)
    ensures content != null ==> Cached(c.entries, address[..|address| - 1])
  {
    hide PidSound, SeenIn, Sound, NoClash, Confined, Separate, EmptyOk, FrameOf, Inv, Matches;
    var base := address[..|address| - 1];
    Unmoved(c);
    var frame := TranslateRunning(c, address);
    if frame.None? {
      return null;
    }
    content := GetMapped(c, base, frame.value);
    AddPage(c, base, content);
  }

  /** The image once the first page of a write is done. */
  function HeadWrite(seen: Image, i: nat, at: nat, chunk: seq<byte>, hit: bool): Image
    requires i < |seen| && at + |chunk| <= |seen[i]|
  {
    if hit then seen[i := Splice(seen[i], at, chunk)] else seen
  }

  /** The first page of a write: cached if need be, written and marked. What is
      written on a miss goes to the detached copy. */
  method WriteHead(c: Cpu, address: seq<int>, chunk: seq<byte>) returns (ok: bool)
    requires c.Ready() && c.cacheEnable && |address| >= 2
    requires Cached(c.entries, address[..|address| - 1]) ==> Mapped(c.memory.Model(), c.pid, address[..|address| - 1])
    requires 0 <= address[|address| - 1] && address[|address| - 1] + |chunk| <= c.memory.cfg.pageSize
    modifies c`entries, c`lines, c.tlb, c.memory.userMemory, Buffers(c.entries)
    ensures c.Ready() && Confined(old(c.Now()), c.Now(), c.pid)
    ensures fresh(Buffers(c.entries) - old(Buffers(c.entries)))
    ensures ok <==> Mapped(old(c.memory.Model()), c.pid, address[..|address| - 1])
    ensures !ok ==> c.Seen(c.pid) == old(c.Seen(c.pid))
    ensures ok ==> Cached(c.entries, address[..|address| - 1])
    ensures ok ==> Mapped(c.memory.Model(), c.pid, address[..|address| - 1])
    ensures ok ==> (
              var page, at, seen := address[..|address| - 1], address[|address| - 1], old(c.Seen(c.pid));
              var i := Value(page, c.memory.cfg.entries);
              0 <= i < |seen| && |seen[i]| == c.memory.cfg.pageSize
              && c.Seen(c.pid) == HeadWrite(seen, i, at, chunk, Cached(old(c.entries), page)))
  {
    hide PidSound, SeenIn, Sound, NoClash, Confined, Separate, EmptyOk, FrameOf, Inv, Matches;
    var page := address[..|address| - 1];
    ghost var was := c.Now();
    var content := FirstPage(c, address);
    if content == null {
      return false;
    }
    ghost var mid := c.Now();
    ConfinedMapped(was, mid, c.pid, page);
    WriteHit(c, page, content, address[|address| - 1], chunk);
    ReportFrame(c, page);
    ConfinedTransitive(was, mid, c.Now(), c.pid);
    return true;
  }

  /** What a process sees after WriteCache from offset `at` of page i. When the
      page was not cached before the call, the bytes of that page are lost. */
  function CacheWrite(cfg: Config, seen: Image, i: nat, at: nat, value: seq<byte>, hit: bool): Image
    requires Uniform(seen, cfg.pageSize) && at < cfg.pageSize
  {
    var room := cfg.pageSize - at;
    if hit then WriteFrom(seen, cfg.pageSize, Top(cfg), i, at, value)
    else if |value| <= room then seen
    else WriteFrom(seen, cfg.pageSize, Top(cfg), NextNumber(i, Top(cfg)), 0, value[room..])
  }

  /** Within one page: what is written on a hit shows there and nowhere else, and what
      is written on a miss shows nowhere. */
  lemma MissLoses(cfg: Config, seen: Image, i: nat, at: nat, value: seq<byte>)
    requires Uniform(seen, cfg.pageSize) && at + |value| <= cfg.pageSize && at < cfg.pageSize && i < |seen|
    ensures CacheWrite(cfg, seen, i, at, value, false) == seen
    ensures CacheWrite(cfg, seen, i, at, value, true) == seen[i := Splice(seen[i], at, value)]
  {
    assert value == [] ==> Splice(seen[i], at, value) == seen[i];
  }

  lemma HeadTurn(cfg: Config, seen: Image, i: nat, at: nat, value: seq<byte>, hit: bool)
    requires cfg.Ok() && Uniform(seen, cfg.pageSize) && at < cfg.pageSize && i < |seen|
    ensures var n, j := Min(cfg.pageSize - at, |value|), NextNumber(i, Top(cfg));
            var next := HeadWrite(seen, i, at, value[..n], hit);
            Uniform(next, cfg.pageSize) && |next| == |seen|
            && CacheWrite(cfg, seen, i, at, value, hit)
               == (if n == |value| then next else WriteFrom(next, cfg.pageSize, Top(cfg), j, 0, value[n..]))
            && (FitsFrom(|seen|, cfg.pageSize, Top(cfg), i, at + |value|) <==>
                n == |value| || FitsFrom(|seen|, cfg.pageSize, Top(cfg), j, |value| - n))
  {
    if |value| <= cfg.pageSize - at {
      assert value[..|value|] == value;
      if hit && value == [] {
        SameUpdate(seen, i, Splice(seen[i], at, value));
      }
    }
  }

  /** WriteCache past its first page. */
  method WriteTail(c: Cpu, page: seq<int>, rest: seq<byte>, ghost i: nat, ghost image: Image, ghost fits: bool,
      ghost was: Snap)
    returns (ok: bool)
    requires c.Ready() && c.cacheEnable && PageIs(c, page, i) && rest != [] && c.memory.cfg.Ok()
    requires Confined(was, c.Now(), c.pid) && Uniform(c.Seen(c.pid), c.memory.cfg.pageSize)
    requires var j := NextNumber(i, Top(c.memory.cfg));
             image == WriteFrom(c.Seen(c.pid), c.memory.cfg.pageSize, Top(c.memory.cfg), j, 0, rest)
             && (fits <==> FitsFrom(|c.Seen(c.pid)|, c.memory.cfg.pageSize, Top(c.memory.cfg), j, |rest|))
    modifies c`entries, c`lines, c.tlb, c.memory.userMemory, Buffers(c.entries)
    ensures c.Ready() && Confined(was, c.Now(), c.pid)
    ensures fresh(Buffers(c.entries) - old(Buffers(c.entries)))
    ensures c.Seen(c.pid) == image && ok == fits
  {
    hide PidSound, SeenIn, Sound, NoClash, Confined, Separate, EmptyOk, FrameOf, Inv, Matches, WriteFrom;
    ghost var mid := c.Now();
    PastEnd(c.memory.cfg, c.Seen(c.pid), NextNumber(i, Top(c.memory.cfg)), rest);
    var next := Advance(c, page, i);
    ConfinedTransitive(was, mid, c.Now(), c.pid);
    if next.None? {
      return false;
    }
    ok := WriteRest(c, next.value, rest, NextNumber(i, Top(c.memory.cfg)), image, fits, was);
  }

  /** WriteCache, from any offset, over any number of pages. A page address that the
      process does not map must not be another process's hit. */
  method WriteCache(c: Cpu, address: seq<int>, value: seq<byte>) returns (ok: bool)
    requires c.Ready() && c.cacheEnable && |address| >= 2 && 0 <= address[|address| - 1] < c.memory.cfg.pageSize
    requires Cached(c.entries, address[..|address| - 1]) ==> Mapped(c.memory.Model(), c.pid, address[..|address| - 1])
    modifies c`entries, c`lines, c.tlb, c.memory.userMemory, Buffers(c.entries)
    ensures c.Ready() && Confined(old(c.Now()), c.Now(), c.pid)
    ensures fresh(Buffers(c.entries) - old(Buffers(c.entries)))
    ensures !Mapped(old(c.memory.Model()), c.pid, address[..|address| - 1]) ==>
        !ok && c.Seen(c.pid) == old(c.Seen(c.pid))
    ensures Mapped(old(c.memory.Model()), c.pid, address[..|address| - 1]) ==> (
              var page, at, seen, cfg := address[..|address| - 1], address[|address| - 1], old(c.Seen(c.pid)),
                c.memory.cfg;
              var i := Value(page, cfg.entries);
              0 <= i < |seen| && Uniform(seen, cfg.pageSize)
              && c.Seen(c.pid) == CacheWrite(cfg, seen, i, at, value, Cached(old(c.entries), page))
              && (ok <==> FitsFrom(|seen|, cfg.pageSize, Top(cfg), i, at + |value|))
              && (at + |value| <= cfg.pageSize ==> Cached(c.entries, page)))
  {
    hide PidSound, SeenIn, Sound, NoClash, Confined, Separate, EmptyOk, FrameOf, Inv, Matches, WriteFrom, CacheWrite,
         HeadWrite, FitsFrom, NextNumber, Cached;
    var delta := address[|address| - 1];
    var base := address[..|address| - 1];
    ghost var was, seen, hit, cfg := c.Now(), c.Seen(c.pid), Cached(c.entries, base), c.memory.cfg;
    var n := Min(c.memory.cfg.pageSize - delta, |value|);
    SeenUniform(c);
    var found := WriteHead(c, address, value[..n]);
    if !found {
      return false;
    }
    ghost var i := Value(base, cfg.entries);
    HeadTurn(cfg, seen, i, delta, value, hit);
    if n == |value| {
      return true;
    }
    ok := WriteTail(c, base, value[n..], i, CacheWrite(cfg, seen, i, delta, value, hit),
                    FitsFrom(|seen|, cfg.pageSize, Top(cfg), i, delta + |value|), was);
  }
}
