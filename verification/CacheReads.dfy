/** cpu/memory/cache.go: ReadCache, page number after page number. */
module CacheReads {
  import opened Wrappers
  import opened Addressing
  import opened Pages
  import opened Memory
  import opened Storage
  import opened Clock
  import opened Coherence
  import opened CpuState
  import opened Mmu
  import opened Insertion
  import opened CacheAccess

  /** The slice that a hit gives, whoever's entry it is, which counts as used. */
  method ReadHit(c: Cpu, page: seq<int>, at: nat, n: nat) returns (chunk: seq<byte>)
    requires c.Linked() && page != [] && Cached(c.entries, page)
    requires var content := c.entries[First(c.entries, page)].content; content != null && at + n <= content.Length
    modifies c`entries
    ensures chunk == old(c.entries[First(c.entries, page)].content[at..at + n])
    ensures c.Linked() && c.Now() == old(c.Now()) && Buffers(c.entries) == old(Buffers(c.entries))
    ensures var k := First(old(c.entries), page); c.entries == old(c.entries)[k := old(c.entries)[k].(use := true)]
  {
    hide Separate, EmptyOk, Matches;
    var content, found := SearchPageInCache(c, page);
    chunk := content[at..at + n];
    UseCache(c, page);
  }

  /** The entries differ in one use bit alone. */
  lemma UseReady(c: Cpu, was: seq<CacheEntry>, k: nat)
    requires k < |was| && c.entries == was[k := was[k].(use := true)] && OneHand(was) && (c.cacheEnable <==> was != [])
    ensures OneHand(c.entries) && (c.cacheEnable <==> c.entries != []) && Cached(c.entries, was[k].page)
  {
    assert c.entries[k].page == was[k].page;
  }

  /** A slice of a cached page of the running process. */
  method ReadChunk(c: Cpu, page: seq<int>, at: nat, n: nat, ghost i: nat) returns (chunk: seq<byte>)
    requires c.Ready() && Cached(c.entries, page) && PageIs(c, page, i) && at + n <= c.memory.cfg.pageSize
    modifies c`entries
    ensures c.Ready() && c.Seen(c.pid) == old(c.Seen(c.pid)) && Cached(c.entries, page) && c.Now() == old(c.Now())
    ensures Buffers(c.entries) == old(Buffers(c.entries)) && PageIs(c, page, i)
    ensures |c.Seen(c.pid)[i]| == c.memory.cfg.pageSize && chunk == c.Seen(c.pid)[i][at..at + n]
    ensures var k := First(old(c.entries), page); c.entries == old(c.entries)[k := old(c.entries)[k].(use := true)]
  {
    hide PidSound, SeenIn, Sound, NoClash, Separate, EmptyOk, Inv, FrameOf;
    ghost var was, k := c.entries, First(c.entries, page);
    CachedLine(c, page, k);
    MappedPage(c, page);
    ghost var bytes := c.entries[k].content[..];
    assert c.entries[k].content[at..at + n] == bytes[at..at + n];
    chunk := ReadHit(c, page, at, n);
    UseReady(c, was, k);
  }

  /** A read under way: after `result`, `rest` bytes still have to come from cached
      page i on, to give `whole`; `fits` says whether there are pages for them all. */
  ghost predicate Reading(c: Cpu, page: seq<int>, i: nat, result: seq<byte>, rest: nat, whole: seq<byte>, fits: bool)
    reads c, c.memory, c.memory.userMemory, c.memory.reservationBits
    requires c.memory.Wired() && c.memory.cfg.Ok()
  {
    && PageIs(c, page, i) && Cached(c.entries, page) && rest > 0
    && Uniform(c.Seen(c.pid), c.memory.cfg.pageSize)
    && result + ReadFrom(c.Seen(c.pid), c.memory.cfg.pageSize, Top(c.memory.cfg), i, 0, rest) == whole
    && (FitsFrom(|c.Seen(c.pid)|, c.memory.cfg.pageSize, Top(c.memory.cfg), i, rest) <==> fits)
  }

  /** A read from offset `at` of page i, one page less. */
  lemma ReadTurn(cfg: Config, seen: Image, i: nat, at: nat, n: nat)
    requires cfg.Ok() && Uniform(seen, cfg.pageSize) && i < |seen| && at < cfg.pageSize
    ensures var k, j := Min(cfg.pageSize - at, n), NextNumber(i, Top(cfg));
            var chunk := seen[i][at..at + k];
            ReadFrom(seen, cfg.pageSize, Top(cfg), i, at, n)
            == (if n == k then chunk else chunk + ReadFrom(seen, cfg.pageSize, Top(cfg), j, 0, n - k))
            && (FitsFrom(|seen|, cfg.pageSize, Top(cfg), i, at + n) <==>
                n == k || FitsFrom(|seen|, cfg.pageSize, Top(cfg), j, n - k))
  {
    assert seen[i][at..cfg.pageSize] == seen[i][at..];
  }

  lemma NoPage(cfg: Config, count: nat, j: nat, n: nat)
    requires cfg.Ok()
    ensures FitsFrom(count, cfg.pageSize, Top(cfg), j, n) ==> j < count
  {
  }

  /** A read that has `result` already, one page less. */
  lemma ReadPart(cfg: Config, seen: Image, i: nat, result: seq<byte>, rest: nat)
    requires cfg.Ok() && Uniform(seen, cfg.pageSize) && i < |seen|
    ensures var n, j := Min(cfg.pageSize, rest), NextNumber(i, Top(cfg));
            var read := result + seen[i][0..n];
            && result + ReadFrom(seen, cfg.pageSize, Top(cfg), i, 0, rest)
               == (if n == rest then read else read + ReadFrom(seen, cfg.pageSize, Top(cfg), j, 0, rest - n))
            && (FitsFrom(|seen|, cfg.pageSize, Top(cfg), i, rest) <==>
                n == rest || FitsFrom(|seen|, cfg.pageSize, Top(cfg), j, rest - n))
            && (n < rest && FitsFrom(|seen|, cfg.pageSize, Top(cfg), j, rest - n) ==> j < |seen|)
  {
    hide ReadFrom, FitsFrom;
    var n, j := Min(cfg.pageSize, rest), NextNumber(i, Top(cfg));
    ReadTurn(cfg, seen, i, 0, rest);
    if n < rest {
      NoPage(cfg, |seen|, j, rest - n);
      ConcatAssociative(result, seen[i][0..n], ReadFrom(seen, cfg.pageSize, Top(cfg), j, 0, rest - n));
    }
  }

  /** One turn of the loop of ReadCache: a chunk, and the next page cached when
      there is more to read. */
  method ReadOn(c: Cpu, page: seq<int>, result: seq<byte>, rest: nat,
                ghost i: nat, ghost whole: seq<byte>, ghost fits: bool, ghost was: Snap)
    returns (next: Option<seq<int>>, read: seq<byte>)
    requires c.Ready() && c.cacheEnable && c.memory.cfg.Ok() && Reading(c, page, i, result, rest, whole, fits)
    requires Confined(was, c.Now(), c.pid)
    modifies c`entries, c`lines, c.tlb, c.memory.userMemory
    ensures c.Ready() && Confined(was, c.Now(), c.pid) && c.Seen(c.pid) == old(c.Seen(c.pid))
    ensures fresh(Buffers(c.entries) - old(Buffers(c.entries)))
    ensures next.None? ==> (fits <==> rest <= c.memory.cfg.pageSize) && (fits ==> read == whole)
    ensures next.Some? ==> rest > c.memory.cfg.pageSize
    ensures next.Some? ==> Reading(c, next.value, NextNumber(i, Top(c.memory.cfg)), read,
        rest - c.memory.cfg.pageSize, whole, fits)
  {
    hide PidSound, SeenIn, Sound, NoClash, Confined, Separate, EmptyOk, Matches, Inv, FrameOf, ReadFrom, FitsFrom,
         NextNumber;
    ReadPart(c.memory.cfg, c.Seen(c.pid), i, result, rest);
    var n := Min(c.memory.cfg.pageSize, rest);
    var chunk := ReadChunk(c, page, 0, n, i);
    read := result + chunk;
    if n == rest {
      return None, read;
    }
    ghost var mid := c.Now();
    next := Advance(c, page, i);
    ConfinedTransitive(was, mid, c.Now(), c.pid);
  }

  /** The loop of ReadCache. */
  method ReadRest(c: Cpu, page: seq<int>, result: seq<byte>, size: nat,
                  ghost i: nat, ghost whole: seq<byte>, ghost fits: bool, ghost was: Snap)
    returns (r: Option<seq<byte>>)
    requires c.Ready() && c.cacheEnable && c.memory.cfg.Ok() && Reading(c, page, i, result, size, whole, fits)
    requires Confined(was, c.Now(), c.pid)
    modifies c`entries, c`lines, c.tlb, c.memory.userMemory
    ensures c.Ready() && Confined(was, c.Now(), c.pid) && c.Seen(c.pid) == old(c.Seen(c.pid))
    ensures fresh(Buffers(c.entries) - old(Buffers(c.entries)))
    ensures r == if fits then Some(whole) else None
  {
    hide PidSound, SeenIn, Sound, NoClash, Confined, Separate, EmptyOk, Matches, Inv, Reading;
    ghost var j: nat, seen := i, c.Seen(c.pid);
    var current, read := page, result;
    var rest: nat := size;
    while true
      invariant c.Ready() && Confined(was, c.Now(), c.pid) && Reading(c, current, j, read, rest, whole, fits)
      invariant fresh(Buffers(c.entries) - old(Buffers(c.entries))) && c.Seen(c.pid) == seen
      decreases rest
    {
      var next: Option<seq<int>>;
      next, read := ReadOn(c, current, read, rest, j, whole, fits, was);
      if next.None? {
        return if rest <= c.memory.cfg.pageSize then Some(read) else None;
      }
      rest := rest - c.memory.cfg.pageSize;
      current := next.value;
      j := NextNumber(j, Top(c.memory.cfg));
    }
  }

  /** ReadCache past its first page. */
  method ReadTail(c: Cpu, page: seq<int>, chunk: seq<byte>, rest: nat,
                  ghost i: nat, ghost whole: seq<byte>, ghost fits: bool, ghost was: Snap)
    returns (r: Option<seq<byte>>)
    requires c.Ready() && c.cacheEnable && PageIs(c, page, i) && rest > 0 && c.memory.cfg.Ok()
    requires Confined(was, c.Now(), c.pid) && Uniform(c.Seen(c.pid), c.memory.cfg.pageSize)
    requires var j := NextNumber(i, Top(c.memory.cfg));
             whole == chunk + ReadFrom(c.Seen(c.pid), c.memory.cfg.pageSize, Top(c.memory.cfg), j, 0, rest)
             && (fits <==> FitsFrom(|c.Seen(c.pid)|, c.memory.cfg.pageSize, Top(c.memory.cfg), j, rest))
    modifies c`entries, c`lines, c.tlb, c.memory.userMemory
    ensures c.Ready() && Confined(was, c.Now(), c.pid) && c.Seen(c.pid) == old(c.Seen(c.pid))
    ensures fresh(Buffers(c.entries) - old(Buffers(c.entries)))
    ensures r == if fits then Some(whole) else None
  {
    hide PidSound, SeenIn, Sound, NoClash, Confined, Separate, EmptyOk, Matches, Inv, FrameOf, ReadFrom, FitsFrom;
    ghost var mid := c.Now();
    NoPage(c.memory.cfg, |c.Seen(c.pid)|, NextNumber(i, Top(c.memory.cfg)), rest);
    var next := Advance(c, page, i);
    ConfinedTransitive(was, mid, c.Now(), c.pid);
    if next.None? {
      return None;
    }
    r := ReadRest(c, next.value, chunk, rest, NextNumber(i, Top(c.memory.cfg)), whole, fits, was);
  }

  /** ReadCache from a cached page on. */
  method ReadHead(c: Cpu, page: seq<int>, at: nat, size: nat, ghost i: nat) returns (r: Option<seq<byte>>)
    requires c.Ready() && c.cacheEnable && Cached(c.entries, page) && PageIs(c, page, i) && at < c.memory.cfg.pageSize
    modifies c`entries, c`lines, c.tlb, c.memory.userMemory
    ensures c.Ready() && Confined(old(c.Now()), c.Now(), c.pid) && c.Seen(c.pid) == old(c.Seen(c.pid))
    ensures fresh(Buffers(c.entries) - old(Buffers(c.entries)))
    ensures var seen, cfg := c.Seen(c.pid), c.memory.cfg;
            && Uniform(seen, cfg.pageSize)
            && r == if FitsFrom(|seen|, cfg.pageSize, Top(cfg), i, at + size)
                    then Some(ReadFrom(seen, cfg.pageSize, Top(cfg), i, at, size)) else None
    ensures at + size <= c.memory.cfg.pageSize ==>
              var k := First(old(c.entries), page);
              c.entries == old(c.entries)[k := old(c.entries)[k].(use := true)]
  {
    hide PidSound, SeenIn, Sound, NoClash, Confined, Separate, EmptyOk, Matches, Inv, FrameOf, ReadFrom, FitsFrom,
         NextNumber;
    ghost var was, seen, cfg := c.Now(), c.Seen(c.pid), c.memory.cfg;
    Unmoved(c);
    SeenUniform(c);
    var n := Min(c.memory.cfg.pageSize - at, size);
    var chunk := ReadChunk(c, page, at, n, i);
    ReadTurn(cfg, seen, i, at, size);
    if n == size {
      return Some(chunk);
    }
    r := ReadTail(c, page, chunk, size - n, i, ReadFrom(seen, cfg.pageSize, Top(cfg), i, at, size),
                  FitsFrom(|seen|, cfg.pageSize, Top(cfg), i, at + size), was);
  }

  /** ReadCache, from any offset, over any number of pages: the bytes that the
      process sees there, or nothing when the page is not cached or a page is
      missing. Reading changes nothing that is seen. */
  method ReadCache(c: Cpu, address: seq<int>, size: nat) returns (r: Option<seq<byte>>)
    requires c.Ready() && c.cacheEnable && |address| >= 2 && 0 <= address[|address| - 1] < c.memory.cfg.pageSize
    requires Cached(c.entries, address[..|address| - 1]) ==> Mapped(c.memory.Model(), c.pid, address[..|address| - 1])
    modifies c`entries, c`lines, c.tlb, c.memory.userMemory
    ensures c.Ready() && Confined(old(c.Now()), c.Now(), c.pid) && c.Seen(c.pid) == old(c.Seen(c.pid))
    ensures fresh(Buffers(c.entries) - old(Buffers(c.entries)))
    ensures !Cached(old(c.entries), address[..|address| - 1]) ==> r == None
    ensures Cached(old(c.entries), address[..|address| - 1]) ==> (
              var i, at, seen, cfg := Value(address[..|address| - 1], c.memory.cfg.entries), address[|address| - 1],
                c.Seen(c.pid), c.memory.cfg;
              0 <= i < |seen| && Uniform(seen, cfg.pageSize)
              && r == if FitsFrom(|seen|, cfg.pageSize, Top(cfg), i, at + size)
                      then Some(ReadFrom(seen, cfg.pageSize, Top(cfg), i, at, size)) else None)
    ensures Cached(old(c.entries), address[..|address| - 1]) && address[|address| - 1] + size <= c.memory.cfg.pageSize
            ==> (
              var k := First(old(c.entries), address[..|address| - 1]);
              c.entries == old(c.entries)[k := old(c.entries)[k].(use := true)])
  {
    hide PidSound, SeenIn, Sound, NoClash, Confined, Separate, EmptyOk, Matches, Inv, FrameOf, ReadFrom, FitsFrom;
    var base := address[..|address| - 1];
    Unmoved(c);
    var content, found := SearchPageInCache(c, base);
    if !found {
      return None;
    }
    MappedPage(c, base);
    SeenUniform(c);
    r := ReadHead(c, base, address[|address| - 1], size, Value(base, c.memory.cfg.entries));
  }
}
