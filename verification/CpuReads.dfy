/** cpu/memory/mmu.go: ReadMemory, with the cache and without it. */
module CpuReads {
  import opened Wrappers
  import opened Addressing
  import opened Pages
  import opened Memory
  import opened Keeps
  import opened Storage
  import opened Coherence
  import opened CpuState
  import opened Mmu
  import opened Insertion
  import opened CacheAccess
  import opened CacheReads
  import opened CpuMemory
  import opened DirectReads

  /** An uncached read under way, from page i on. */
  ghost predicate Scanning(c: Cpu, page: seq<int>, i: nat, at: nat, content: seq<byte>, done: nat, rest: nat,
      spare: seq<byte>, reply: Reply)
    reads c, c.memory, c.memory.userMemory, c.memory.reservationBits
    requires c.memory.Wired() && c.memory.cfg.Ok()
  {
    && PageIs(c, page, i) && rest > 0
    && Uniform(c.Seen(c.pid), c.memory.cfg.pageSize)
    && DirectLoop(c.Seen(c.pid), c.memory.cfg.pageSize, Top(c.memory.cfg), i, at, content, done, rest, spare) == reply
  }

  /** GetPageInMemory without a cache: what the process sees. */
  method GetSeen(c: Cpu, page: seq<int>, frame: Physical) returns (content: array<byte>)
    requires c.Ready() && c.entries == [] && Mapped(c.memory.Model(), c.pid, page)
    requires FrameOf(c.memory.Model(), c.pid, page) == Ok(frame.frame)
    ensures c.Ready() && 0 <= Value(page, c.memory.cfg.entries) < |c.Seen(c.pid)|
    ensures content[..] == c.Seen(c.pid)[Value(page, c.memory.cfg.entries)]
  {
    hide SeenIn, PidSound, Sound, NoClash, Inv, Matches, FrameOf;
    assert c.lines == [];
    Bare(c.memory.Model(), c.pid);
    content := GetMapped(c, page, frame);
  }

  lemma LoopTurn(pages: Image, size: nat, top: nat, i: nat, at: nat, content: seq<byte>, done: nat, rest: nat,
      spare: seq<byte>)
    requires Uniform(pages, size) && size > 0 && rest > 0 && i < |pages|
    ensures var n, j, r := Min(size, rest), NextNumber(i, top),
        DirectLoop(pages, size, top, i, at, content, done, rest, spare);
            && (done > |content| || at + n > size + |spare| ==> r == Panicked)
            && (done <= |content| && at + n <= size + |spare| ==>
                  var next := CopyAt(content, done, (pages[i] + spare)[at..at + n]);
                  r == if n == rest then Content(next)
                       else if j >= |pages| then Failed
                       else DirectLoop(pages, size, top, j, at, next, done + n, rest - n, spare))
  {
  }

  /** One turn of the uncached loop of ReadMemory. */
  method ScanOn(c: Cpu, page: seq<int>, frame: Physical, at: nat, content: seq<byte>, done: nat, rest: nat,
      spare: seq<byte>, ghost i: nat, ghost reply: Reply)
    returns (next: Option<(seq<int>, Physical)>, r: Reply, read: seq<byte>)
    requires c.Ready() && c.entries == [] && c.memory.cfg.Ok()
    requires Scanning(c, page, i, at, content, done, rest, spare, reply)
    requires FrameOf(c.memory.Model(), c.pid, page) == Ok(frame.frame)
    modifies c.tlb
    ensures c.Ready()
    ensures next.None? ==> r == reply
    ensures next.Some? ==> rest > c.memory.cfg.pageSize
    ensures next.Some? ==> Scanning(c, next.value.0, NextNumber(i, Top(c.memory.cfg)), at, read,
        done + c.memory.cfg.pageSize, rest - c.memory.cfg.pageSize, spare, reply)
    ensures next.Some? ==> FrameOf(c.memory.Model(), c.pid, next.value.0) == Ok(next.value.1.frame)
  {
    hide SeenIn, PidSound, Sound, NoClash, Inv, Matches, FrameOf, DirectLoop, Mapped;
    var bytes := GetSeen(c, page, frame);
    LoopTurn(c.Seen(c.pid), c.memory.cfg.pageSize, Top(c.memory.cfg), i, at, content, done, rest, spare);
    var n := Min(c.memory.cfg.pageSize, rest);
    if done > |content| || at + n > bytes.Length + |spare| {
      return None, Panicked, content;
    }
    read := CopyAt(content, done, (bytes[..] + spare)[at..at + n]);
    if n == rest {
      return None, Content(read), read;
    }
    next := StepPage(c, page, i);
    r := Failed;
  }

  /** The uncached loop of ReadMemory: page after page. */
  method ScanRest(c: Cpu, page: seq<int>, frame: Physical, at: nat, content: seq<byte>, leido: nat, size: nat,
      spare: seq<byte>, ghost i: nat, ghost reply: Reply)
    returns (r: Reply)
    requires c.Ready() && c.entries == [] && c.memory.cfg.Ok()
    requires Scanning(c, page, i, at, content, leido, size, spare, reply)
    requires FrameOf(c.memory.Model(), c.pid, page) == Ok(frame.frame)
    modifies c.tlb
    ensures c.Ready() && r == reply
  {
    hide SeenIn, PidSound, Sound, NoClash, Inv, Matches, FrameOf, DirectLoop, Mapped, Scanning;
    ghost var j: nat := i;
    var current, base, read := page, frame, content;
    var done: nat, rest: nat := leido, size;
    while true
      invariant c.Ready() && Scanning(c, current, j, at, read, done, rest, spare, reply)
      invariant FrameOf(c.memory.Model(), c.pid, current) == Ok(base.frame)
      decreases rest
    {
      var next;
      next, r, read := ScanOn(c, current, base, at, read, done, rest, spare, j, reply);
      if next.None? {
        return;
      }
      current, base := next.value.0, next.value.1;
      done := done + c.memory.cfg.pageSize;
      rest := rest - c.memory.cfg.pageSize;
      j := NextNumber(j, Top(c.memory.cfg));
    }
  }

  /** ReadMemory without the cache. */
  method ReadBare(c: Cpu, address: seq<int>, size: nat, spare: seq<byte>) returns (r: Reply)
    requires c.Ready() && c.entries == [] && |address| >= 2 && 0 <= address[|address| - 1] < c.memory.cfg.pageSize
    modifies c.tlb
    ensures c.Ready()
    ensures !Mapped(c.memory.Model(), c.pid, address[..|address| - 1]) ==> r == Failed
    ensures Mapped(c.memory.Model(), c.pid, address[..|address| - 1]) ==> (
              var i, cfg := Value(address[..|address| - 1], c.memory.cfg.entries), c.memory.cfg;
              0 <= i < |c.Seen(c.pid)| && Uniform(c.Seen(c.pid), cfg.pageSize)
              && r == DirectRead(c.Seen(c.pid), cfg.pageSize, Top(cfg), i, address[|address| - 1], size, spare))
  {
    hide SeenIn, PidSound, Sound, NoClash, Inv, Matches, FrameOf, DirectLoop, Mapped;
    var delta := address[|address| - 1];
    var base := address[..|address| - 1];
    SeenUniform(c);
    var frame := TranslateRunning(c, address);
    if frame.None? {
      return Failed;
    }
    var page := GetSeen(c, base, frame.value);
    if size <= c.memory.cfg.pageSize - delta {
      return Content(page[..][delta..delta + size]);
    }
    var content := CopyAt(ZeroBytes(size), 0, page[..][delta..]);
    ghost var i, top := Value(base, c.memory.cfg.entries), Top(c.memory.cfg);
    var rest := size - (c.memory.cfg.pageSize - delta);
    var next := StepPage(c, base, i);
    NoNumber(c.Seen(c.pid), c.memory.cfg.pageSize, top, NextNumber(i, top), delta, content, c.memory.cfg.pageSize,
      rest, spare);
    if next.None? {
      return Failed;
    }
    r := ScanRest(c, next.value.0, next.value.1, delta, content, c.memory.cfg.pageSize, rest, spare, NextNumber(i, top),
                  DirectRead(c.Seen(c.pid), c.memory.cfg.pageSize, top, i, delta, size, spare));
  }

  lemma NoNumber(pages: Image, size: nat, top: nat, i: nat, at: nat, content: seq<byte>, done: nat, rest: nat,
      spare: seq<byte>)
    requires Uniform(pages, size) && size > 0 && rest > 0
    ensures i >= |pages| ==> DirectLoop(pages, size, top, i, at, content, done, rest, spare) == Failed
  {
  }

  /** ReadMemory with the cache: the page of the address is cached first. */
  method ReadCached(c: Cpu, address: seq<int>, size: nat) returns (r: Reply)
    requires c.Ready() && c.cacheEnable && |address| >= 2 && 0 <= address[|address| - 1] < c.memory.cfg.pageSize
    modifies c`entries, c`lines, c.tlb, c.memory.userMemory
    ensures c.Ready() && Confined(old(c.Now()), c.Now(), c.pid) && c.Seen(c.pid) == old(c.Seen(c.pid))
    ensures fresh(Buffers(c.entries) - old(Buffers(c.entries)))
    ensures !Mapped(old(c.memory.Model()), c.pid, address[..|address| - 1]) ==> r == Failed
    ensures Mapped(old(c.memory.Model()), c.pid, address[..|address| - 1]) ==> (
              var i, cfg := Value(address[..|address| - 1], c.memory.cfg.entries), c.memory.cfg;
              i >= 0 && Uniform(c.Seen(c.pid), cfg.pageSize)
              && r == PagedReply(c.Seen(c.pid), cfg.pageSize, Top(cfg), i, address[|address| - 1], size))
  {
    hide SeenIn, PidSound, Sound, NoClash, Separate, EmptyOk, Matches, Inv, Confined, FrameOf, ReadFrom, FitsFrom;
    Unmoved(c);
    var base := address[..|address| - 1];
    var frame := TranslateRunning(c, address);
    if frame.None? {
      return Failed;
    }
    ghost var was := c.Now();
    Load(c, base, frame.value);
    ghost var mid := c.Now();
    var bytes := ReadCache(c, address, size);
    ConfinedTransitive(was, mid, c.Now(), c.pid);
    r := if bytes.Some? then Content(bytes.value) else Failed;
  }

  /** ReadMemory: what the running process sees does not change, and with the
      cache, or within one page, or from the start of a page, the answer is what
      the process sees there, page number after page number. */
  method ReadMemory(c: Cpu, address: seq<int>, size: nat, spare: seq<byte>) returns (r: Reply)
    requires c.Ready() && |address| >= 2 && 0 <= address[|address| - 1] < c.memory.cfg.pageSize
    modifies c`entries, c`lines, c.tlb, c.memory.userMemory
    ensures c.Ready() && Confined(old(c.Now()), c.Now(), c.pid) && c.Seen(c.pid) == old(c.Seen(c.pid))
    ensures fresh(Buffers(c.entries) - old(Buffers(c.entries)))
    ensures !Mapped(old(c.memory.Model()), c.pid, address[..|address| - 1]) ==> r == Failed
    ensures Mapped(old(c.memory.Model()), c.pid, address[..|address| - 1]) ==> (
              var i, at, cfg := Value(address[..|address| - 1], c.memory.cfg.entries), address[|address| - 1],
                c.memory.cfg;
              0 <= i < |c.Seen(c.pid)| && Uniform(c.Seen(c.pid), cfg.pageSize)
              && r == if c.cacheEnable || at == 0 || at + size <= cfg.pageSize
                      then PagedReply(c.Seen(c.pid), cfg.pageSize, Top(cfg), i, at, size)
                      else DirectRead(c.Seen(c.pid), cfg.pageSize, Top(cfg), i, at, size, spare))
  {
    hide SeenIn, PidSound, Sound, NoClash, Separate, EmptyOk, Matches, Inv, Confined, FrameOf, DirectRead, PagedReply,
         Mapped;
    ghost var at, base, cfg := address[|address| - 1], address[..|address| - 1], c.memory.cfg;
    PageBelow(c, base);
    SeenUniform(c);
    Unmoved(c);
    if c.cacheEnable {
      r := ReadCached(c, address, size);
    } else {
      r := ReadBare(c, address, size, spare);
      if Mapped(c.memory.Model(), c.pid, base) && (at == 0 || at + size <= cfg.pageSize) {
        DirectReadRight(c.Seen(c.pid), cfg.pageSize, Top(cfg), Value(base, cfg.entries), at, size, spare);
      }
    }
  }

  lemma PageBelow(c: Cpu, page: seq<int>)
    requires c.Ready()
    ensures Mapped(c.memory.Model(), c.pid, page) ==> 0 <= Value(page, c.memory.cfg.entries) < |c.Seen(c.pid)|
  {
    hide PidSound, Sound, NoClash;
    MappedIff(c.memory.Model(), c.pid, page);
  }
}
