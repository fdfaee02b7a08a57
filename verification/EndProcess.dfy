/** cpu/memory/cache.go EndProcess: a process leaves the cache. */
module EndProcess {
  import opened Wrappers
  import opened Addressing
  import opened Pages
  import opened Memory
  import opened Keeps
  import opened Storage
  import opened Clock
  import opened Coherence
  import opened CpuState
  import opened Mmu
  import opened Insertion

  /** The first k lines of the process are in memory. */
  ghost predicate SettledTo(cfg: Config, pages: Image, lines: seq<Line>, pid: nat, k: nat) {
    k <= |lines| && forall j :: 0 <= j < k ==> Settled(cfg, pages, lines[j], pid)
  }

  /** Saving one more line leaves the lines saved before in memory. */
  lemma SettleMore(cfg: Config, was: Image, now: Image, lines: seq<Line>, pid: nat, k: nat)
    requires k < |lines| && |was| == |now|
    requires PidOk(cfg, was, lines, pid) && PidOk(cfg, now, lines, pid) && SettledTo(cfg, was, lines, pid, k)
    requires Settled(cfg, now, lines[k], pid)
    requires forall i :: 0 <= i < |now| && Elsewhere(cfg, lines[k], pid, i) ==> now[i] == was[i]
    ensures SettledTo(cfg, now, lines, pid, k + 1)
  {
    forall j | 0 <= j < k ensures Settled(cfg, now, lines[j], pid) {
      if lines[j].pid == pid {
        assert Settled(cfg, was, lines[j], pid) && LineOk(cfg, now, lines[j]);
        if lines[k].pid == pid {
          ValueInjective(lines[j].page, lines[k].page, cfg.entries);
        }
        assert Elsewhere(cfg, lines[k], pid, Value(lines[j].page, cfg.entries));
      }
    }
  }

  /** When every line of the process is in memory, it sees its memory. */
  lemma SettledView(cfg: Config, pages: Image, lines: seq<Line>, pid: nat)
    requires SettledTo(cfg, pages, lines, pid, |lines|)
    ensures View(cfg, pages, lines, pid) == pages
  {
    forall i | 0 <= i < |pages| ensures SeenPage(cfg, pages, lines, pid, i) == pages[i] {
      var k := FindLine(cfg, lines, pid, i);
      assert k < |lines| ==> Settled(cfg, pages, lines[k], pid);
    }
  }

  /** Writes an entry of the process back when it is modified. */
  method SaveDirty(c: Cpu, k: nat, pid: nat)
    requires c.Coherent(pid) && c.Linked() && k < |c.entries| && c.entries[k].pid == pid
    modifies c.tlb, c.memory.userMemory
    ensures c.memory.Valid() && c.TlbRight() && c.Linked() && Quiet(old(c.Now()), c.Now())
    ensures Settled(c.memory.cfg, MemPages(c.memory.Model(), pid), c.lines[k], pid)
    ensures forall i :: 0 <= i < |MemPages(c.memory.Model(), pid)| && Elsewhere(c.memory.cfg, c.lines[k], pid, i) ==>
              i < |old(MemPages(c.memory.Model(), pid))|
              && MemPages(c.memory.Model(), pid)[i] == old(MemPages(c.memory.Model(), pid))[i]
  {
    hide View, Inv, Separate, EmptyOk, Quiet, FrameOf;
    assert Matches(c.entries[k], c.lines[k]);
    assert LineOk(c.memory.cfg, MemPages(c.memory.Model(), pid), c.lines[k]);
    ghost var was := c.Now();
    QuietItself(was);
    if c.entries[k].modified {
      SaveEntry(c, k, pid);
      QuietTable(was, c.Now(), pid);
    }
  }

  lemma QuietTable(a: Snap, b: Snap, pid: nat)
    requires Quiet(a, b)
    ensures Table(b.m, pid) == Table(a.m, pid)
        && (PidSound(a, pid) ==> PidSound(b, pid) && SeenIn(b, pid) == SeenIn(a, pid))
  {
  }

  lemma QuietTransitive(a: Snap, b: Snap, c: Snap)
    requires Quiet(a, b) && Quiet(b, c)
    ensures Quiet(a, c)
  {
    hide PidSound, SeenIn;
    forall r: nat | PidSound(a, r) ensures PidSound(c, r) && SeenIn(c, r) == SeenIn(a, r) {
      assert PidSound(b, r);
    }
  }

  /** One turn of the loop of EndProcess. */
  method SettleNext(c: Cpu, k: nat, pid: nat, ghost was: Snap)
    requires c.Coherent(pid) && c.Linked() && k < |c.entries| && Quiet(was, c.Now())
    requires SettledTo(c.memory.cfg, MemPages(c.memory.Model(), pid), c.lines, pid, k)
    modifies c.tlb, c.memory.userMemory
    ensures c.Coherent(pid) && c.Linked() && Quiet(was, c.Now())
    ensures SettledTo(c.memory.cfg, MemPages(c.memory.Model(), pid), c.lines, pid, k + 1)
  {
    hide View, Inv, Separate, EmptyOk, FrameOf, Quiet;
    assert Matches(c.entries[k], c.lines[k]);
    if c.entries[k].pid == pid {
      ghost var mid := c.Now();
      SaveDirty(c, k, pid);
      QuietTransitive(was, mid, c.Now());
      QuietTable(mid, c.Now(), pid);
      SettleMore(c.memory.cfg, MemPages(mid.m, pid), MemPages(c.memory.Model(), pid), c.lines, pid, k);
    }
  }

  /** What EndProcess leaves in the place of an entry of the process. */
  function Gone(): CacheEntry { Entry([], null, false, false, false, -1) }

  function Remaining(entries: seq<CacheEntry>, pid: nat): seq<CacheEntry> {
    seq(|entries|, k requires 0 <= k < |entries| => if entries[k].pid == pid then Gone() else entries[k])
  }

  function RemainingLines(lines: seq<Line>, pid: nat): seq<Line> {
    seq(|lines|, k requires 0 <= k < |lines| => if lines[k].pid == pid then Line([], [], false, -1) else lines[k])
  }

  lemma RemainingNext(entries: seq<CacheEntry>, pid: nat, k: nat)
    requires k < |entries|
    ensures |Remaining(entries, pid)| == |entries|
    ensures Remaining(entries, pid)[..k + 1]
         == Remaining(entries, pid)[..k] + [if entries[k].pid == pid then Gone() else entries[k]]
  {
  }

  lemma RemainingAll(entries: seq<CacheEntry>, pid: nat)
    ensures |Remaining(entries, pid)| == |entries| && Remaining(entries, pid)[..0] == []
    ensures Remaining(entries, pid)[..|entries|] == Remaining(entries, pid)
  {
  }

  lemma LinkRemaining(c: Cpu, was: seq<CacheEntry>, lines: seq<Line>, pid: nat)
    requires |was| == |lines| && c.entries == Remaining(was, pid) && c.lines == RemainingLines(lines, pid)
    requires forall k :: 0 <= k < |was| ==> Matches(was[k], lines[k]) && was[k].content != c.memory.userMemory
    requires Separate(was) && EmptyOk(was)
    ensures c.Linked() && (OneHand(was) ==> OneHand(c.entries))
    ensures Buffers(c.entries) <= Buffers(was)
    ensures forall k :: 0 <= k < |c.lines| ==> c.lines[k].pid != pid
  {
    hide Separate, EmptyOk, OneHand, Buffers;
    RemainingShape(was, pid);
    forall k | 0 <= k < |was|
      ensures Matches(c.entries[k], c.lines[k]) && c.entries[k].content != c.memory.userMemory
          && c.lines[k].pid != pid {
      assert Matches(was[k], lines[k]);
    }
  }

  lemma RemainingShape(was: seq<CacheEntry>, pid: nat)
    requires Separate(was) && EmptyOk(was)
    ensures Separate(Remaining(was, pid)) && EmptyOk(Remaining(was, pid))
    ensures OneHand(was) ==> OneHand(Remaining(was, pid))
    ensures Buffers(Remaining(was, pid)) <= Buffers(was)
  {
    assert forall k :: 0 <= k < |was| ==> was[k] in was;
  }

  /** A third process does not miss the lines that go. */
  lemma RemainingOther(m: Mem, lines: seq<Line>, pid: nat, r: nat)
    requires PidSound(Snap(m, lines), r) && r != pid
    ensures var b := Snap(m, RemainingLines(lines, pid)); PidSound(b, r) && SeenIn(b, r) == SeenIn(Snap(m, lines), r)
  {
    var next, pages := RemainingLines(lines, pid), MemPages(m, r);
    forall k | 0 <= k < |lines| && next[k].pid == r ensures next[k] == lines[k] && LineOk(m.cfg, pages, lines[k]) {
    }
    forall i | 0 <= i < |pages|
      ensures SeenPage(m.cfg, pages, next, r, i) == SeenPage(m.cfg, pages, lines, r, i) {
      SameFind(m.cfg, lines, next, pid, r, i);
    }
  }

  lemma SameFind(cfg: Config, lines: seq<Line>, next: seq<Line>, pid: nat, r: nat, i: nat)
    requires r != pid && next == RemainingLines(lines, pid)
    ensures FindLine(cfg, next, r, i) == FindLine(cfg, lines, r, i)
  {
    var x, y := FindLine(cfg, lines, r, i), FindLine(cfg, next, r, i);
    assert forall j :: 0 <= j < |lines| ==> (Holds(cfg, lines[j], r, i) <==> Holds(cfg, next[j], r, i));
  }

  /** The process's own bookkeeping once all its lines are in memory. */
  lemma ForgetFacts(was: Snap, now: Snap, pid: nat)
    requires Quiet(was, now) && PidSound(was, pid)
    requires SettledTo(now.m.cfg, MemPages(now.m, pid), now.lines, pid, |now.lines|)
    ensures var b := Snap(now.m, RemainingLines(now.lines, pid));
            PidSound(b, pid) && SeenIn(b, pid) == SeenIn(was, pid) == MemPages(now.m, pid) && Confined(was, b, pid)
  {
    var b := Snap(now.m, RemainingLines(now.lines, pid));
    SettledView(now.m.cfg, MemPages(now.m, pid), now.lines, pid);
    NoLinesView(now.m.cfg, MemPages(now.m, pid), b.lines, pid);
    RemainingConfined(was, now, pid);
  }

  lemma RemainingConfined(was: Snap, now: Snap, pid: nat)
    requires Quiet(was, now)
    ensures Confined(was, Snap(now.m, RemainingLines(now.lines, pid)), pid)
  {
    hide PidSound, SeenIn;
    var b := Snap(now.m, RemainingLines(now.lines, pid));
    forall r: nat | r != pid && PidSound(was, r) ensures PidSound(b, r) && SeenIn(b, r) == SeenIn(was, r) {
      RemainingOther(now.m, now.lines, pid, r);
    }
    forall k | 0 <= k < |b.lines| && b.lines[k].pid >= 0 && b.lines[k].pid != pid
      ensures HasLine(was.lines, b.lines[k].pid, b.lines[k].page) {
      assert was.lines[k] == b.lines[k];
    }
  }

  /** EndProcess: memory takes what the process saw through the cache, no entry of
      it remains, and the entries and pages of every other process stay. */
  method EndProcess(c: Cpu, pid: nat)
    requires c.Coherent(pid) && c.Linked()
    modifies c`entries, c`lines, c.tlb, c.memory.userMemory
    ensures MemPages(c.memory.Model(), pid) == old(c.Seen(pid))
    ensures Confined(old(c.Now()), c.Now(), pid)
    ensures c.entries == Remaining(old(c.entries), pid) && c.lines == RemainingLines(old(c.lines), pid)
    ensures c.Coherent(pid) && c.Seen(pid) == old(c.Seen(pid)) && c.Linked()
    ensures OneHand(old(c.entries)) ==> OneHand(c.entries)
    ensures Buffers(c.entries) <= old(Buffers(c.entries))
  {
    hide Inv, Separate, EmptyOk, PidSound, SeenIn, SettledTo, Quiet, Confined, Remaining, RemainingLines;
    ghost var now, was, lines := c.Now(), c.entries, c.lines;
    var next: seq<CacheEntry> := [];
    SettledNone(c.memory.cfg, MemPages(now.m, pid), lines, pid);
    QuietItself(now);
    RemainingAll(was, pid);
    for k := 0 to |c.entries|
      invariant c.entries == was && c.lines == lines && next == Remaining(was, pid)[..k]
      invariant c.Coherent(pid) && c.Linked() && Quiet(now, c.Now())
      invariant SettledTo(c.memory.cfg, MemPages(c.memory.Model(), pid), c.lines, pid, k)
    {
      SettleNext(c, k, pid, now);
      RemainingNext(was, pid, k);
      next := next + [if c.entries[k].pid == pid then Gone() else c.entries[k]];
    }
    ForgetFacts(now, c.Now(), pid);
    c.entries := next;
    c.lines := RemainingLines(lines, pid);
    LinkRemaining(c, was, lines, pid);
  }

  lemma SettledNone(cfg: Config, pages: Image, lines: seq<Line>, pid: nat)
    ensures SettledTo(cfg, pages, lines, pid, 0)
  {
  }
}
