/** Two CPUs over one memory module, each with its own TLB and cache. */
module TwoCpus {
  import opened Wrappers
  import opened Pages
  import opened Memory
  import opened Keeps
  import opened Storage
  import opened Clock
  import opened Coherence
  import opened CpuState
  import opened CacheAccess
  import opened FlatMachine
  import Tlb

  /** The caches have no buffer and no process in common, and neither CPU runs a
      process that is in the other's cache. */
  ghost predicate Beside(c: Cpu, d: Cpu)
    reads c, d, Buffers(c.entries), Buffers(d.entries)
  {
    && c != d && c.memory == d.memory && c.tlb != d.tlb && c.pid != d.pid
    && Buffers(c.entries) !! Buffers(d.entries)
    && NoLine(c.lines, d.pid) && NoLine(d.lines, c.pid)
    && LinesApart(c.lines, d.lines)
  }

  predicate LinesApart(a: seq<Line>, b: seq<Line>) {
    forall k :: 0 <= k < |a| && a[k].pid >= 0 ==> NoLine(b, a[k].pid)
  }

  /** Confined work changes no page of a process that it has no line of. */
  lemma PagesStay(a: Snap, b: Snap, pid: nat, q: nat)
    requires Confined(a, b, pid) && q != pid && NoLine(a.lines, q)
    requires Exists(a.m, q) && Resident(a.m, q)
    ensures MemPages(b.m, q) == MemPages(a.m, q)
  {
    NoLinesView(a.m.cfg, MemPages(a.m, q), a.lines, q);
    assert PidSound(a, q);
    forall k | 0 <= k < |b.lines| ensures b.lines[k].pid != q {
      LacksLine(a.lines, q, b.lines[k].page);
    }
    NoLinesView(b.m.cfg, MemPages(b.m, q), b.lines, q);
  }

  lemma LacksLine(lines: seq<Line>, q: nat, page: seq<int>)
    requires NoLine(lines, q)
    ensures !HasLine(lines, q, page)
  {
  }

  /** So what that process's lines in another cache owe it stays right. */
  lemma SoundBeside(a: Snap, b: Snap, pid: nat, lines: seq<Line>, q: nat)
    requires Confined(a, b, pid) && q != pid && NoLine(a.lines, q) && PidSound(Snap(a.m, lines), q)
    ensures PidSound(Snap(b.m, lines), q) && SeenIn(Snap(b.m, lines), q) == SeenIn(Snap(a.m, lines), q)
  {
    PagesStay(a, b, pid, q);
  }

  /** The other CPU's whole cache stays sound, and out of its process's way. */
  lemma CacheBeside(a: Snap, b: Snap, pid: nat, lines: seq<Line>, q: nat)
    requires Confined(a, b, pid) && q != pid && NoLine(a.lines, q) && NoLine(lines, pid) && LinesApart(a.lines, lines)
    requires Sound(Snap(a.m, lines), q) && NoClash(Snap(a.m, lines), q)
    ensures Sound(Snap(b.m, lines), q) && NoClash(Snap(b.m, lines), q)
    ensures SeenIn(Snap(b.m, lines), q) == SeenIn(Snap(a.m, lines), q)
  {
    hide PidSound, SeenIn, Confined;
    SoundBeside(a, b, pid, lines, q);
    forall k | 0 <= k < |lines| && lines[k].pid >= 0
      ensures PidSound(Snap(b.m, lines), lines[k].pid) && (lines[k].pid != q ==> !Mapped(b.m, q, lines[k].page)) {
      NoLineBack(a.lines, lines, lines[k].pid, k);
      SoundBeside(a, b, pid, lines, lines[k].pid);
      ConfinedMapped(a, b, pid, lines[k].page);
      MappedBeside(a, b, pid, q, lines[k].page);
    }
  }

  lemma NoLineBack(a: seq<Line>, lines: seq<Line>, q: nat, k: nat)
    requires LinesApart(a, lines) && k < |lines| && lines[k].pid == q
    ensures NoLine(a, q)
  {
  }

  lemma MappedBeside(a: Snap, b: Snap, pid: nat, q: nat, page: seq<int>)
    requires Confined(a, b, pid)
    ensures Mapped(b.m, q, page) <==> Mapped(a.m, q, page)
  {
    MappedSame(a.m, b.m, q, page);
  }

  /** Page tables that stay keep the other TLB right. */
  lemma TlbBeside(m: Mem, next: Mem, entries: seq<Tlb.Entry>, capacity: nat)
    requires next == m.(bytes := next.bytes) && Tlb.TlbOk(m, entries, capacity)
    ensures Tlb.TlbOk(next, entries, capacity)
  {
    forall i | 0 <= i < |entries| && Exists(m, entries[i].pid)
      ensures FrameOf(next, entries[i].pid, entries[i].page) == Ok(entries[i].frame) {
      MappedSame(m, next, entries[i].pid, entries[i].page);
    }
  }

  /** The lines after confined work are those of the process and those there were. */
  lemma LinesBeside(a: Snap, b: Snap, pid: nat, lines: seq<Line>, q: nat)
    requires Confined(a, b, pid) && q != pid && NoLine(a.lines, q) && NoLine(lines, pid) && LinesApart(a.lines, lines)
    ensures NoLine(b.lines, q) && LinesApart(b.lines, lines)
  {
    hide PidSound, SeenIn;
    forall k | 0 <= k < |b.lines|
      ensures b.lines[k].pid != q && (b.lines[k].pid >= 0 ==> NoLine(lines, b.lines[k].pid)) {
      if b.lines[k].pid >= 0 && b.lines[k].pid != pid {
        assert HasLine(a.lines, b.lines[k].pid, b.lines[k].page);
        var j :| 0 <= j < |a.lines| && a.lines[j].pid == b.lines[k].pid && a.lines[j].page == b.lines[k].page;
      }
    }
  }

  /** One instruction on one CPU: the other one stays ready and sees no difference. */
  method ExecBeside(c: Cpu, d: Cpu, x: Operation, spare: seq<byte>) returns (output: seq<seq<byte>>)
    requires c.Ready() && d.Ready() && Beside(c, d)
    requires Legal(c.memory.cfg, Reach(c.memory.cfg, |c.Seen(c.pid)|), c.cacheEnable, x)
    modifies c`entries, c`lines, c.tlb, c.memory.userMemory, Buffers(c.entries)
    ensures c.Ready() && d.Ready() && Beside(c, d) && fresh(Buffers(c.entries) - old(Buffers(c.entries)))
    ensures |c.Seen(c.pid)| == |old(c.Seen(c.pid))| && |d.Seen(d.pid)| == |old(d.Seen(d.pid))|
    ensures FlatSeen(c) == FlatStep(old(FlatSeen(c)), x) && output == FlatOutput(old(FlatSeen(c)), x)
    ensures FlatSeen(d) == old(FlatSeen(d))
  {
    hide SeenIn, PidSound, Sound, NoClash, Confined, Inv, EmptyOk, Matches, Separate, Legal, Reach, Flatten, FlatStep,
         FlatOutput, NoLine, LinesApart, OneHand;
    ghost var was, theirs := c.Now(), Buffers(d.entries);
    OutsideMemory(d);
    Unmoved(c);
    output := Exec(c, x, spare, was);
    ghost var now := c.Now();
    CacheBeside(was, now, c.pid, d.lines, d.pid);
    LinesBeside(was, now, c.pid, d.lines, d.pid);
    StillBytes(was, now, c.pid);
    TlbBeside(was.m, now.m, d.tlb.entries, d.tlb.capacity);
    assert Buffers(c.entries) !! theirs;
  }

  lemma StillBytes(a: Snap, b: Snap, pid: nat)
    requires Confined(a, b, pid)
    ensures b.m == a.m.(bytes := b.m.bytes)
  {
  }

  // ---- Any interleaving

  /** One instruction of the first CPU, or of the second. */
  datatype Turn = Turn(first: bool, x: Operation)

  /** What one of the two executes. */
  function Share(turns: seq<Turn>, first: bool): seq<Operation> {
    if turns == [] then []
    else
      var t := turns[|turns| - 1];
      Share(turns[..|turns| - 1], first) + if t.first == first then [t.x] else []
  }

  ghost predicate LegalShare(c: Cpu, turns: seq<Turn>, first: bool)
    requires c.memory.Wired()
    reads c, c.memory, c.memory.userMemory, c.memory.reservationBits
  {
    forall k :: 0 <= k < |turns| && turns[k].first == first ==>
      Legal(c.memory.cfg, Reach(c.memory.cfg, |c.Seen(c.pid)|), c.cacheEnable, turns[k].x)
  }

  /** One more turn is one more instruction of its CPU's share. */
  lemma ShareOn(flat: seq<byte>, turns: seq<Turn>, first: bool, k: nat)
    requires k < |turns|
    ensures var (before, outputs) := FlatRun(flat, Share(turns[..k], first));
            FlatRun(flat, Share(turns[..k + 1], first))
            == if turns[k].first == first then (FlatStep(before, turns[k].x), outputs + FlatOutput(before, turns[k].x))
               else (before, outputs)
  {
    assert turns[..k + 1][..k] == turns[..k];
    var share := Share(turns[..k], first);
    if turns[k].first == first {
      assert (share + [turns[k].x])[..|share|] == share;
    } else {
      assert share + [] == share;
    }
  }

  lemma BesideSwap(c: Cpu, d: Cpu)
    requires Beside(c, d)
    ensures Beside(d, c)
  {
  }

  /** Turn k: the flat array of the CPU whose turn it is makes a step. */
  method TakeTurn(c: Cpu, d: Cpu, turns: seq<Turn>, k: nat, spare: seq<byte>) returns (output: seq<seq<byte>>)
    requires c.Ready() && d.Ready() && Beside(c, d) && k < |turns| && LegalShare(c, turns, true)
        && LegalShare(d, turns, false)
    modifies c`entries, c`lines, c.tlb, d`entries, d`lines, d.tlb, c.memory.userMemory, Buffers(c.entries),
        Buffers(d.entries)
    ensures c.Ready() && d.Ready() && Beside(c, d) && LegalShare(c, turns, true) && LegalShare(d, turns, false)
    ensures fresh(Buffers(c.entries) - old(Buffers(c.entries))) && fresh(Buffers(d.entries) - old(Buffers(d.entries)))
    ensures FlatSeen(c) == if turns[k].first then FlatStep(old(FlatSeen(c)), turns[k].x) else old(FlatSeen(c))
    ensures FlatSeen(d) == if turns[k].first then old(FlatSeen(d)) else FlatStep(old(FlatSeen(d)), turns[k].x)
    ensures output == FlatOutput(old(FlatSeen(if turns[k].first then c else d)), turns[k].x)
  {
    hide SeenIn, PidSound, Sound, NoClash, Confined, Inv, EmptyOk, Matches, Separate, Legal, Reach, Flatten, FlatStep,
         FlatOutput, NoLine, LinesApart, OneHand, Buffers;
    if turns[k].first {
      output := ExecBeside(c, d, turns[k].x, spare);
    } else {
      BesideSwap(c, d);
      output := ExecBeside(d, c, turns[k].x, spare);
      BesideSwap(d, c);
    }
  }

  /** After the first k turns both CPUs are where their flat arrays are. */
  ghost predicate Shown(c: Cpu, d: Cpu, turns: seq<Turn>, k: nat, a: seq<byte>, b: seq<byte>,
                        mine: seq<seq<byte>>, theirs: seq<seq<byte>>)
    requires k <= |turns|
    reads c, d, c.tlb, d.tlb, c.memory, c.memory.userMemory, c.memory.reservationBits, d.memory, d.memory.userMemory,
          d.memory.reservationBits, Buffers(c.entries), Buffers(d.entries)
  {
    && c.Ready() && d.Ready() && Beside(c, d) && LegalShare(c, turns, true) && LegalShare(d, turns, false)
    && (FlatSeen(c), mine) == FlatRun(a, Share(turns[..k], true))
    && (FlatSeen(d), theirs) == FlatRun(b, Share(turns[..k], false))
  }

  /** One more turn. */
  method ShowTurn(c: Cpu, d: Cpu, turns: seq<Turn>, k: nat, spare: seq<byte>, ghost a: seq<byte>, ghost b: seq<byte>,
                  mine: seq<seq<byte>>, theirs: seq<seq<byte>>)
    returns (mine': seq<seq<byte>>, theirs': seq<seq<byte>>)
    requires k < |turns| && Shown(c, d, turns, k, a, b, mine, theirs)
    modifies c`entries, c`lines, c.tlb, d`entries, d`lines, d.tlb, c.memory.userMemory, Buffers(c.entries),
        Buffers(d.entries)
    ensures Shown(c, d, turns, k + 1, a, b, mine', theirs')
    ensures fresh(Buffers(c.entries) - old(Buffers(c.entries))) && fresh(Buffers(d.entries) - old(Buffers(d.entries)))
  {
    hide SeenIn, PidSound, Sound, NoClash, Inv, EmptyOk, Matches, Separate, Flatten, FlatStep, FlatOutput, FlatRun,
         OneHand, Share, Beside, LegalShare, Buffers;
    ShareOn(a, turns, true, k);
    ShareOn(b, turns, false, k);
    var output := TakeTurn(c, d, turns, k, spare);
    mine' := if turns[k].first then mine + output else mine;
    theirs' := if turns[k].first then theirs else theirs + output;
  }

  /** Two CPUs with different processes, over one memory, in any interleaving of
      their instructions: each reads and leaves what its own flat byte array would. */
  method Interleave(c: Cpu, d: Cpu, turns: seq<Turn>, spare: seq<byte>)
    returns (mine: seq<seq<byte>>, theirs: seq<seq<byte>>)
    requires c.Ready() && d.Ready() && Beside(c, d) && LegalShare(c, turns, true) && LegalShare(d, turns, false)
    modifies c`entries, c`lines, c.tlb, d`entries, d`lines, d.tlb, c.memory.userMemory, Buffers(c.entries),
        Buffers(d.entries)
    ensures c.Ready() && d.Ready() && Beside(c, d)
    ensures FlatSeen(c) == FlatRun(old(FlatSeen(c)), Share(turns, true)).0
    ensures mine == FlatRun(old(FlatSeen(c)), Share(turns, true)).1
    ensures FlatSeen(d) == FlatRun(old(FlatSeen(d)), Share(turns, false)).0
    ensures theirs == FlatRun(old(FlatSeen(d)), Share(turns, false)).1
  {
    hide SeenIn, PidSound, Sound, NoClash, Inv, EmptyOk, Matches, Separate, Flatten, FlatRun, OneHand, Share, Beside,
         LegalShare;
    ghost var a, b := FlatSeen(c), FlatSeen(d);
    NoShare(a, turns, true);
    NoShare(b, turns, false);
    mine, theirs := ShowTurns(c, d, turns, spare, a, b);
    assert turns[..|turns|] == turns;
  }

  /** All of them. */
  method ShowTurns(c: Cpu, d: Cpu, turns: seq<Turn>, spare: seq<byte>, ghost a: seq<byte>, ghost b: seq<byte>)
    returns (mine: seq<seq<byte>>, theirs: seq<seq<byte>>)
    requires Shown(c, d, turns, 0, a, b, [], [])
    modifies c`entries, c`lines, c.tlb, d`entries, d`lines, d.tlb, c.memory.userMemory, Buffers(c.entries),
        Buffers(d.entries)
    ensures Shown(c, d, turns, |turns|, a, b, mine, theirs)
  {
    hide Shown;
    mine, theirs := [], [];
    for k := 0 to |turns|
      invariant Shown(c, d, turns, k, a, b, mine, theirs)
      invariant fresh(Buffers(c.entries) - old(Buffers(c.entries)))
          && fresh(Buffers(d.entries) - old(Buffers(d.entries)))
    {
      mine, theirs := ShowTurn(c, d, turns, k, spare, a, b, mine, theirs);
    }
  }

  lemma NoShare(flat: seq<byte>, turns: seq<Turn>, first: bool)
    ensures FlatRun(flat, Share(turns[..0], first)) == (flat, [])
  {
  }
}
