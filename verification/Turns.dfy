/** Processes taking turns on one CPU, preemption included: the whole hierarchy as
    one flat byte array per process. */
module Turns {
  import opened Wrappers
  import opened Pages
  import opened Memory
  import opened Keeps
  import opened Storage
  import opened Requests
  import opened Frames
  import Tlb
  import opened Coherence
  import opened Clock
  import opened CpuState
  import opened Insertion
  import opened CacheAccess
  import opened FlatMachine
  import opened Preemption

  /** A turn ends by EXIT or a blocking call, which call EndProcess, or by an
      interrupt, which leaves the process's entries in the cache. */
  datatype End = Exits | Interrupted

  /** A turn: a process, what it executes, and how it ends. */
  datatype Turn = Turn(pid: nat, trace: seq<Operation>, end: End)

  /** The turns on flat byte arrays: what they leave and what their reads give. */
  function FlatTurns(flats: map<nat, seq<byte>>, turns: seq<Turn>): (map<nat, seq<byte>>, seq<seq<seq<byte>>>)
    requires forall k :: 0 <= k < |turns| ==> turns[k].pid in flats
    ensures FlatTurns(flats, turns).0.Keys == flats.Keys
  {
    if turns == [] then (flats, [])
    else
      var t := turns[|turns| - 1];
      var (before, outputs) := FlatTurns(flats, turns[..|turns| - 1]);
      var (after, output) := FlatRun(before[t.pid], t.trace);
      (before[t.pid := after], outputs + [output])
  }

  /** The processes whose last turn ended by an interrupt. */
  function Left(turns: seq<Turn>): set<nat> {
    if turns == [] then {}
    else
      var t := turns[|turns| - 1];
      if t.end == Interrupted then Left(turns[..|turns| - 1]) + {t.pid} else Left(turns[..|turns| - 1]) - {t.pid}
  }

  /** An interrupt ended the last turn of pid. */
  ghost predicate LastInterrupted(turns: seq<Turn>, pid: nat) {
    exists i :: 0 <= i < |turns| && turns[i].pid == pid && turns[i].end == Interrupted
                && forall j :: i < j < |turns| ==> turns[j].pid != pid
  }

  lemma OtherTurn(turns: seq<Turn>, pid: nat)
    requires turns != [] && turns[|turns| - 1].pid != pid
    ensures LastInterrupted(turns, pid) <==> LastInterrupted(turns[..|turns| - 1], pid)
  {
    var past := turns[..|turns| - 1];
    assert forall j :: 0 <= j < |past| ==> past[j] == turns[j];
    if LastInterrupted(turns, pid) {
      var i :| 0 <= i < |turns| && turns[i].pid == pid && turns[i].end == Interrupted
               && forall j :: i < j < |turns| ==> turns[j].pid != pid;
      assert past[i].pid == pid;
    }
    if LastInterrupted(past, pid) {
      var i :| 0 <= i < |past| && past[i].pid == pid && past[i].end == Interrupted
               && forall j :: i < j < |past| ==> past[j].pid != pid;
      assert turns[i].pid == pid;
    }
  }

  lemma {:induction false} LeftIff(turns: seq<Turn>, pid: nat)
    ensures pid in Left(turns) <==> LastInterrupted(turns, pid)
  {
    if turns != [] {
      var n := |turns| - 1;
      if turns[n].pid == pid {
        assert turns[n].end == Interrupted ==> LastInterrupted(turns, pid);
      } else {
        LeftIff(turns[..n], pid);
        OtherTurn(turns, pid);
      }
    }
  }

  /** Through memory and cache the processes see these flat arrays. */
  ghost predicate Stands(s: Snap, flats: map<nat, seq<byte>>) {
    forall q :: q in flats ==> PidSound(s, q) && Flatten(SeenIn(s, q)) == flats[q]
  }

  /** Only these processes have lines, and what they left agrees with their pages. */
  ghost predicate LeftBy(s: Snap, left: set<nat>) {
    forall k :: 0 <= k < |s.lines| && s.lines[k].pid >= 0 ==> s.lines[k].pid in left && PidSound(s, s.lines[k].pid)
  }

  /** Between turns: the TLB agrees with the page tables, and the cache holds what
      `left` have left in it. */
  ghost predicate Idle(c: Cpu, left: set<nat>)
    reads c, c.tlb, c.memory, c.memory.userMemory, c.memory.reservationBits, Buffers(c.entries)
  {
    && c.memory.Valid() && c.TlbRight() && c.Linked() && OneHand(c.entries)
    && (c.cacheEnable <==> c.entries != []) && LeftBy(c.Now(), left)
  }

  /** Every turn stays within its process's pages. */
  ghost predicate LegalTurns(m: Mem, cached: bool, turns: seq<Turn>) {
    forall k, j :: 0 <= k < |turns| && 0 <= j < |turns[k].trace| ==>
      Legal(m.cfg, Reach(m.cfg, |Table(m, turns[k].pid)|), cached, turns[k].trace[j])
  }

  /** InitializeUserMemory, and one process created in it. */
  method NewMemory(memorySize: nat, cfg: Config, pid: nat, code: seq<seq<string>>, size: nat)
    returns (memory: Storage, e: Option<Error>)
    requires cfg.Ok() && memorySize % cfg.pageSize == 0
    ensures fresh(memory) && memory.Valid() && memory.cfg == cfg
    ensures e.None? <==> size <= memorySize && ProgramOk(code)
    ensures e.None? ==> Exists(memory.Model(), pid) && Resident(memory.Model(), pid)
                        && |Table(memory.Model(), pid)| == PagesFor(size, cfg.pageSize)
  {
    hide FramesOwned, CountFree, Create;
    memory := new Storage(memorySize, cfg);
    ghost var m := memory.Model();
    CreateKeeps(m, pid, code, size);
    e := memory.CreateProcess(pid, code, size);
    SwappedIff(memory.Model().blocks, pid);
  }

  /** InitializeUserMemory, one process created, InitTLB and InitCache: the CPU is
      idle, and the process is there to be dispatched when memory took it. */
  method StartUp(memorySize: nat, cfg: Config, tlbEntries: nat, tlbReplacement: Tlb.Algorithm, cacheEntries: nat,
                 cacheReplacement: CpuState.Replacement, pid: nat, code: seq<seq<string>>, size: nat)
    returns (c: Cpu, e: Option<Error>)
    requires cfg.Ok() && memorySize % cfg.pageSize == 0
    ensures Idle(c, {})
    ensures e.None? <==> size <= memorySize && ProgramOk(code)
    ensures e.None? ==> PidSound(c.Now(), pid) && |Table(c.memory.Model(), pid)| == PagesFor(size, cfg.pageSize)
  {
    hide Inv, PidSound, Separate, EmptyOk, Matches;
    var memory;
    memory, e := NewMemory(memorySize, cfg, pid, code, size);
    var tlb := new Tlb.Buffer(tlbEntries, tlbReplacement);
    c := new Cpu(memory, tlb, cacheEntries, cacheReplacement, pid);
    BlankLines(c);
    if e.None? {
      NoLines(c.Now(), pid);
    }
  }

  lemma BlankLines(c: Cpu)
    requires c.Linked() && forall k :: 0 <= k < |c.entries| ==> c.entries[k].pid == -1
    ensures forall k :: 0 <= k < |c.lines| ==> c.lines[k].pid == -1
  {
    assert forall k :: 0 <= k < |c.lines| ==> Matches(c.entries[k], c.lines[k]);
  }

  /** A process without lines sees its memory. */
  lemma NoLines(s: Snap, q: nat)
    requires Shape(s.m) && Exists(s.m, q) && Resident(s.m, q)
    requires NoLine(s.lines, q)
    ensures PidSound(s, q) && SeenIn(s, q) == MemPages(s.m, q)
  {
    NoLinesView(s.m.cfg, MemPages(s.m, q), s.lines, q);
  }

  // ---- One turn

  /** A process is dispatched: it sees what it saw when it last ran here. */
  method Dispatch(c: Cpu, pid: nat, ghost left: set<nat>)
    requires Idle(c, left) && PidSound(c.Now(), pid) && NoClash(c.Now(), pid)
    modifies c`pid
    ensures c.pid == pid && c.Ready() && c.Now() == old(c.Now())
  {
    hide PidSound, NoClash;
    c.pid := pid;
  }

  /** A turn of one process leaves the arrays of the others. */
  lemma TurnStands(a: Snap, b: Snap, flats: map<nat, seq<byte>>, pid: nat, after: seq<byte>)
    requires Stands(a, flats) && pid in flats && Confined(a, b, pid)
    requires PidSound(b, pid) && Flatten(SeenIn(b, pid)) == after
    ensures Stands(b, flats[pid := after])
  {
    hide PidSound, SeenIn, Flatten;
    forall q | q in flats && q != pid ensures PidSound(b, q) && Flatten(SeenIn(b, q)) == flats[q] {
      assert PidSound(a, q);
    }
  }

  /** After a turn the cache holds what the process left and what was there. */
  lemma TurnLeft(a: Snap, b: Snap, left: set<nat>, pid: nat)
    requires LeftBy(a, left) && Confined(a, b, pid) && PidSound(b, pid)
    ensures LeftBy(b, left + {pid})
    ensures NoLine(b.lines, pid) ==> LeftBy(b, left - {pid})
  {
    hide PidSound, SeenIn;
    forall k | 0 <= k < |b.lines| && b.lines[k].pid >= 0 && b.lines[k].pid != pid
      ensures b.lines[k].pid in left && PidSound(b, b.lines[k].pid) {
      assert HasLine(a.lines, b.lines[k].pid, b.lines[k].page);
      var j :| 0 <= j < |a.lines| && a.lines[j].pid == b.lines[k].pid && a.lines[j].page == b.lines[k].page;
      assert PidSound(a, a.lines[j].pid);
    }
  }

  /** The same frames, bits, tables and swap file: only bytes may differ. */
  ghost predicate BytesOnly(m: Mem, next: Mem) { next == m.(bytes := next.bytes) }

  /** The instructions of a turn, and its end. */
  method RunTurn(c: Cpu, t: Turn, spare: seq<byte>) returns (output: seq<seq<byte>>)
    requires c.Ready() && c.pid == t.pid && AllLegal(c, t.trace)
    modifies c`entries, c`lines, c.tlb, c.memory.userMemory, Buffers(c.entries)
    ensures c.Ready() && Confined(old(c.Now()), c.Now(), c.pid)
    ensures FlatSeen(c) == FlatRun(old(FlatSeen(c)), t.trace).0 && output == FlatRun(old(FlatSeen(c)), t.trace).1
    ensures t.end == Exits ==> NoLine(c.lines, c.pid)
    ensures fresh(Buffers(c.entries) - old(Buffers(c.entries)))
  {
    hide SeenIn, PidSound, Sound, NoClash, Inv, Confined, Separate, EmptyOk, Legal, Reach, Flatten, FlatRun, OneHand;
    if t.end == Exits {
      output := RunToExit(c, t.trace, spare);
      assert forall k :: 0 <= k < |c.entries| ==> Matches(c.entries[k], c.lines[k]);
    } else {
      output := Ciclo(c, t.trace, spare);
    }
  }

  /** One whole turn: dispatch, the instructions, and then the process leaves the
      cache, or leaves its entries in it. */
  method TakeTurn(c: Cpu, t: Turn, spare: seq<byte>, ghost flats: map<nat, seq<byte>>, ghost left: set<nat>,
      ghost m: Mem)
    returns (output: seq<seq<byte>>)
    requires Idle(c, left) && Stands(c.Now(), flats) && t.pid in flats && BytesOnly(m, c.memory.Model())
    requires NoClash(c.Now(), t.pid)
    requires forall j :: 0 <= j < |t.trace| ==> Legal(m.cfg, Reach(m.cfg, |Table(m, t.pid)|), c.cacheEnable, t.trace[j])
    modifies c`pid, c`entries, c`lines, c.tlb, c.memory.userMemory, Buffers(c.entries)
    ensures Idle(c, if t.end == Interrupted then left + {t.pid} else left - {t.pid}) && BytesOnly(m, c.memory.Model())
    ensures Stands(c.Now(), flats[t.pid := FlatRun(flats[t.pid], t.trace).0])
    ensures output == FlatRun(flats[t.pid], t.trace).1
    ensures fresh(Buffers(c.entries) - old(Buffers(c.entries)))
  {
    hide SeenIn, PidSound, Sound, NoClash, Inv, Separate, EmptyOk, Matches, Legal, Reach, Flatten, FlatRun, FrameOf,
         Confined, LeftBy, OneHand;
    ghost var was := c.Now();
    Dispatch(c, t.pid, left);
    SeenUniform(c);
    output := RunTurn(c, t, spare);
    RunningSound(c);
    ConfinedBytes(was, c.Now(), c.pid);
    TurnStands(was, c.Now(), flats, t.pid, FlatRun(flats[t.pid], t.trace).0);
    TurnLeft(was, c.Now(), left, t.pid);
  }

  lemma ConfinedBytes(a: Snap, b: Snap, pid: nat)
    requires Confined(a, b, pid)
    ensures BytesOnly(a.m, b.m)
  {
  }

  // ---- Any number of turns

  lemma TurnOn(flats: map<nat, seq<byte>>, turns: seq<Turn>, k: nat)
    requires k < |turns| && forall j :: 0 <= j < |turns| ==> turns[j].pid in flats
    ensures turns[k].pid in FlatTurns(flats, turns[..k]).0
    ensures var (before, outputs) := FlatTurns(flats, turns[..k]);
            var (after, output) := FlatRun(before[turns[k].pid], turns[k].trace);
            FlatTurns(flats, turns[..k + 1]) == (before[turns[k].pid := after], outputs + [output])
    ensures var left := Left(turns[..k]);
            Left(turns[..k + 1]) == if turns[k].end == Interrupted then left + {turns[k].pid} else left - {turns[k].pid}
  {
    assert turns[..k + 1][..k] == turns[..k];
  }

  /** A process in the way has been left by a turn. */
  lemma ClashLeft(s: Snap, left: set<nat>, q: nat)
    requires LeftBy(s, left) && !NoClash(s, q)
    ensures !(left <= {q})
  {
  }

  /** Any number of turns of any processes in memory, up to a turn that would find
      another process's entry at one of its page addresses: every read gives, and
      every process sees at the end, what one flat byte array per process would.
      Only entries left by interrupts of other processes can be in the way. */
  method TakeTurns(c: Cpu, turns: seq<Turn>, spare: seq<byte>, ghost flats: map<nat, seq<byte>>)
    returns (outputs: seq<seq<seq<byte>>>, n: nat)
    requires Idle(c, {}) && Stands(c.Now(), flats) && LegalTurns(c.memory.Model(), c.cacheEnable, turns)
    requires forall k :: 0 <= k < |turns| ==> turns[k].pid in flats
    modifies c`pid, c`entries, c`lines, c.tlb, c.memory.userMemory, Buffers(c.entries)
    ensures n <= |turns| && Idle(c, Left(turns[..n])) && BytesOnly(old(c.memory.Model()), c.memory.Model())
    ensures Stands(c.Now(), FlatTurns(flats, turns[..n]).0) && outputs == FlatTurns(flats, turns[..n]).1
    ensures n < |turns| ==> !NoClash(c.Now(), turns[n].pid) && !(Left(turns[..n]) <= {turns[n].pid})
  {
    hide SeenIn, PidSound, NoClash, Inv, Separate, EmptyOk, Matches, Legal, Reach, Flatten, FlatRun, FlatTurns,
         Stands, LeftBy, FrameOf, Left, OneHand;
    ghost var m := c.memory.Model();
    outputs, n := [], 0;
    NoTurns(flats, turns);
    while n < |turns|
      invariant n <= |turns| && fresh(Buffers(c.entries) - old(Buffers(c.entries)))
      invariant Idle(c, Left(turns[..n])) && BytesOnly(m, c.memory.Model())
      invariant Stands(c.Now(), FlatTurns(flats, turns[..n]).0) && outputs == FlatTurns(flats, turns[..n]).1
    {
      var blocked := InTheWay(c, turns[n].pid);
      if blocked {
        ClashLeft(c.Now(), Left(turns[..n]), turns[n].pid);
        return;
      }
      TurnOn(flats, turns, n);
      var output := TakeTurn(c, turns[n], spare, FlatTurns(flats, turns[..n]).0, Left(turns[..n]), m);
      outputs := outputs + [output];
      n := n + 1;
    }
  }

  lemma NoTurns(flats: map<nat, seq<byte>>, turns: seq<Turn>)
    requires forall j :: 0 <= j < |turns| ==> turns[j].pid in flats
    ensures FlatTurns(flats, turns[..0]) == (flats, []) && Left(turns[..0]) == {}
  {
  }

  /** A process whose last turn did not end by an interrupt has left the cache:
      memory itself holds its flat array. */
  lemma GoneStands(s: Snap, flats: map<nat, seq<byte>>, left: set<nat>, q: nat)
    requires Stands(s, flats) && LeftBy(s, left) && q in flats && q !in left
    ensures Flatten(MemPages(s.m, q)) == flats[q]
  {
    hide Flatten;
    assert PidSound(s, q);
    NoLinesView(s.m.cfg, MemPages(s.m, q), s.lines, q);
  }
}
