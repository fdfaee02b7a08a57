/** The requests of the memory module as functions on its state, and what every
    request keeps: the allocator's books, and the image of every other process. */
module Requests {
  import opened Wrappers
  import opened Addressing
  import opened Pages
  import opened Frames
  import opened SwapText
  import opened Memory

  // ---- Allocation

  /** allocateMemory: the first free frames, or why there are none. */
  function Allocate(m: Mem, size: nat): (r: (Mem, Result<seq<int>>))
    requires m.cfg.Ok()
    ensures r.1.Ok? ==> |r.1.value| == PagesFor(size, m.cfg.pageSize) && BasesOk(m, r.1.value)
  {
    if size > m.remaining then (m, Err(NotEnoughMemory))
    else
      var n := PagesFor(size, m.cfg.pageSize);
      var left := m.remaining - m.cfg.pageSize * n;
      if left < 0 then (m.(remaining := left), Err(Panic))
      else
        var frames := FirstFree(m.reserved, 0, n);
        var next := m.(remaining := left, reserved := Set(m.reserved, frames, true));
        if |frames| < n then (next, Err(Unreachable))
        else BasesOfOk(frames, m.cfg.pageSize, |m.reserved|); (next, Ok(BasesOf(frames, m.cfg.pageSize)))
  }

  /** deallocateMemory: the table's frames become free; the table itself stays. */
  function Release(m: Mem, bases: seq<int>): Mem
    requires Shape(m) && BasesOk(m, bases)
  {
    FramesWithin(bases, m.cfg.pageSize, |m.reserved|);
    m.(reserved := Set(m.reserved, FramesOf(bases, m.cfg.pageSize), false),
       remaining := m.remaining + |bases| * m.cfg.pageSize)
  }

  // ---- Requests

  const OPCODES: set<string> := {"NOOP", "EXIT", "WRITE", "READ", "GOTO", "IO", "INIT_PROC", "DUMP_MEMORY"}

  /** A line of pseudocode, split at blanks: an opcode and at most two arguments. */
  predicate StatementOk(parts: seq<string>) { 1 <= |parts| <= 3 && parts[0] in OPCODES }

  predicate ProgramOk(lines: seq<seq<string>>) {
    forall i :: 0 <= i < |lines| ==> StatementOk(lines[i])
  }

  function ParseProgram(lines: seq<seq<string>>): (r: seq<Instruction>)
    requires ProgramOk(lines)
  {
    seq(|lines|, i requires 0 <= i < |lines| => Instruction(lines[i][0], lines[i][1..]))
  }

  function Create(m: Mem, pid: nat, lines: seq<seq<string>>, size: nat): (Mem, Option<Error>)
    requires m.cfg.Ok()
  {
    if size > m.remaining then (m, Some(NotEnoughMemory))
    else if !ProgramOk(lines) then (m, Some(BadProgram))
    else if size == 0 then (m.(procs := m.procs + [ProcessData(pid, ParseProgram(lines), [])]), None)
    else
      var (next, r) := Allocate(m, size);
      match r
      case Err(e) => (next, Some(e))
      case Ok(bases) => (next.(procs := m.procs + [ProcessData(pid, ParseProgram(lines), bases)]), None)
  }

  /** The slice deletion of Deallocate: the last process takes the freed place. */
  function RemoveProc(procs: seq<ProcessData>, i: nat): seq<ProcessData>
    requires i < |procs|
  {
    procs[i := procs[|procs| - 1]][..|procs| - 1]
  }

  function Delete(m: Mem, pid: nat): (Mem, Option<Error>)
    requires Shape(m)
  {
    var i := FindProc(m.procs, pid);
    if i == |m.procs| then (m, Some(NoProcess))
    else (Release(m, m.procs[i].pageBases).(procs := RemoveProc(m.procs, i)), None)
  }

  function WritePage(m: Mem, pid: nat, base: int, value: Page): (Mem, Option<Error>)
    requires Shape(m)
  {
    if |value| != m.cfg.pageSize then (m, Some(BadLength))
    else if !Exists(m, pid) then (m, Some(NoProcess))
    else if base !in Table(m, pid) then (m, Some(NoPage))
    else
      BaseBounds(base, m.cfg.pageSize, |m.reserved|);
      (m.(bytes := Splice(m.bytes, base, value)), None)
  }

  function Suspend(m: Mem, pid: nat): (Mem, Option<Error>)
    requires Shape(m)
  {
    if !Exists(m, pid) then (m, Some(NoProcess))
    else if Table(m, pid) == [] then (m, None)
    else
      TableOk(m, pid);
      (Release(m, Table(m, pid)).(blocks := m.blocks + [Block(pid, MemPages(m, pid))]), None)
  }

  /** The page loop of UnSuspendProcess. */
  function WriteAll(bytes: seq<byte>, size: nat, bases: seq<int>, pages: Image): (r: seq<byte>)
    requires |bases| == |pages| && Uniform(pages, size)
    requires forall j :: 0 <= j < |bases| ==> 0 <= bases[j] && bases[j] + size <= |bytes|
    ensures |r| == |bytes|
  {
    if bases == [] then bytes
    else
      var n := |bases| - 1;
      Splice(WriteAll(bytes, size, bases[..n], pages[..n]), bases[n], pages[n])
  }

  lemma BasesInMemory(m: Mem, bases: seq<int>)
    requires Shape(m) && BasesOk(m, bases)
    ensures forall j :: 0 <= j < |bases| ==> 0 <= bases[j] && bases[j] + m.cfg.pageSize <= |m.bytes|
  {
    forall j | 0 <= j < |bases| ensures 0 <= bases[j] && bases[j] + m.cfg.pageSize <= |m.bytes| {
      BaseBounds(bases[j], m.cfg.pageSize, |m.reserved|);
    }
  }

  /** The block comes back into the given frames and leaves the swap file. */
  function Restore(m: Mem, i: nat, k: nat, bases: seq<int>): Mem
    requires Shape(m) && i < |m.procs| && k < |m.blocks| && Uniform(m.blocks[k].pages, m.cfg.pageSize)
    requires BasesOk(m, bases) && |bases| == |m.blocks[k].pages|
  {
    BasesInMemory(m, bases);
    m.(procs := m.procs[i := m.procs[i].(pageBases := bases)],
       blocks := m.blocks[..k] + m.blocks[k + 1..],
       bytes := WriteAll(m.bytes, m.cfg.pageSize, bases, m.blocks[k].pages))
  }

  function Unsuspend(m: Mem, pid: nat): (Mem, Option<Error>)
    requires Shape(m) && SwapOk(m)
  {
    var i, k := FindProc(m.procs, pid), FindBlock(m.blocks, pid);
    if i == |m.procs| then (m, Some(NoProcess))
    else if m.procs[i].pageBases == [] then (m, None)
    else if k == |m.blocks| then (m, Some(Eof))
    else
      PagesForExact(|m.blocks[k].pages|, m.cfg.pageSize);
      var (next, r) := Allocate(m, m.cfg.pageSize * |m.blocks[k].pages|);
      match r
      case Err(e) => (next, Some(e))
      case Ok(bases) => (Restore(m, i, k, bases).(reserved := next.reserved, remaining := next.remaining), None)
  }

  // ---- The allocator

  /** Exactly when allocation succeeds, and exactly when it panics. */
  lemma AllocateOutcome(m: Mem, size: nat)
    requires AllocOk(m) && size > 0
    ensures Allocate(m, size).1 == Err(NotEnoughMemory) <==> size > m.remaining
    ensures Allocate(m, size).1 == Err(Panic) <==> CountFree(m.reserved) * m.cfg.pageSize < size <= m.remaining
    ensures Allocate(m, size).1 != Err(Unreachable)
  {
    var ps, free, n := m.cfg.pageSize, CountFree(m.reserved), PagesFor(size, m.cfg.pageSize);
    PagesForBounds(size, ps);
    FirstFreeCount(m.reserved, 0, n);
    assert m.reserved[..0] == [];
    assert size <= free * ps <==> n <= free;
    SlackBelowPage(free, n, ps, Slack(m));
  }

  /** The leftover never makes up for a missing page. */
  lemma SlackBelowPage(free: nat, n: nat, size: nat, slack: nat)
    requires slack < size
    ensures free * size + slack - size * n < 0 <==> n > free
  {
    MulGap(n - free, size);
    assert (n - free) * size == size * n - free * size;
    if n <= free {
      MulMonotone(n, free, size);
    }
  }
}
