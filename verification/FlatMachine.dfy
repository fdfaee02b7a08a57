/** cpu/cpu.go: a process's instructions on the CPU, and the flat byte array that
    the whole hierarchy stands for. */
module FlatMachine {
  import opened Wrappers
  import opened Addressing
  import opened Pages
  import opened Memory
  import opened Keeps
  import opened Storage
  import opened Coherence
  import opened CpuState
  import opened Mmu
  import opened Insertion
  import opened CacheAccess
  import opened CacheWrites
  import opened CpuMemory
  import opened DirectReads
  import opened CpuReads
  import EndProcess

  /** The instructions that stay on the CPU; addresses are byte addresses. */
  datatype Operation = Noop | Write(address: nat, value: seq<byte>) | Read(address: nat, size: nat)

  // ---- The flat machine

  /** How far byte addresses reach, given the pages that a process has. */
  function Reach(cfg: Config, pages: nat): nat {
    MulNonNegative(Min(pages, Pow(cfg.entries, cfg.levels)), cfg.pageSize);
    Min(pages, Pow(cfg.entries, cfg.levels)) * cfg.pageSize
  }

  /** In range; and without the cache, a read stays in one page or starts one. */
  predicate Legal(cfg: Config, reach: nat, cached: bool, x: Operation) {
    match x
    case Noop => true
    case Write(a, v) => a < reach && a + |v| <= reach
    case Read(a, n) => a < reach && a + n <= reach
                       && (cached || (cfg.pageSize > 0
                         && (a % cfg.pageSize == 0 || a % cfg.pageSize + n <= cfg.pageSize)))
  }

  function FlatStep(flat: seq<byte>, x: Operation): (r: seq<byte>)
    ensures |r| == |flat|
  {
    if x.Write? && x.address + |x.value| <= |flat| then Splice(flat, x.address, x.value) else flat
  }

  function FlatOutput(flat: seq<byte>, x: Operation): seq<seq<byte>> {
    if x.Read? && x.address + x.size <= |flat| then [flat[x.address..x.address + x.size]] else []
  }

  /** A trace on one flat byte array: what it leaves and what its reads give. */
  function FlatRun(flat: seq<byte>, trace: seq<Operation>): (seq<byte>, seq<seq<byte>>) {
    if trace == [] then (flat, [])
    else
      var (before, outputs) := FlatRun(flat, trace[..|trace| - 1]);
      var x := trace[|trace| - 1];
      (FlatStep(before, x), outputs + FlatOutput(before, x))
  }

  // ---- Byte addresses

  /** The page and offset of a byte address within reach. */
  lemma AddressPage(cfg: Config, pages: nat, address: nat)
    requires cfg.Ok() && address < Reach(cfg, pages)
    ensures var i, top := address / cfg.pageSize, Pow(cfg.entries, cfg.levels);
            0 <= i < pages && i < top && i % top == i && i * cfg.pageSize + address % cfg.pageSize == address
  {
    var i, n := address / cfg.pageSize, Min(pages, Pow(cfg.entries, cfg.levels));
    Division(address, cfg.pageSize);
    if i >= n {
      MulMonotone(n, i, cfg.pageSize);
    }
    Below(i, Pow(cfg.entries, cfg.levels));
  }

  lemma Below(i: nat, top: nat)
    ensures i < top ==> i % top == i
  {
    if i < top {
      DivisionUnique(0, i, i / top, i % top, top);
    }
  }

  /** The digits of a byte address select the table entry of its page, and no
      other digits denote that page. */
  lemma AddressSelects(m: Mem, pid: nat, digits: seq<int>, address: nat)
    requires Shape(m) && Exists(m, pid) && address < Reach(m.cfg, |Table(m, pid)|)
    requires |digits| == m.cfg.levels && InRange(digits, m.cfg.entries)
    requires Value(digits, m.cfg.entries) == (address / m.cfg.pageSize) % Pow(m.cfg.entries, m.cfg.levels)
    ensures 0 <= address / m.cfg.pageSize < |Table(m, pid)|
    ensures FrameOf(m, pid, digits) == Ok(Table(m, pid)[address / m.cfg.pageSize])
    ensures forall other: seq<int> ::
              (|other| == m.cfg.levels && InRange(other, m.cfg.entries)
                && Value(other, m.cfg.entries) == address / m.cfg.pageSize)
              ==> other == digits
  {
    AddressPage(m.cfg, |Table(m, pid)|, address);
    MappedIff(m, pid, digits);
    forall other: seq<int> | |other| == m.cfg.levels && InRange(other, m.cfg.entries)
      && Value(other, m.cfg.entries) == address / m.cfg.pageSize ensures other == digits {
      ValueInjective(other, digits, m.cfg.entries);
    }
  }

  /** FromIntToLogicalAddres and then LogicAddressToFrame: the frame of a byte address. */
  method Locate(memory: Storage, pid: nat, address: nat) returns (frame: Result<int>)
    requires memory.Wired() && Shape(memory.Model()) && Exists(memory.Model(), pid)
    requires address < Reach(memory.cfg, |Table(memory.Model(), pid)|)
    ensures 0 <= address / memory.cfg.pageSize < |Table(memory.Model(), pid)|
    ensures frame == Ok(Table(memory.Model(), pid)[address / memory.cfg.pageSize])
  {
    var digits := FromIntToLogicalAddres(address, memory.cfg.pageSize, memory.cfg.entries, memory.cfg.levels);
    AddressSelects(memory.Model(), pid, digits[..memory.cfg.levels], address);
    frame := memory.LogicAddressToFrame(pid, digits[..memory.cfg.levels]);
  }

  /** What an in-range access needs to know about its address. */
  lemma AccessFits(c: Cpu, address: seq<int>, a: nat, n: nat)
    requires c.Ready() && |address| == c.memory.cfg.levels + 1
    requires a < Reach(c.memory.cfg, |c.Seen(c.pid)|) && a + n <= Reach(c.memory.cfg, |c.Seen(c.pid)|)
    requires var cfg := c.memory.cfg;
             InRange(address[..cfg.levels], cfg.entries) && address[cfg.levels] == a % cfg.pageSize
             && Value(address[..cfg.levels], cfg.entries) == (a / cfg.pageSize) % Pow(cfg.entries, cfg.levels)
    ensures var cfg, i := c.memory.cfg, a / c.memory.cfg.pageSize;
            && address[..|address| - 1] == address[..cfg.levels]
            && Mapped(c.memory.Model(), c.pid, address[..cfg.levels])
            && Value(address[..cfg.levels], cfg.entries) == i && i * cfg.pageSize + a % cfg.pageSize == a
            && NoWrap(|c.Seen(c.pid)|, cfg.pageSize, Top(cfg), i, a % cfg.pageSize + n)
            && FitsFrom(|c.Seen(c.pid)|, cfg.pageSize, Top(cfg), i, a % cfg.pageSize + n)
    ensures a + n <= |Flatten(c.Seen(c.pid))| == |c.Seen(c.pid)| * c.memory.cfg.pageSize
  {
    hide SeenIn, PidSound, Sound, NoClash, FitsFrom, Flatten;
    SeenUniform(c);
    var cfg, pages := c.memory.cfg, |c.Seen(c.pid)|;
    AddressPage(cfg, pages, a);
    RunningThere(c);
    AddressSelects(c.memory.Model(), c.pid, address[..cfg.levels], a);
    MulMonotone(Min(pages, Top(cfg)), pages, cfg.pageSize);
    MulMonotone(Min(pages, Top(cfg)), Top(cfg), cfg.pageSize);
    FlattenLength(c.Seen(c.pid), cfg.pageSize);
    FitsPlain(pages, cfg.pageSize, Top(cfg), a / cfg.pageSize, a % cfg.pageSize + n);
  }

  lemma RunningThere(c: Cpu)
    requires c.Ready()
    ensures Shape(c.memory.Model()) && Exists(c.memory.Model(), c.pid)
  {
  }

  // ---- Instructions on the CPU

  /** The flat byte array that the running process sees. */
  ghost function FlatSeen(c: Cpu): seq<byte>
    requires c.memory.Wired()
    reads c, c.memory, c.memory.userMemory, c.memory.reservationBits
  {
    Flatten(c.Seen(c.pid))
  }

  /** A paged write, seen flat. */
  lemma WriteFlat(cfg: Config, seen: Image, i: nat, at: nat, a: nat, value: seq<byte>)
    requires cfg.Ok() && Uniform(seen, cfg.pageSize) && i < |seen| && at < cfg.pageSize
    requires i * cfg.pageSize + at == a && NoWrap(|seen|, cfg.pageSize, Top(cfg), i, at + |value|)
    requires a + |value| <= |Flatten(seen)|
    ensures Flatten(WriteFrom(seen, cfg.pageSize, Top(cfg), i, at, value)) == FlatStep(Flatten(seen), Write(a, value))
  {
    hide Flatten, WritePages, WriteFrom, Splice;
    WritePlain(seen, cfg.pageSize, Top(cfg), i, at, value);
    WriteIsFlat(seen, cfg.pageSize, i, at, value);
    assert value[..|value|] == value;
  }

  /** WRITE. */
  method ExecWrite(c: Cpu, a: nat, value: seq<byte>) returns (status: int)
    requires c.Ready() && Legal(c.memory.cfg, Reach(c.memory.cfg, |c.Seen(c.pid)|), c.cacheEnable, Write(a, value))
    modifies c`entries, c`lines, c.tlb, c.memory.userMemory, Buffers(c.entries)
    ensures c.Ready() && Confined(old(c.Now()), c.Now(), c.pid)
    ensures fresh(Buffers(c.entries) - old(Buffers(c.entries)))
    ensures status == 0 && |c.Seen(c.pid)| == |old(c.Seen(c.pid))|
    ensures FlatSeen(c) == FlatStep(old(FlatSeen(c)), Write(a, value))
  {
    hide SeenIn, PidSound, Sound, NoClash, Inv, Confined, Separate, EmptyOk, Matches, FrameOf, Reach, WriteFrom,
         FitsFrom, NoWrap, Flatten, FlatStep;
    var address := FromIntToLogicalAddres(a, c.memory.cfg.pageSize, c.memory.cfg.entries, c.memory.cfg.levels);
    AccessFits(c, address, a, |value|);
    ghost var seen := c.Seen(c.pid);
    var ok := WriteMemory(c, address, value);
    WriteFlat(c.memory.cfg, seen, a / c.memory.cfg.pageSize, a % c.memory.cfg.pageSize, a, value);
    status := if ok then 0 else -1;
  }

  /** READ. */
  method ExecRead(c: Cpu, a: nat, size: nat, spare: seq<byte>) returns (reply: Reply)
    requires c.Ready() && Legal(c.memory.cfg, Reach(c.memory.cfg, |c.Seen(c.pid)|), c.cacheEnable, Read(a, size))
    modifies c`entries, c`lines, c.tlb, c.memory.userMemory
    ensures c.Ready() && Confined(old(c.Now()), c.Now(), c.pid) && c.Seen(c.pid) == old(c.Seen(c.pid))
    ensures fresh(Buffers(c.entries) - old(Buffers(c.entries)))
    ensures a + size <= |FlatSeen(c)| && reply == Content(FlatSeen(c)[a..a + size])
  {
    hide SeenIn, PidSound, Sound, NoClash, Inv, Confined, Separate, EmptyOk, Matches, FrameOf, Reach, NoWrap,
         FitsFrom, Flatten, DirectRead, PagedReply;
    var address := FromIntToLogicalAddres(a, c.memory.cfg.pageSize, c.memory.cfg.entries, c.memory.cfg.levels);
    AccessFits(c, address, a, size);
    reply := ReadMemory(c, address, size, spare);
    PagedIsFlat(c.Seen(c.pid), c.memory.cfg.pageSize, Top(c.memory.cfg), a / c.memory.cfg.pageSize,
      a % c.memory.cfg.pageSize, size);
  }

  /** exec for the instructions that stay on the CPU: one step of the flat machine. */
  method Exec(c: Cpu, x: Operation, spare: seq<byte>, ghost was: Snap) returns (output: seq<seq<byte>>)
    requires c.Ready() && Legal(c.memory.cfg, Reach(c.memory.cfg, |c.Seen(c.pid)|), c.cacheEnable, x)
    requires Confined(was, c.Now(), c.pid)
    modifies c`entries, c`lines, c.tlb, c.memory.userMemory, Buffers(c.entries)
    ensures c.Ready() && Confined(was, c.Now(), c.pid)
    ensures fresh(Buffers(c.entries) - old(Buffers(c.entries))) && |c.Seen(c.pid)| == |old(c.Seen(c.pid))|
    ensures FlatSeen(c) == FlatStep(old(FlatSeen(c)), x) && output == FlatOutput(old(FlatSeen(c)), x)
  {
    hide SeenIn, PidSound, Sound, NoClash, Inv, Confined, Separate, EmptyOk, Matches, Reach, Flatten;
    output := [];
    ghost var mid := c.Now();
    match x {
      case Noop =>
      case Write(a, value) =>
        var status := ExecWrite(c, a, value);
        ConfinedTransitive(was, mid, c.Now(), c.pid);
      case Read(a, size) =>
        var reply := ExecRead(c, a, size, spare);
        ConfinedTransitive(was, mid, c.Now(), c.pid);
        output := [reply.bytes];
    }
  }

  ghost predicate AllLegal(c: Cpu, trace: seq<Operation>)
    requires c.memory.Wired()
    reads c, c.memory, c.memory.userMemory, c.memory.reservationBits
  {
    forall k :: 0 <= k < |trace| ==> Legal(c.memory.cfg, Reach(c.memory.cfg, |c.Seen(c.pid)|), c.cacheEnable, trace[k])
  }

  lemma RunOn(flat: seq<byte>, trace: seq<Operation>, k: nat)
    requires k < |trace|
    ensures var (before, outputs) := FlatRun(flat, trace[..k]);
            FlatRun(flat, trace[..k + 1]) == (FlatStep(before, trace[k]), outputs + FlatOutput(before, trace[k]))
  {
    assert trace[..k + 1][..k] == trace[..k];
  }

  /** ciclo over the instructions that a process executes, in order. With any cache
      size, either replacement policy and any TLB, it reads and leaves what one
      flat byte array would, and no other process sees a difference: neither in
      memory nor through what it left in the cache. */
  method Ciclo(c: Cpu, trace: seq<Operation>, spare: seq<byte>) returns (outputs: seq<seq<byte>>)
    requires c.Ready() && AllLegal(c, trace)
    modifies c`entries, c`lines, c.tlb, c.memory.userMemory, Buffers(c.entries)
    ensures c.Ready() && Confined(old(c.Now()), c.Now(), c.pid)
    ensures fresh(Buffers(c.entries) - old(Buffers(c.entries)))
    ensures FlatSeen(c) == FlatRun(old(FlatSeen(c)), trace).0 && outputs == FlatRun(old(FlatSeen(c)), trace).1
  {
    hide SeenIn, PidSound, Sound, NoClash, Inv, Confined, Separate, EmptyOk, Matches, Legal, Reach, Flatten, FlatRun,
         FlatStep, FlatOutput;
    ghost var was, n, flat := c.Now(), |c.Seen(c.pid)|, FlatSeen(c);
    outputs := [];
    Unmoved(c);
    RunNone(flat, trace);
    for k := 0 to |trace|
      invariant c.Ready() && Confined(was, c.Now(), c.pid) && |c.Seen(c.pid)| == n
      invariant fresh(Buffers(c.entries) - old(Buffers(c.entries)))
      invariant FlatSeen(c) == FlatRun(flat, trace[..k]).0 && outputs == FlatRun(flat, trace[..k]).1
    {
      RunOn(flat, trace, k);
      var output := Exec(c, trace[k], spare, was);
      outputs := outputs + output;
    }
    assert trace[..|trace|] == trace;
  }

  lemma RunNone(flat: seq<byte>, trace: seq<Operation>)
    ensures FlatRun(flat, trace[..0]) == (flat, [])
  {
  }

  /** A process's turn on the CPU up to EXIT or a blocking call, which take it out
      of the cache: afterwards the memory module itself holds what the flat machine
      leaves, and the cache holds nothing of it. */
  method RunToExit(c: Cpu, trace: seq<Operation>, spare: seq<byte>) returns (outputs: seq<seq<byte>>)
    requires c.Ready() && AllLegal(c, trace)
    modifies c`entries, c`lines, c.tlb, c.memory.userMemory, Buffers(c.entries)
    ensures c.Ready() && Confined(old(c.Now()), c.Now(), c.pid)
    ensures Flatten(MemPages(c.memory.Model(), c.pid)) == FlatSeen(c) == FlatRun(old(FlatSeen(c)), trace).0
    ensures outputs == FlatRun(old(FlatSeen(c)), trace).1
    ensures forall k :: 0 <= k < |c.entries| ==> c.entries[k].pid != c.pid
    ensures fresh(Buffers(c.entries) - old(Buffers(c.entries)))
  {
    hide SeenIn, PidSound, Sound, NoClash, Inv, Confined, Separate, EmptyOk, Matches, Legal, Reach, Flatten, FlatRun;
    ghost var was := c.Now();
    outputs := Ciclo(c, trace, spare);
    ghost var mid := c.Now();
    RunningSound(c);
    EndProcess.EndProcess(c, c.pid);
    SoundOn(mid, c.Now(), c.pid);
    ConfinedTransitive(was, mid, c.Now(), c.pid);
  }
}
