/** memoria/storage: the memory module's globals and the operations on them. */
module Storage {
  import opened Wrappers
  import opened Addressing
  import opened Pages
  import opened Frames
  import opened SwapText
  import opened Memory
  import opened Requests
  import opened Keeps
  import opened KeepsSwap
  import opened Programs

  /** The frame base that a page address selects in a process's table. */
  function FrameOf(m: Mem, pid: nat, address: seq<int>): Result<int> {
    if |address| != m.cfg.levels then Err(BadAddress)
    else if !Exists(m, pid) then Err(NoProcess)
    else if !InRange(address, m.cfg.entries) then Err(BadAddress)
    else
      ValueBounds(address, m.cfg.entries);
      var page := Value(address, m.cfg.entries);
      if page >= |Table(m, pid)| then Err(BadAddress) else Ok(Table(m, pid)[page])
  }

  class Storage {
    const cfg: Config
    const userMemory: array<byte>
    const pageBases: seq<int>
    const reservationBits: array<bool>
    var remainingMemory: int
    var systemMemory: seq<ProcessData>
    var swapFile: string
    ghost var blocks: seq<Block>

    ghost function Model(): Mem
      reads this, userMemory, reservationBits
    {
      Mem(cfg, userMemory[..], reservationBits[..], remainingMemory, systemMemory, blocks)
    }

    /** The list of all frame bases matches the bits, and every table is in range. */
    ghost predicate Wired()
      reads this, userMemory, reservationBits
    {
      && Shape(Model())
      && |pageBases| == reservationBits.Length
      && (forall i :: 0 <= i < |pageBases| ==> pageBases[i] == i * cfg.pageSize)
    }

    ghost predicate Valid()
      reads this, userMemory, reservationBits
    {
      && Wired() && Inv(Model())
      && AllPrintable(blocks) && swapFile == PrintFile(blocks)
    }

    /** InitializeUserMemory: zeroed memory, all frames free, no swap file. */
    constructor (memorySize: nat, cfg: Config)
      requires cfg.Ok()
      ensures Wired() && AllocOk(Model()) && this.cfg == cfg
      ensures remainingMemory == memorySize && systemMemory == [] && blocks == []
      ensures fresh(userMemory) && fresh(reservationBits)
      ensures reservationBits.Length == memorySize / cfg.pageSize
      ensures forall f :: 0 <= f < reservationBits.Length ==> !reservationBits[f]
      ensures userMemory.Length == memorySize && forall k :: 0 <= k < memorySize ==> userMemory[k] == 0
      ensures Valid() <==> memorySize % cfg.pageSize == 0
    {
      var pages := memorySize / cfg.pageSize;
      this.cfg := cfg;
      userMemory := new byte[memorySize](_ => 0);
      remainingMemory := memorySize;
      swapFile := "";
      pageBases := seq(pages, i => i * cfg.pageSize);
      reservationBits := new bool[pages](_ => false);
      systemMemory := [];
      blocks := [];
      new;
      assert memorySize == pages * cfg.pageSize + memorySize % cfg.pageSize;
      EmptyMemory(Model());
    }

    /** GetDataByPID: position in systemMemory, or its length. */
    method GetDataByPID(pid: nat) returns (i: nat)
      ensures i == FindProc(systemMemory, pid)
    {
      i := 0;
      while i < |systemMemory|
        invariant i <= |systemMemory| && forall k :: 0 <= k < i ==> systemMemory[k].pid != pid
      {
        if systemMemory[i].pid == pid {
          return;
        }
        i := i + 1;
      }
    }

    method AllocateMemory(size: nat) returns (r: Result<seq<int>>)
      requires Wired() && size > 0
      modifies this`remainingMemory, reservationBits
      ensures (Model(), r) == Allocate(old(Model()), size)
    {
      hide FirstFree, Set, CountFree;
      if size > remainingMemory {
        return Err(NotEnoughMemory);
      }
      var requiredPages := (size + cfg.pageSize - 1) / cfg.pageSize;
      PagesForBounds(size, cfg.pageSize);
      remainingMemory := remainingMemory - cfg.pageSize * requiredPages;
      if remainingMemory < 0 {
        return Err(Panic);
      }
      ghost var m := Model();
      r := ReserveFirst(requiredPages);
      assert Model() == m.(reserved := reservationBits[..]);
    }

    /** The scan of allocateMemory over the list of frames. */
    method ReserveFirst(requiredPages: nat) returns (r: Result<seq<int>>)
      requires requiredPages > 0 && |pageBases| == reservationBits.Length
      requires forall i :: 0 <= i < |pageBases| ==> pageBases[i] == i * cfg.pageSize
      modifies reservationBits
      ensures var frames := FirstFree(old(reservationBits[..]), 0, requiredPages);
              reservationBits[..] == Set(old(reservationBits[..]), frames, true)
              && r == if |frames| < requiredPages then Err(Unreachable) else Ok(BasesOf(frames, cfg.pageSize))
    {
      hide Taking, FirstFree, Set, BasesOf;
      ghost var bits := reservationBits[..];
      var bases: seq<int> := [];
      TakingNone(bits, cfg.pageSize, requiredPages);
      for index := 0 to |pageBases|
        invariant |bases| < requiredPages
        invariant Taking(bits, reservationBits[..], cfg.pageSize, bases, index, requiredPages)
      {
        ghost var now := reservationBits[..];
        TakingNext(bits, now, cfg.pageSize, bases, index, requiredPages);
        if !reservationBits[index] {
          reservationBits[index] := true;
          assert reservationBits[..] == now[index := true];
          bases := bases + [pageBases[index]];
        }
        if |bases| == requiredPages {
          TakingDone(bits, reservationBits[..], cfg.pageSize, bases, index + 1, requiredPages);
          return Ok(bases);
        }
      }
      TakingDone(bits, reservationBits[..], cfg.pageSize, bases, |bits|, requiredPages);
      return Err(Unreachable);
    }

    method DeallocateMemory(pid: nat) returns (e: Option<Error>)
      requires Wired()
      modifies this`remainingMemory, reservationBits
      ensures e == if Exists(Model(), pid) then None else Some(NoProcess)
      ensures Model() == if Exists(old(Model()), pid) then Release(old(Model()), Table(old(Model()), pid))
          else old(Model())
    {
      var i := GetDataByPID(pid);
      if i == |systemMemory| {
        return Some(NoProcess);
      }
      var bases := systemMemory[i].pageBases;
      ghost var m := Model();
      if |bases| == 0 {
        assert Release(m, bases).reserved == m.reserved;
        return None;
      }
      ClearBits(bases);
      remainingMemory := remainingMemory + |bases| * cfg.pageSize;
      return None;
    }

    /** The loop of deallocateMemory over a page table. */
    method ClearBits(bases: seq<int>)
      requires cfg.Ok() && AllBases(bases, cfg.pageSize, reservationBits.Length)
      modifies reservationBits
      ensures Within(FramesOf(bases, cfg.pageSize), reservationBits.Length)
      ensures reservationBits[..] == Set(old(reservationBits[..]), FramesOf(bases, cfg.pageSize), false)
    {
      ghost var bits, frames := reservationBits[..], FramesOf(bases, cfg.pageSize);
      FramesWithin(bases, cfg.pageSize, |bits|);
      for j := 0 to |bases|
        invariant Within(frames[..j], |bits|) && reservationBits[..] == Set(bits, frames[..j], false)
      {
        assert frames[..j + 1][..j] == frames[..j];
        reservationBits[bases[j] / cfg.pageSize] := false;
      }
      assert frames[..|bases|] == frames;
    }

    // ---- Pages

    /** HasPage: the process exists and owns the base. */
    method HasPage(pid: nat, base: int) returns (e: Option<Error>)
      ensures e == if !Exists(Model(), pid) then Some(NoProcess)
                   else if base !in Table(Model(), pid) then Some(NoPage) else None
    {
      var i := GetDataByPID(pid);
      if i == |systemMemory| {
        return Some(NoProcess);
      }
      if base !in systemMemory[i].pageBases {
        return Some(NoPage);
      }
      return None;
    }

    method GetPage(pid: nat, base: int) returns (r: Result<Page>)
      requires Wired()
      ensures !Exists(Model(), pid) ==> r == Err(NoProcess)
      ensures Exists(Model(), pid) && base !in Table(Model(), pid) ==> r == Err(NoPage)
      ensures forall j :: 0 <= j < |Table(Model(), pid)| && Table(Model(), pid)[j] == base ==>
          r == Ok(MemPages(Model(), pid)[j])
    {
      var e := HasPage(pid, base);
      if e.Some? {
        return Err(e.value);
      }
      TableOk(Model(), pid);
      BaseBounds(base, cfg.pageSize, reservationBits.Length);
      return Ok(userMemory[base..base + cfg.pageSize]);
    }

    method WriteToMemory(pid: nat, base: int, delta: nat, value: byte) returns (e: Option<Error>)
      requires Wired() && delta < cfg.pageSize
      modifies userMemory
      ensures e.Some? <==> base !in Table(old(Model()), pid)
      ensures e.Some? ==> userMemory[..] == old(userMemory[..])
      ensures e.None? ==> 0 <= base + delta < userMemory.Length
                          && userMemory[..] == old(userMemory[..])[base + delta := value]
    {
      e := HasPage(pid, base);
      if e.Some? {
        return;
      }
      TableOk(Model(), pid);
      BaseBounds(base, cfg.pageSize, reservationBits.Length);
      userMemory[base + delta] := value;
    }

    /** WritePage: one byte at a time, each under its own ownership check. */
    method WritePage(pid: nat, base: int, value: Page) returns (e: Option<Error>)
      requires Wired()
      modifies userMemory
      ensures (Model(), e) == Requests.WritePage(old(Model()), pid, base, value)
      ensures Wired()
    {
      if |value| != cfg.pageSize {
        return Some(BadLength);
      }
      e := HasPage(pid, base);
      if e.Some? {
        return;
      }
      ghost var m := Model();
      TableOk(m, pid);
      BaseBounds(base, cfg.pageSize, reservationBits.Length);
      for delta := 0 to |value|
        invariant Model() == m.(bytes := Splice(m.bytes, base, value[..delta]))
      {
        ghost var bytes := userMemory[..];
        e := WriteToMemory(pid, base, delta, value[delta]);
        assert Splice(m.bytes, base, value[..delta + 1]) == bytes[base + delta := value[delta]];
      }
      assert value[..|value|] == value;
      return None;
    }

    /** LogicAddressToFrame: the multi-level page-table walk. */
    method LogicAddressToFrame(pid: nat, address: seq<int>) returns (r: Result<int>)
      requires cfg.Ok()
      ensures r == FrameOf(Model(), pid, address)
    {
      hide Value, Pow;
      if |address| != cfg.levels {
        return Err(BadAddress);
      }
      var i := GetDataByPID(pid);
      if i == |systemMemory| {
        return Err(NoProcess);
      }
      var bases := systemMemory[i].pageBases;
      var page := 0;
      WalkStart(address, cfg.entries);
      for k := 0 to |address|
        invariant InRange(address[..k], cfg.entries)
        invariant page == Value(address[..k], cfg.entries) * Pow(cfg.entries, |address| - k)
      {
        if address[k] < 0 || address[k] >= cfg.entries {
          return Err(BadAddress);
        }
        WalkStep(address, cfg.entries, k);
        page := page + address[k] * Pow(cfg.entries, |address| - 1 - k);
      }
      assert address[..|address|] == address;
      ValueBounds(address, cfg.entries);
      if page >= |bases| {
        return Err(BadAddress);
      }
      return Ok(bases[page]);
    }

    // ---- Processes

    /** GetInstruction: the line of the process's program that pc names; a negative
        one panics. */
    method GetInstruction(pid: nat, pc: int) returns (r: Result<Instruction>)
      ensures !Exists(Model(), pid) ==> r == Err(NoProcess)
      ensures Exists(Model(), pid) ==>
                r == if pc >= |CodeOf(Model(), pid)| then Err(BadAddress) else if pc < 0 then Err(Panic)
                  else Ok(CodeOf(Model(), pid)[pc])
    {
      var i := GetDataByPID(pid);
      if i == |systemMemory| {
        return Err(NoProcess);
      }
      if pc >= |systemMemory[i].code| {
        return Err(BadAddress);
      }
      if pc < 0 {
        return Err(Panic);
      }
      return Ok(systemMemory[i].code[pc]);
    }

    /** The scanner loop of CreateProcess. */
    method ParseCode(lines: seq<seq<string>>) returns (r: Result<seq<Instruction>>)
      ensures r == if ProgramOk(lines) then Ok(ParseProgram(lines)) else Err(BadProgram)
      ensures r.Ok? <==> forall i :: 0 <= i < |lines| ==> Accepted(lines[i])
      ensures r.Ok? ==> Spells(r.value, lines)
    {
      ProgramAccepted(lines);
      hide Accepted, Spells;
      var code: seq<Instruction> := [];
      for i := 0 to |lines|
        invariant ProgramOk(lines[..i]) && code == ParseProgram(lines[..i])
      {
        var parts := lines[i];
        if |parts| == 0 || |parts| > 3 || parts[0] !in OPCODES {
          assert !StatementOk(lines[i]);
          return Err(BadProgram);
        }
        code := code + [Instruction(parts[0], parts[1..])];
      }
      assert lines[..|lines|] == lines;
      return Ok(code);
    }

    method CreateProcess(pid: nat, lines: seq<seq<string>>, size: nat) returns (e: Option<Error>)
      requires Valid()
      modifies this`remainingMemory, this`systemMemory, reservationBits
      ensures (Model(), e) == Create(old(Model()), pid, lines, size)
      ensures !Exists(old(Model()), pid) ==> Valid()
      ensures e.Some? ==> Model() == old(Model())
      ensures !Exists(old(Model()), pid) && e.None? ==> Loaded(old(Model()), Model(), pid, lines)
    {
      hide Loaded, Accepted, Spells, FramesOwned, CountFree, Set, IsBase, FirstFree, SameImage, AllPrintable, PrintFile;
      ghost var m := Model();
      if size > remainingMemory {
        return Some(NotEnoughMemory);
      }
      var code := ParseCode(lines);
      if code.Err? {
        return Some(code.error);
      }
      var bases: seq<int> := [];
      if size != 0 {
        var r := AllocateMemory(size);
        if r.Err? {
          AllocateOutcome(m, size);
          assert false;
        }
        bases := r.value;
      }
      systemMemory := systemMemory + [ProcessData(pid, code.value, bases)];
      if FindProc(m.procs, pid) == |m.procs| {
        CreateKeeps(m, pid, lines, size);
        CreateCode(m, pid, lines, size);
      }
      return None;
    }

    /** DeleteProcess and Deallocate: frees the frames, then the last process
        takes the place of the deleted one. */
    method DeleteProcess(pid: nat) returns (e: Option<Error>)
      requires Valid()
      modifies this`remainingMemory, this`systemMemory, reservationBits
      ensures (Model(), e) == Delete(old(Model()), pid)
      ensures Resident(old(Model()), pid) ==> Valid()
    {
      hide FramesOwned, CountFree, Set, IsBase, MemPages, SameImage, AllPrintable, PrintFile;
      ghost var m := Model();
      if pid !in Swapped(m.blocks) {
        DeleteKeeps(m, pid);
      }
      e := DeallocateMemory(pid);
      if e.Some? {
        return;
      }
      var i := GetDataByPID(pid);
      systemMemory := systemMemory[i := systemMemory[|systemMemory| - 1]];
      systemMemory := systemMemory[..|systemMemory| - 1];
    }

    // ---- Swap

    /** The page loop of formatSwapData. */
    method ReadPages(pid: nat) returns (pages: Image)
      requires Wired() && Exists(Model(), pid)
      ensures pages == MemPages(Model(), pid)
    {
      var i := GetDataByPID(pid);
      var bases := systemMemory[i].pageBases;
      ghost var image := MemPages(Model(), pid);
      pages := [];
      for j := 0 to |bases|
        invariant pages == image[..j]
      {
        assert Table(Model(), pid)[j] == bases[j];
        var page := GetPage(pid, bases[j]);
        assert page == Ok(image[j]);
        pages := pages + [page.value];
      }
    }

    /** addToSwap: appends the printed block of a process to the swap file. */
    method AddToSwap(pid: nat)
      requires Wired() && Exists(Model(), pid)
      modifies this`swapFile
      ensures var b := Block(pid, MemPages(Model(), pid));
              Printable(b) && swapFile == old(swapFile) + PrintBlock(b)
    {
      var pages := ReadPages(pid);
      forall j | 0 <= j < |pages| ensures pages[j] != [] {
        assert |pages[j]| == cfg.pageSize;
      }
      var msg := FormatSwapData(pid, pages);
      swapFile := swapFile + msg;
    }

    method SuspendProcess(pid: nat) returns (e: Option<Error>)
      requires Valid()
      modifies this`remainingMemory, this`swapFile, this`blocks, reservationBits
      ensures (Model(), e) == Suspend(old(Model()), pid)
      ensures Resident(old(Model()), pid) ==> Valid()
    {
      ghost var m := Model();
      if pid !in Swapped(m.blocks) {
        SuspendKeeps(m, pid);
      }
      var i := GetDataByPID(pid);
      if i == |systemMemory| {
        return Some(NoProcess);
      }
      if |systemMemory[i].pageBases| == 0 {
        return None;
      }
      AddToSwap(pid);
      e := DeallocateMemory(pid);
      ghost var b := Block(pid, MemPages(m, pid));
      blocks := blocks + [b];
      AppendBlock(m.blocks, b);
    }

    /** The page loop of UnSuspendProcess. */
    method RestorePages(pid: nat, bases: seq<int>, chunks: seq<string>, ghost pages: Image)
      requires Wired() && Exists(Model(), pid) && Table(Model(), pid) == bases
      requires |bases| == |chunks| == |pages| && Uniform(pages, cfg.pageSize)
      requires forall j :: 0 <= j < |pages| ==> pages[j] != [] && chunks[j] == PrintPage(pages[j])
      modifies userMemory
      ensures Wired()
      ensures forall j :: 0 <= j < |bases| ==> 0 <= bases[j] && bases[j] + cfg.pageSize <= userMemory.Length
      ensures userMemory[..] == WriteAll(old(userMemory[..]), cfg.pageSize, bases, pages)
    {
      ghost var m := Model();
      TableOk(m, pid);
      BasesInMemory(m, bases);
      var bytes := new byte[cfg.pageSize](_ => 0);
      for j := 0 to |bases|
        invariant Wired() && Model() == m.(bytes := WriteAll(m.bytes, cfg.pageSize, bases[..j], pages[..j]))
      {
        DecodePage(chunks[j], bytes, pages[j]);
        assert bases[j] in bases;
        var e := WritePage(pid, bases[j], bytes[..]);
        assert bases[..j + 1][..j] == bases[..j] && pages[..j + 1][..j] == pages[..j];
      }
      assert bases[..|bases|] == bases && pages[..|pages|] == pages;
    }

    /** The second half of UnSuspendProcess: drops the block from the swap file,
        installs the new page table and writes the pages back. */
    method Reload(i: nat, bases: seq<int>, chunks: seq<string>, ghost k: nat)
      requires Wired() && AllPrintable(blocks) && swapFile == PrintFile(blocks)
      requires i < |systemMemory| && k < |blocks| && k == FindBlock(blocks, systemMemory[i].pid)
      requires Uniform(blocks[k].pages, cfg.pageSize) && |bases| == |blocks[k].pages| && BasesOk(Model(), bases)
      requires chunks == BodyLines(blocks[k])[1..]
      modifies this`systemMemory, this`swapFile, this`blocks, userMemory
      ensures Model() == Restore(old(Model()), i, k, bases)
      ensures AllPrintable(blocks) && swapFile == PrintFile(blocks)
    {
      hide IsBase, PrintFile, FindBlock, WriteAll;
      ghost var m, pages := Model(), blocks[k].pages;
      BasesInMemory(m, bases);
      var pid := systemMemory[i].pid;
      var shorter := RemoveFromSwap(swapFile, pid, blocks);
      swapFile := shorter.value;
      systemMemory := systemMemory[i := systemMemory[i].(pageBases := bases)];
      blocks := blocks[..k] + blocks[k + 1..];
      TableAt(Model(), i);
      RestorePages(pid, bases, chunks, pages);
    }

    /** UnSuspendProcess once the block text is at hand. */
    method Load(i: nat, swapBlock: string, ghost k: nat) returns (e: Option<Error>)
      requires Wired() && SwapOk(Model()) && AllPrintable(blocks) && swapFile == PrintFile(blocks)
      requires i < |systemMemory| && i == FindProc(systemMemory, systemMemory[i].pid) && systemMemory[i].pageBases != []
      requires k < |blocks| && k == FindBlock(blocks, systemMemory[i].pid) && swapBlock == Body(blocks[k])
      modifies this`remainingMemory, this`systemMemory, this`swapFile, this`blocks, userMemory, reservationBits
      ensures (Model(), e) == Unsuspend(old(Model()), old(systemMemory[i].pid))
      ensures AllPrintable(blocks) && swapFile == PrintFile(blocks)
    {
      assert |blocks[k].pages| > 0 && Uniform(blocks[k].pages, cfg.pageSize);
      var chunks := Split(swapBlock, '\n');
      var count := CountChunks(chunks, blocks[k]);
      PagesForExact(count, cfg.pageSize);
      MulGap(count, cfg.pageSize);
      var r := AllocateMemory(cfg.pageSize * count);
      if r.Err? {
        return Some(r.error);
      }
      Reload(i, r.value, chunks[1..|chunks| - 1], k);
      return None;
    }

    method UnSuspendProcess(pid: nat) returns (e: Option<Error>)
      requires Valid()
      modifies this`remainingMemory, this`systemMemory, this`swapFile, this`blocks, userMemory, reservationBits
      ensures (Model(), e) == Unsuspend(old(Model()), pid)
      ensures Valid()
      ensures e.Some? ==> Model() == old(Model())
    {
      ghost var m := Model();
      var i := GetDataByPID(pid);
      if i == |systemMemory| {
        return Some(NoProcess);
      }
      if |systemMemory[i].pageBases| == 0 {
        return None;
      }
      var swapBlock := GetFromSwap(swapFile, pid, blocks);
      if swapBlock.Err? {
        return Some(swapBlock.error);
      }
      ghost var k := FindBlock(blocks, pid);
      e := Load(i, swapBlock.value, k);
      UnsuspendKeeps(m, pid);
    }

    /** The page count on the first line of a block. */
    method CountChunks(chunks: seq<string>, ghost b: Block) returns (count: int)
      requires Printable(b) && chunks == Split(Body(b), '\n')
      ensures count == |b.pages| && |chunks| == count + 2
      ensures chunks[1..|chunks| - 1] == BodyLines(b)[1..]
    {
      SplitBody(b);
      AtoiPrint(|b.pages|);
      count := match Atoi(chunks[0]) case Some(n) => n case None => 0;
    }
  }

  /** A memory with all frames free, no process and no swap file. */
  lemma EmptyMemory(m: Mem)
    requires m.cfg.Ok() && m.procs == [] && m.blocks == [] && m.remaining == |m.bytes|
    requires |m.bytes| == |m.reserved| * m.cfg.pageSize + |m.bytes| % m.cfg.pageSize
    requires forall f :: 0 <= f < |m.reserved| ==> !m.reserved[f]
    ensures AllocOk(m) && (Inv(m) <==> |m.bytes| % m.cfg.pageSize == 0)
  {
    hide CountFree, IsBase;
    AllFree(m.reserved);
    forall base: int ensures Bit(m.reserved, m.cfg.pageSize, base) == 0 {
      FreeBit(m.reserved, m.cfg.pageSize, base);
    }
  }

  lemma FreeBit(bits: seq<bool>, size: nat, base: int)
    requires size >= 1 && forall f :: 0 <= f < |bits| ==> !bits[f]
    ensures Bit(bits, size, base) == 0
  {
  }

  lemma {:induction false} AllFree(bits: seq<bool>)
    requires forall f :: 0 <= f < |bits| ==> !bits[f]
    ensures CountFree(bits) == |bits|
  {
    if bits != [] {
      AllFree(bits[..|bits| - 1]);
    }
  }

  /** The allocation loop before frame `index`: it holds the first free frames so far. */
  ghost predicate Taking(was: seq<bool>, bits: seq<bool>, size: nat, bases: seq<int>, index: nat, n: nat) {
    && index <= |was| && |bases| <= n
    && var frames, rest := FirstFree(was, 0, n), FirstFree(was, index, n - |bases|);
    && |frames| == |bases| + |rest|
    && rest == frames[|bases|..]
    && (forall k :: 0 <= k < |bases| ==> frames[k] < index && bases[k] == frames[k] * size)
    && bits == Set(was, frames[..|bases|], true)
  }

  lemma TakingNone(was: seq<bool>, size: nat, n: nat)
    ensures Taking(was, was, size, [], 0, n)
  {
  }

  lemma TakingNext(was: seq<bool>, bits: seq<bool>, size: nat, bases: seq<int>, index: nat, n: nat)
    requires Taking(was, bits, size, bases, index, n) && index < |was| && |bases| < n
    ensures bits[index] == was[index]
    ensures was[index] ==> Taking(was, bits, size, bases, index + 1, n)
    ensures !was[index] ==> Taking(was, bits[index := true], size, bases + [index * size], index + 1, n)
  {
    NotYetTaken(was, bits, size, bases, index, n);
    if !was[index] {
      TakingOne(was, bits, size, bases, index, n);
    }
  }

  lemma NotYetTaken(was: seq<bool>, bits: seq<bool>, size: nat, bases: seq<int>, index: nat, n: nat)
    requires Taking(was, bits, size, bases, index, n) && index < |was| && |bases| < n
    ensures bits[index] == was[index]
  {
    var frames := FirstFree(was, 0, n);
    assert index !in frames[..|bases|];
  }

  lemma SetOne(was: seq<bool>, frames: seq<int>, c: nat)
    requires c < |frames| && Within(frames, |was|)
    ensures Set(was, frames[..c + 1], true) == Set(was, frames[..c], true)[frames[c] := true]
  {
    assert frames[..c + 1][..c] == frames[..c];
  }

  lemma NextFree(was: seq<bool>, index: nat, n: nat)
    requires index < |was| && n > 0 && !was[index]
    ensures FirstFree(was, index, n) == [index] + FirstFree(was, index + 1, n - 1)
  {
  }

  /** A free frame is the next of the frames to take. */
  lemma TakingOne(was: seq<bool>, bits: seq<bool>, size: nat, bases: seq<int>, index: nat, n: nat)
    requires Taking(was, bits, size, bases, index, n) && index < |was| && |bases| < n && !was[index]
    ensures Taking(was, bits[index := true], size, bases + [index * size], index + 1, n)
  {
    hide FirstFree, Set;
    var frames, c := FirstFree(was, 0, n), |bases|;
    NextFree(was, index, n - c);
    assert frames[c] == frames[c..][0] == index;
    assert frames[c + 1..] == frames[c..][1..];
    SetOne(was, frames, c);
  }

  lemma TakingDone(was: seq<bool>, bits: seq<bool>, size: nat, bases: seq<int>, index: nat, n: nat)
    requires Taking(was, bits, size, bases, index, n) && (index == |was| || |bases| == n)
    ensures bits == Set(was, FirstFree(was, 0, n), true) && |FirstFree(was, 0, n)| == |bases|
    ensures bases == BasesOf(FirstFree(was, 0, n), size)
  {
    var frames := FirstFree(was, 0, n);
    assert frames[..|bases|] == frames;
  }

  lemma AppendBlock(blocks: seq<Block>, b: Block)
    requires AllPrintable(blocks) && Printable(b)
    ensures AllPrintable(blocks + [b]) && PrintFile(blocks + [b]) == PrintFile(blocks) + PrintBlock(b)
  {
    PrintFileAppend(blocks, [b]);
    assert PrintFile([b]) == PrintBlock(b) + "";
  }
}
