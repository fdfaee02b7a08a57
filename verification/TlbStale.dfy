/** What a TLB that nobody flushes does to a process that comes back to other frames. */
module TlbStale {
  import opened Wrappers
  import opened Addressing
  import opened Pages
  import opened Frames
  import opened SwapText
  import opened Memory
  import opened Requests
  import opened Keeps
  import opened KeepsSwap
  import opened Storage
  import opened CpuState
  import opened Mmu
  import opened TlbRequests
  import Tlb

  /** The first access to a page without a cache: translation, and the page. On a hit
      the frame is the TLB's. Memory refuses a frame that is not the process's, and
      one that is gives the page that has it now. */
  method Access(c: Cpu, page: seq<int>) returns (frame: int, content: array<byte>, ok: bool)
    requires c.memory.Wired() && c.tlb.capacity != 0
    requires Tlb.Lookup(c.tlb.entries, Tlb.Key(c.pid, page)) < |c.tlb.entries|
    modifies c.tlb
    ensures frame == old(c.tlb.entries)[Tlb.Lookup(old(c.tlb.entries), Tlb.Key(c.pid, page))].frame
    ensures ok <==> Exists(c.memory.Model(), c.pid) && frame in Table(c.memory.Model(), c.pid)
    ensures var table := Table(c.memory.Model(), c.pid);
            forall j :: 0 <= j < |table| && table[j] == frame ==> content[..] == MemPages(c.memory.Model(), c.pid)[j]
    ensures |c.tlb.entries| == |old(c.tlb.entries)|
    ensures forall i :: 0 <= i < |c.tlb.entries| ==>
              c.tlb.entries[i] == old(c.tlb.entries)[i].(lastUsed := c.tlb.entries[i].lastUsed)
  {
    assert (page + [0])[..|page|] == page;
    var physical := Traducir(c, page + [0], c.pid);
    frame := physical.value.frame;
    content, ok := GetPageInMemory(c, physical.value);
  }

  /** Frames of a memory of two pages, as bits. */
  lemma FirstOfTwo(bits: seq<bool>)
    requires |bits| == 2 && !bits[1]
    ensures FirstFree(bits, 0, 1) == [if bits[0] then 1 else 0]
  {
    assert FirstFree(bits, 1, 1) == [1] + FirstFree(bits, 2, 0);
  }

  /** A process of one page is created in such a memory. */
  lemma CreateOfTwo(m: Mem, pid: nat)
    requires Inv(m) && !Exists(m, pid) && m.cfg == Config(1, 2, 1) && |m.reserved| == 2 && !m.reserved[0]
        && !m.reserved[1]
    requires m.remaining >= 1
    ensures Create(m, pid, [], 1).1 == None && Inv(Create(m, pid, [], 1).0) && Create(m, pid, [], 1).0.cfg == m.cfg
    ensures Exists(Create(m, pid, [], 1).0, pid) && Resident(Create(m, pid, [], 1).0, pid)
    ensures Table(Create(m, pid, [], 1).0, pid) == [0] && Create(m, pid, [], 1).0.reserved == [true, false]
    ensures Create(m, pid, [], 1).0.remaining == m.remaining - 1
    ensures forall q: nat :: q != pid ==> SamePlace(m, Create(m, pid, [], 1).0, q)
  {
    hide FramesOwned, CountFree, Set;
    PagesForExact(1, 1);
    CreateCosts(m, pid, 1);
    CreatedTable(m, pid, [], 1);
    FirstOfTwo(m.reserved);
    AllocateTakes(m, 1);
    assert Create(m, pid, [], 1).0.reserved == Set(m.reserved, [0], true);
    forall q: nat | q != pid ensures SamePlace(m, Create(m, pid, [], 1).0, q) {
      CreateOthers(m, pid, [], 1, q);
    }
  }

  /** The first of its processes is suspended, and a second takes its frame. */
  lemma TakenOfTwo(m: Mem)
    requires Inv(m) && Exists(m, 0) && Resident(m, 0) && !Exists(m, 1) && m.cfg == Config(1, 2, 1)
    requires Table(m, 0) == [0] && m.reserved == [true, false] && m.remaining == 1
    ensures Inv(Suspend(m, 0).0) && !Exists(Suspend(m, 0).0, 1)
    ensures var b := Create(Suspend(m, 0).0, 1, [], 1).0;
            && Inv(b) && b.cfg == m.cfg && Exists(b, 0) && !Resident(b, 0) && Table(b, 0) == [0] == Table(b, 1)
            && b.reserved == [true, false] && CountFree(b.reserved) == 1
  {
    hide FramesOwned, Create;
    var a := Suspend(m, 0).0;
    SuspendKeeps(m, 0);
    SuspendOthers(m, 0, 0);
    SuspendOthers(m, 0, 1);
    assert a.reserved == Set(m.reserved, FramesOf([0], 1), false) == [false, false];
    CreateOfTwo(a, 1);
    assert SamePlace(a, Create(a, 1, [], 1).0, 0);
    OneFree();
  }

  lemma OneFree()
    ensures CountFree([true, false]) == 1
  {
    assert [true, false][..1] == [true] && [true][..0] == [];
    assert CountFree([]) == 0 && CountFree([true]) == 0;
  }

  /** It comes back to the other frame. */
  lemma BackOfTwo(m: Mem)
    requires Inv(m) && Exists(m, 0) && !Resident(m, 0) && m.cfg == Config(1, 2, 1)
    requires Table(m, 0) == [0] && m.reserved == [true, false] && CountFree(m.reserved) == 1
    ensures var (b, e) := Unsuspend(m, 0); e == None && Inv(b) && Exists(b, 0) && Resident(b, 0) && Table(b, 0) == [1]
  {
    hide FramesOwned, Unsuspend;
    UnsuspendKeeps(m, 0);
    ReturnedTable(m, 0);
    FirstOfTwo(m.reserved);
  }

  /** Such a memory with its first process. */
  predicate Began(m: Mem) {
    && Exists(m, 0) && Resident(m, 0) && !Exists(m, 1) && m.cfg == Config(1, 2, 1)
    && Table(m, 0) == [0] && m.reserved == [true, false] && m.remaining == 1
  }

  method Begin() returns (memory: Storage)
    ensures fresh(memory) && fresh(memory.userMemory) && fresh(memory.reservationBits)
    ensures memory.Valid() && Began(memory.Model())
  {
    hide FramesOwned, Create, CountFree;
    memory := new Storage(2, Config(1, 2, 1));
    ghost var m := memory.Model();
    CreateOfTwo(m, 0);
    var created := memory.CreateProcess(0, [], 1);
    assert SamePlace(m, memory.Model(), 1);
  }

  /** The process goes to swap and comes back, and a second one is created meanwhile. */
  method AwayAndBack(memory: Storage)
    requires memory.Valid() && Began(memory.Model())
    modifies memory, memory.userMemory, memory.reservationBits
    ensures memory.Valid() && memory.cfg == Config(1, 2, 1)
    ensures Exists(memory.Model(), 0) && Resident(memory.Model(), 0) && Table(memory.Model(), 0) == [1]
  {
    hide FramesOwned, Create, Suspend, Unsuspend, CountFree;
    TakenOfTwo(memory.Model());
    var suspended := memory.SuspendProcess(0);
    var other := memory.CreateProcess(1, [], 1);
    BackOfTwo(memory.Model());
    var back := memory.UnSuspendProcess(0);
  }

  /** The process translates its page 0, on a CPU with a TLB of one entry. */
  method FirstTranslation(memory: Storage) returns (c: Cpu)
    requires memory.Valid() && Began(memory.Model())
    ensures fresh(c) && fresh(c.tlb) && c.memory == memory && c.pid == 0 && c.tlb.capacity == 1
    ensures |c.tlb.entries| == 1 && c.tlb.entries[0] == Tlb.Entry([0], 0, c.tlb.now, 0)
  {
    var tlb := new Tlb.Buffer(1, Tlb.LRU);
    c := new Cpu(memory, tlb, 0, CLOCK, 0);
    PageZero(memory.Model(), 0);
    assert [0, 0][..1] == [0];
    var physical := Traducir(c, [0, 0], 0);
  }

  /** Page 0 of a process with a page. */
  lemma PageZero(m: Mem, base: int)
    requires m.cfg == Config(1, 2, 1) && Exists(m, 0) && Table(m, 0) == [base]
    ensures FrameOf(m, 0, [0]) == Ok(base)
  {
    assert Value([0], 2) == 0;
  }

  /** A process on a CPU with a TLB of one entry and no cache translates its page 0,
      is suspended, another one takes its frame, and it comes back to the other
      frame. Its next access asks memory for a frame that is not its own any more,
      and both the read and the write are refused. */
  method StaleTranslation(value: byte) returns (c: Cpu, ok: bool, e: Option<Error>)
    ensures c.memory.Valid() && !c.TlbRight() && c.pid == 0
    ensures Exists(c.memory.Model(), 0) && Resident(c.memory.Model(), 0) && Table(c.memory.Model(), 0) == [1]
    ensures FrameOf(c.memory.Model(), 0, [0]) == Ok(1)
    ensures !ok && e == Some(NoPage)
  {
    hide FramesOwned, CountFree, FrameOf;
    var memory := Begin();
    c := FirstTranslation(memory);
    AwayAndBack(memory);
    PageZero(memory.Model(), 1);
    Wrong(memory.Model(), c.tlb.entries, 1);
    var frame: int, content: array<byte>;
    frame, content, ok := Access(c, [0]);
    Wrong(memory.Model(), c.tlb.entries, 1);
    e := memory.WritePage(0, frame, [value]);
  }

  lemma Wrong(m: Mem, entries: seq<Tlb.Entry>, capacity: nat)
    requires |entries| == 1 && entries[0].page == [0] && entries[0].frame == 0 && entries[0].pid == 0
    requires Exists(m, 0) && FrameOf(m, 0, [0]) == Ok(1)
    ensures !Tlb.TlbOk(m, entries, capacity)
    ensures Tlb.Lookup(entries, Tlb.Key(0, [0])) == 0
  {
  }
}
