/** cpu/memory/mmu.go and memoryConection.go: address translation, and the page
    transfers between the CPU and the memory module. */
module Mmu {
  import opened Wrappers
  import opened Addressing
  import opened Pages
  import opened Frames
  import opened Memory
  import opened Requests
  import opened KeepsSwap
  import opened Keeps
  import opened Storage
  import opened Clock
  import opened Coherence
  import opened CpuState
  import Tlb

  /** A physical address: a frame base and an offset. */
  datatype Physical = Physical(frame: int, delta: int)

  /** What translation should answer: the page tables' frame, and the offset as it is. */
  function Translate(m: Mem, pid: nat, address: seq<int>): Option<Physical> {
    if address == [] then None
    else
      match FrameOf(m, pid, address[..|address| - 1])
      case Ok(frame) => Some(Physical(frame, address[|address| - 1]))
      case Err(_) => None
  }

  /** What translation answers: the TLB's frame for the page, or on a miss the page
      tables' own. */
  function TlbTranslate(m: Mem, entries: seq<Tlb.Entry>, capacity: nat, pid: nat, address: seq<int>): Option<Physical> {
    if address == [] then None
    else
      var i := Tlb.Lookup(entries, Tlb.Key(pid, address[..|address| - 1]));
      if capacity != 0 && i < |entries| then Some(Physical(entries[i].frame, address[|address| - 1]))
      else Translate(m, pid, address)
  }

  /** The TLB after a translation. */
  ghost function TlbAfter(c: Cpu, entries: seq<Tlb.Entry>, pid: nat, address: seq<int>,
      r: Option<Physical>): seq<Tlb.Entry>
    reads c.tlb
    requires r.Some? ==> address != []
  {
    if r.None? then entries
    else
      Tlb.Reference(entries, c.tlb.capacity, c.tlb.alg, Tlb.Key(pid, address[..|address| - 1]), r.value.frame,
        c.tlb.now)
  }

  /** Traducir: the TLB first, the page tables (asked twice) on a miss. A TLB that
      agrees with the page tables goes on doing so, and the answer is then theirs. */
  method Traducir(c: Cpu, address: seq<int>, pid: nat) returns (r: Option<Physical>)
    requires c.memory.cfg.Ok()
    modifies c.tlb
    ensures r == TlbTranslate(c.memory.Model(), old(c.tlb.entries), c.tlb.capacity, pid, address)
    ensures r.Some? ==> address != []
    ensures c.tlb.entries == TlbAfter(c, old(c.tlb.entries), pid, address, r)
    ensures old(c.TlbRight()) ==> c.TlbRight()
    ensures old(c.TlbRight()) && Exists(c.memory.Model(), pid) ==> r == Translate(c.memory.Model(), pid, address)
    ensures r.Some? && c.tlb.alg == Tlb.LRU && c.tlb.capacity > 0 ==> c.tlb.now > old(c.tlb.now)
  {
    if |address| == 0 {
      return None;
    }
    var delta := address[|address| - 1];
    var page := address[..|address| - 1];
    ghost var was := c.tlb.entries;
    var frame: Option<int> := None;
    if c.tlb.capacity != 0 {
      frame := c.tlb.FindFrame(page, pid);
    }
    if frame.None? {
      var walked := c.memory.LogicAddressToFrame(pid, page);
      if walked.Err? {
        walked := c.memory.LogicAddressToFrame(pid, page);
        if walked.Err? {
          AnswerRight(c.memory.Model(), was, c.tlb.capacity, pid, address);
          return None;
        }
      }
      frame := Some(walked.value);
      c.tlb.AddEntry(page, walked.value, pid);
    }
    AnswerRight(c.memory.Model(), was, c.tlb.capacity, pid, address);
    AnswerKeeps(c.memory.Model(), was, c.tlb.capacity, c.tlb.alg, pid, address, c.tlb.now);
    return Some(Physical(frame.value, delta));
  }

  /** With a right TLB, a process that exists gets the page tables' answer. */
  lemma AnswerRight(m: Mem, entries: seq<Tlb.Entry>, capacity: nat, pid: nat, address: seq<int>)
    ensures Tlb.TlbOk(m, entries, capacity) && Exists(m, pid) ==>
              TlbTranslate(m, entries, capacity, pid, address) == Translate(m, pid, address)
  {
    if Tlb.TlbOk(m, entries, capacity) && Exists(m, pid) && address != [] {
      var key := Tlb.Key(pid, address[..|address| - 1]);
      if Tlb.Lookup(entries, key) < |entries| {
        Tlb.HitIsTranslation(m, entries, capacity, key);
      }
    }
  }

  /** A translation keeps the TLB right. */
  lemma AnswerKeeps(m: Mem, entries: seq<Tlb.Entry>, capacity: nat, alg: Tlb.Algorithm, pid: nat, address: seq<int>,
      t: int)
    requires address != [] && TlbTranslate(m, entries, capacity, pid, address).Some?
    ensures Tlb.TlbOk(m, entries, capacity) ==> (
              var key, r := Tlb.Key(pid, address[..|address| - 1]), TlbTranslate(m, entries, capacity, pid, address);
              Tlb.TlbOk(m, Tlb.Reference(entries, capacity, alg, key, r.value.frame, t), capacity))
  {
    if Tlb.TlbOk(m, entries, capacity) {
      var key, r := Tlb.Key(pid, address[..|address| - 1]), TlbTranslate(m, entries, capacity, pid, address);
      var i := Tlb.Lookup(entries, key);
      if capacity != 0 && i < |entries| {
        Tlb.EntriesKeep(m, entries, capacity, i, t);
      } else {
        Tlb.ReferenceKeeps(m, entries, capacity, alg, key, r.value.frame, t);
      }
    }
  }

  lemma MappedIff(m: Mem, pid: nat, page: seq<int>)
    requires Shape(m)
    ensures Mapped(m, pid, page) <==> (|page| == m.cfg.levels && Exists(m, pid) && InRange(page, m.cfg.entries)
              && 0 <= Value(page, m.cfg.entries) < |Table(m, pid)|)
    ensures Mapped(m, pid, page) ==> FrameOf(m, pid, page) == Ok(Table(m, pid)[Value(page, m.cfg.entries)])
  {
    if InRange(page, m.cfg.entries) {
      ValueBounds(page, m.cfg.entries);
    }
  }

  /** The page number after a page, around base^levels. */
  function NextIndex(cfg: Config, page: seq<int>): int {
    if Value(page, cfg.entries) + 1 == Pow(cfg.entries, cfg.levels) then 0 else Value(page, cfg.entries) + 1
  }

  /** NextPageMMU: the odometer successor of a page and its frame. Page numbers
      stop at the end of the page table, or roll over at base^levels. */
  method NextPageMMU(c: Cpu, page: seq<int>) returns (r: Option<(seq<int>, Physical)>)
    requires c.memory.Wired() && c.TlbRight() && Mapped(c.memory.Model(), c.pid, page)
    modifies c.tlb
    ensures c.TlbRight()
    ensures var m, j := c.memory.Model(), NextIndex(c.memory.cfg, page);
            && (r.Some? <==> 0 <= j < |Table(m, c.pid)|)
            && (r.Some? ==> Value(r.value.0, m.cfg.entries) == j && Mapped(m, c.pid, r.value.0)
                            && r.value.1 == Physical(Table(m, c.pid)[j], 0))
  {
    ghost var m := c.memory.Model();
    MappedIff(m, c.pid, page);
    NextValue(page, m.cfg.entries);
    var digits := new int[|page|](i requires 0 <= i < |page| => page[i]);
    assert digits[..] == page;
    Sum(digits, c.memory.cfg.entries);
    var next := digits[..];
    MappedIff(m, c.pid, next);
    var frame := Traducir(c, next + [0], c.pid);
    assert (next + [0])[..|next|] == next;
    if frame.None? {
      return None;
    }
    return Some((next, frame.value));
  }

  /** GetPageInMemory: the bytes travel, so the CPU gets its own copy. */
  method GetPageInMemory(c: Cpu, frame: Physical) returns (page: array<byte>, ok: bool)
    requires c.memory.Wired()
    ensures fresh(page) && (ok <==> Exists(c.memory.Model(), c.pid) && frame.frame in Table(c.memory.Model(), c.pid))
    ensures var table := Table(c.memory.Model(), c.pid);
            forall j :: 0 <= j < |table| && table[j] == frame.frame ==>
              ok && page[..] == MemPages(c.memory.Model(), c.pid)[j]
  {
    var r := c.memory.GetPage(c.pid, frame.frame);
    if r.Err? {
      page, ok := new byte[0], false;
      return;
    }
    var bytes := r.value;
    page := new byte[|bytes|](i requires 0 <= i < |bytes| => bytes[i]);
    ok := true;
  }

  /** SavePageInMemory: nothing for an empty entry; otherwise the page goes to the
      frame that translation gives for its address. */
  method SavePageInMemory(c: Cpu, content: array?<byte>, page: seq<int>, pid: int)
    requires c.memory.Valid() && c.TlbRight() && pid >= -1
    requires pid != -1 ==> content != null && content.Length == c.memory.cfg.pageSize
    requires pid != -1 ==> Mapped(c.memory.Model(), pid, page)
    modifies c.tlb, c.memory.userMemory
    ensures pid == -1 ==> c.memory.Model() == old(c.memory.Model())
    ensures pid != -1 ==> (c.memory.Model(), None) == WritePage(old(c.memory.Model()), pid,
              FrameOf(old(c.memory.Model()), pid, page).value, old(content[..]))
    ensures c.memory.Valid() && c.TlbRight()
  {
    if pid == -1 {
      return;
    }
    ghost var m := c.memory.Model();
    MappedIff(m, pid, page);
    WriteTakes(m, pid, Value(page, m.cfg.entries), content[..]);
    var frame := Traducir(c, page + [0], pid);
    assert (page + [0])[..|page|] == page;
    var e := c.memory.WritePage(pid, frame.value.frame, content[..]);
  }
}
