/** The memory module as a value: what each request does to the user memory,
    the reservation bits, the page tables and the swapped-out blocks. */
module Memory {
  import opened Wrappers
  import opened Addressing
  import opened Pages
  import opened Frames
  import opened SwapText

  datatype Instruction = Instruction(opcode: string, args: seq<string>)

  datatype ProcessData = ProcessData(pid: nat, code: seq<Instruction>, pageBases: seq<int>)

  datatype Config = Config(pageSize: nat, entries: nat, levels: nat) {
    predicate Ok() { pageSize >= 1 && entries >= 1 && levels >= 1 }
  }

  /** blocks are the processes in the swap file, in file order. */
  datatype Mem = Mem(cfg: Config, bytes: seq<byte>, reserved: seq<bool>, remaining: int,
                     procs: seq<ProcessData>, blocks: seq<Block>)

  // ---- Lookup

  /** GetDataByPID: position of the first process with that pid, or the end. */
  function FindProc(procs: seq<ProcessData>, pid: nat): (i: nat)
    ensures i <= |procs| && (i < |procs| ==> procs[i].pid == pid)
    ensures forall k :: 0 <= k < i ==> procs[k].pid != pid
  {
    if procs == [] || procs[0].pid == pid then 0 else 1 + FindProc(procs[1..], pid)
  }

  predicate Exists(m: Mem, pid: nat) { FindProc(m.procs, pid) < |m.procs| }

  function Table(m: Mem, pid: nat): seq<int> {
    var i := FindProc(m.procs, pid);
    if i < |m.procs| then m.procs[i].pageBases else []
  }

  function Swapped(blocks: seq<Block>): set<nat> {
    set b | b in blocks :: b.pid
  }

  predicate Resident(m: Mem, pid: nat) { pid !in Swapped(m.blocks) }

  // ---- Invariant

  /** Every listed base is a frame of the memory. */
  predicate BasesOk(m: Mem, bases: seq<int>)
    requires m.cfg.Ok()
  {
    AllBases(bases, m.cfg.pageSize, |m.reserved|)
  }

  predicate Shape(m: Mem) {
    && m.cfg.Ok()
    && |m.bytes| >= |m.reserved| * m.cfg.pageSize
    && (forall i :: 0 <= i < |m.procs| ==> BasesOk(m, m.procs[i].pageBases))
    && (forall i, j :: 0 <= i < j < |m.procs| ==> m.procs[i].pid != m.procs[j].pid)
  }

  /** The bases that a process owns: none while it is swapped out. */
  function Part(p: ProcessData, swapped: set<nat>): multiset<int> {
    if p.pid in swapped then multiset{} else multiset(p.pageBases)
  }

  function Owned(procs: seq<ProcessData>, swapped: set<nat>): multiset<int> {
    if procs == [] then multiset{}
    else Owned(procs[..|procs| - 1], swapped) + Part(procs[|procs| - 1], swapped)
  }

  /** Resident page tables hold every reserved frame exactly once and no other. */
  ghost predicate FramesOwned(m: Mem)
    requires m.cfg.Ok()
  {
    forall base: int :: Owned(m.procs, Swapped(m.blocks))[base] == Bit(m.reserved, m.cfg.pageSize, base)
  }

  /** What the memory size leaves over after the last whole page. */
  function Slack(m: Mem): int { |m.bytes| - |m.reserved| * m.cfg.pageSize }

  /** The allocator's books balance. */
  ghost predicate AllocOk(m: Mem) {
    && Shape(m)
    && FramesOwned(m)
    && Slack(m) < m.cfg.pageSize
    && m.remaining == CountFree(m.reserved) * m.cfg.pageSize + Slack(m)
  }

  predicate SwapOk(m: Mem) {
    && (forall k :: 0 <= k < |m.blocks| ==>
          Exists(m, m.blocks[k].pid) && |m.blocks[k].pages| == |Table(m, m.blocks[k].pid)| > 0
          && Uniform(m.blocks[k].pages, m.cfg.pageSize))
    && (forall k, l :: 0 <= k < l < |m.blocks| ==> m.blocks[k].pid != m.blocks[l].pid)
  }

  ghost predicate Inv(m: Mem) {
    AllocOk(m) && Slack(m) == 0 && SwapOk(m)
  }

  // ---- Pages and images

  /** The page stored at a base. */
  function PageAt(bytes: seq<byte>, size: nat, base: int): (p: Page)
    requires 0 <= base && base + size <= |bytes|
    ensures |p| == size
  {
    bytes[base..base + size]
  }

  /** The contents of the listed frames. */
  function PagesAt(m: Mem, bases: seq<int>): (r: Image)
    requires Shape(m) && BasesOk(m, bases)
    ensures |r| == |bases| && Uniform(r, m.cfg.pageSize)
  {
    seq(|bases|, j requires 0 <= j < |bases| =>
      BaseBounds(bases[j], m.cfg.pageSize, |m.reserved|); PageAt(m.bytes, m.cfg.pageSize, bases[j]))
  }

  lemma TableOk(m: Mem, pid: nat)
    requires Shape(m)
    ensures BasesOk(m, Table(m, pid))
  {
  }

  /** What the frames of a process hold. */
  function MemPages(m: Mem, pid: nat): (r: Image)
    requires Shape(m)
    ensures |r| == |Table(m, pid)| && Uniform(r, m.cfg.pageSize)
  {
    TableOk(m, pid);
    PagesAt(m, Table(m, pid))
  }

  /** The bytes of a process, wherever they are. */
  function ImageOf(m: Mem, pid: nat): (r: Image)
    requires Shape(m)
  {
    var k := FindBlock(m.blocks, pid);
    if k < |m.blocks| then m.blocks[k].pages else MemPages(m, pid)
  }

  lemma SwappedIff(blocks: seq<Block>, pid: nat)
    ensures pid in Swapped(blocks) <==> FindBlock(blocks, pid) < |blocks|
  {
    var k := FindBlock(blocks, pid);
    if k < |blocks| {
      assert blocks[k] in blocks;
    }
  }

  // ---- Ownership arithmetic

  lemma {:induction false} OwnedSplit(a: seq<ProcessData>, b: seq<ProcessData>, swapped: set<nat>)
    ensures Owned(a + b, swapped) == Owned(a, swapped) + Owned(b, swapped)
  {
    if b == [] {
      assert a + b == a;
    } else {
      OwnedSplit(a, b[..|b| - 1], swapped);
      OwnedLast(a, b, swapped);
      BagAssociative(Owned(a, swapped), Owned(b[..|b| - 1], swapped), Part(b[|b| - 1], swapped));
    }
  }

  lemma OwnedLast(a: seq<ProcessData>, b: seq<ProcessData>, swapped: set<nat>)
    requires b != []
    ensures Owned(a + b, swapped) == Owned(a + b[..|b| - 1], swapped) + Part(b[|b| - 1], swapped)
  {
    hide Part;
    assert (a + b)[..|a + b| - 1] == a + b[..|b| - 1] && (a + b)[|a + b| - 1] == b[|b| - 1];
  }

  lemma BagAssociative(a: multiset<int>, b: multiset<int>, c: multiset<int>)
    ensures a + b + c == a + (b + c)
  {
  }

  /** The bases of all processes but the i-th. */
  function OwnedByOthers(procs: seq<ProcessData>, i: nat, swapped: set<nat>): multiset<int>
    requires i < |procs|
  {
    Owned(procs[..i], swapped) + Owned(procs[i + 1..], swapped)
  }

  lemma OwnedAt(procs: seq<ProcessData>, i: nat, swapped: set<nat>)
    requires i < |procs|
    ensures Owned(procs, swapped) == OwnedByOthers(procs, i, swapped) + Part(procs[i], swapped)
  {
    assert procs == procs[..i] + ([procs[i]] + procs[i + 1..]);
    OwnedSplit(procs[..i], [procs[i]] + procs[i + 1..], swapped);
    OwnedSplit([procs[i]], procs[i + 1..], swapped);
    assert Owned([procs[i]], swapped) == Part(procs[i], swapped) by {
      assert [procs[i]][..0] == [];
    }
  }

  lemma {:induction false} OwnedSame(procs: seq<ProcessData>, s: set<nat>, t: set<nat>)
    requires forall i :: 0 <= i < |procs| ==> (procs[i].pid in s <==> procs[i].pid in t)
    ensures Owned(procs, s) == Owned(procs, t)
  {
    if procs != [] {
      OwnedSame(procs[..|procs| - 1], s, t);
    }
  }

  /** Changing whether pid i is swapped, or its table, moves only its own bases. */
  lemma OwnedChange(procs: seq<ProcessData>, i: nat, p: ProcessData, s: set<nat>, t: set<nat>)
    requires i < |procs| && p.pid == procs[i].pid
    requires forall k :: 0 <= k < |procs| && k != i ==> procs[k].pid != p.pid
    requires forall q :: q != p.pid ==> (q in s <==> q in t)
    ensures Owned(procs, s) == OwnedByOthers(procs, i, s) + Part(procs[i], s)
    ensures Owned(procs[i := p], t) == OwnedByOthers(procs, i, s) + Part(p, t)
  {
    hide Owned, Part;
    OwnedAt(procs, i, s);
    var next := procs[i := p];
    OwnedAt(next, i, t);
    assert next[..i] == procs[..i] && next[i + 1..] == procs[i + 1..];
    OwnedSame(procs[..i], s, t);
    OwnedSame(procs[i + 1..], s, t);
  }

  /** Resident tables: duplicate-free, reserved, and disjoint from one another. */
  lemma ResidentTable(m: Mem, i: nat)
    requires m.cfg.Ok() && FramesOwned(m) && i < |m.procs| && Resident(m, m.procs[i].pid)
    ensures Distinct(m.procs[i].pageBases)
    ensures forall j :: 0 <= j < |m.procs[i].pageBases| ==>
        Bit(m.reserved, m.cfg.pageSize, m.procs[i].pageBases[j]) == 1
    ensures forall k, b :: 0 <= k < |m.procs| && k != i && Resident(m, m.procs[k].pid) && b in m.procs[i].pageBases
              ==> b !in m.procs[k].pageBases
  {
    var swapped, bases := Swapped(m.blocks), m.procs[i].pageBases;
    OwnedAt(m.procs, i, swapped);
    forall j | 0 <= j < |bases|
      ensures Bit(m.reserved, m.cfg.pageSize, bases[j]) == 1 && multiset(bases)[bases[j]] == 1 {
      assert bases[j] in multiset(bases);
      assert Owned(m.procs, swapped)[bases[j]] >= multiset(bases)[bases[j]] >= 1;
    }
    SinglesDistinct(bases);
    forall k, b | 0 <= k < |m.procs| && k != i && Resident(m, m.procs[k].pid) && b in bases
      ensures b !in m.procs[k].pageBases
    {
      assert Owned(m.procs, swapped)[b] <= 1;
      if b in m.procs[k].pageBases {
        OwnedTwice(m.procs, i, k, b, swapped);
      }
    }
  }

  lemma SinglesDistinct(bases: seq<int>)
    requires forall j :: 0 <= j < |bases| ==> multiset(bases)[bases[j]] == 1
    ensures Distinct(bases)
  {
    forall i, j | 0 <= i < j < |bases| ensures bases[i] != bases[j] {
      assert bases == bases[..j] + bases[j..];
      assert bases[i] in bases[..j] && bases[j] in bases[j..];
      assert bases[i] in multiset(bases[..j]) && bases[j] in multiset(bases[j..]);
    }
  }

  /** A base that is owned has an owner in memory. */
  lemma {:induction false} OwnerOf(procs: seq<ProcessData>, b: int, swapped: set<nat>) returns (i: nat)
    requires Owned(procs, swapped)[b] > 0
    ensures i < |procs| && procs[i].pid !in swapped && b in procs[i].pageBases
  {
    var n := |procs| - 1;
    if Part(procs[n], swapped)[b] > 0 {
      assert b in multiset(procs[n].pageBases);
      i := n;
    } else {
      i := OwnerOf(procs[..n], b, swapped);
    }
  }

  lemma OwnedTwice(procs: seq<ProcessData>, i: nat, k: nat, b: int, swapped: set<nat>)
    requires i < |procs| && k < |procs| && i != k
    requires procs[i].pid !in swapped && procs[k].pid !in swapped
    requires b in procs[i].pageBases && b in procs[k].pageBases
    ensures Owned(procs, swapped)[b] >= 2
  {
    var lo, hi := if i < k then i else k, if i < k then k else i;
    OwnedAt(procs, hi, swapped);
    OwnedAt(procs[..hi], lo, swapped);
    assert b in multiset(procs[lo].pageBases) && b in multiset(procs[hi].pageBases);
  }
}
