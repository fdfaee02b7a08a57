/** Turns on a CPU and requests to memory, interleaved: creations, ends, page writes
    of other CPUs, suspensions and unsuspensions between the turns. */
module Sessions {
  import opened Wrappers
  import opened Addressing
  import opened Pages
  import opened SwapText
  import opened Memory
  import opened Requests
  import opened Keeps
  import opened KeepsSwap
  import opened MemoryRuns
  import opened Storage
  import opened Clock
  import opened Coherence
  import opened CpuState
  import opened Mmu
  import opened CacheAccess
  import opened FlatMachine
  import opened TlbRequests
  import Turns
  import Tlb

  /** Memory, the lines of the cache, and the TLB. */
  datatype Machine = Machine(s: Snap, tlb: seq<Tlb.Entry>, capacity: nat)

  /** A turn of a process, with what its reads gave; or a request to memory. */
  datatype Event = Turn(t: Turns.Turn, output: seq<seq<byte>>) | Ask(r: Request)

  // ---- Steps

  /** What a turn does. */
  ghost predicate TurnStep(a: Machine, t: Turns.Turn, output: seq<seq<byte>>, b: Machine)
    requires Shape(a.s.m)
  {
    && Confined(a.s, b.s, t.pid) && PidSound(b.s, t.pid)
    && Tlb.TlbOk(b.s.m, b.tlb, b.capacity) && b.capacity == a.capacity
    && Flatten(SeenIn(b.s, t.pid)) == FlatRun(Flatten(SeenIn(a.s, t.pid)), t.trace).0
    && output == FlatRun(Flatten(SeenIn(a.s, t.pid)), t.trace).1
    && (t.end == Turns.Exits ==> NoLine(b.s.lines, t.pid))
  }

  ghost predicate Step(a: Machine, e: Event, b: Machine)
    requires Inv(a.s.m)
  {
    match e
    case Turn(t, output) => TurnStep(a, t, output, b)
    case Ask(r) => b == a.(s := Snap(Serve(a.s.m, r).0, a.s.lines))
  }

  /** The process has left this cache, as far as the request can tell: suspension and
      deletion need all its lines gone, a page write the one of that page. */
  ghost predicate Away(s: Snap, r: Request)
    requires Shape(s.m)
  {
    match r
    case SuspendProcess(pid) => NoLine(s.lines, pid)
    case DeleteProcess(pid) => NoLine(s.lines, pid)
    case WriteBack(pid, base, _) =>
      forall k :: 0 <= k < |s.lines| && s.lines[k].pid == pid ==> FrameOf(s.m, pid, s.lines[k].page) != Ok(base)
    case _ => true
  }

  /** What each event needs: a turn, that lookups by page alone are right for it; a
      request, that memory allows it, that its process has left this cache, and that
      the TLB holds nothing that it spoils. */
  ghost predicate Clear(a: Machine, e: Event)
    requires Inv(a.s.m)
  {
    match e
    case Turn(t, _) => NoClash(a.s, t.pid)
    case Ask(r) => Allowed(a.s.m, r) && Away(a.s, r) && TlbSpared(a.s.m, r, a.tlb)
  }

  // ---- What holds all along

  /** The bytes of a process: what it sees when it is in memory, its block when not. */
  ghost function Has(s: Snap, q: nat): Image
    requires Shape(s.m)
  {
    if Resident(s.m, q) then SeenIn(s, q) else ImageOf(s.m, q)
  }

  ghost predicate LinesSound(s: Snap) {
    forall k :: 0 <= k < |s.lines| && s.lines[k].pid >= 0 ==> PidSound(s, s.lines[k].pid)
  }

  /** A process that exists, and whose lines are right if it is in memory. */
  ghost predicate Present(s: Snap, q: nat) {
    Shape(s.m) && Exists(s.m, q) && (Resident(s.m, q) ==> PidSound(s, q))
  }

  /** Memory, TLB and cache agree, and the processes there are have these flat arrays. */
  ghost predicate Good(a: Machine, flats: map<nat, seq<byte>>) {
    && Inv(a.s.m) && Tlb.TlbOk(a.s.m, a.tlb, a.capacity) && LinesSound(a.s)
    && (forall q: nat :: q in flats <==> Exists(a.s.m, q))
    && forall q :: q in flats ==> Present(a.s, q) && Flatten(Has(a.s, q)) == flats[q]
  }

  /** A process without lines has its image, in memory or in swap. */
  lemma HasImage(s: Snap, q: nat)
    requires Shape(s.m) && NoLine(s.lines, q)
    ensures Has(s, q) == ImageOf(s.m, q)
    ensures Exists(s.m, q) ==> Present(s, q)
  {
    SwappedIff(s.m.blocks, q);
    if Resident(s.m, q) && Exists(s.m, q) {
      Turns.NoLines(s, q);
    } else if Resident(s.m, q) {
      assert |MemPages(s.m, q)| == 0;
    }
  }

  /** A request leaves what every other process has. */
  lemma AskOther(a: Machine, r: Request, q: nat)
    requires Inv(a.s.m) && Allowed(a.s.m, r) && q != r.pid && Present(a.s, q)
    ensures Inv(Serve(a.s.m, r).0)
    ensures var b := Snap(Serve(a.s.m, r).0, a.s.lines);
            Present(b, q) && Has(b, q) == Has(a.s, q) && (PidSound(a.s, q) ==> PidSound(b, q))
  {
    hide Serve, Allowed, FramesOwned;
    ServeKeeps(a.s.m, r);
    ServeOthers(a.s.m, r, q);
    assert SameImage(a.s.m, Serve(a.s.m, r).0, q);
    SwappedIff(a.s.m.blocks, q);
    SwappedIff(Serve(a.s.m, r).0.blocks, q);
  }

  /** A request leaves the lines of the others right, and who else exists. */
  lemma AskLines(a: Machine, r: Request, k: nat)
    requires Inv(a.s.m) && Allowed(a.s.m, r) && LinesSound(a.s) && k < |a.s.lines|
    requires a.s.lines[k].pid >= 0 && a.s.lines[k].pid != r.pid
    ensures Inv(Serve(a.s.m, r).0) && PidSound(Snap(Serve(a.s.m, r).0, a.s.lines), a.s.lines[k].pid)
  {
    hide Serve, Allowed, FramesOwned, PidSound, Present, Has;
    SoundPresent(a.s, a.s.lines[k].pid);
    AskOther(a, r, a.s.lines[k].pid);
  }

  /** Lines are of processes that are in memory. */
  lemma OwnersResident(s: Snap, pid: nat)
    requires LinesSound(s) && (!Exists(s.m, pid) || !Resident(s.m, pid))
    ensures NoLine(s.lines, pid)
  {
    forall k | 0 <= k < |s.lines| ensures s.lines[k].pid != pid {
      if s.lines[k].pid >= 0 {
        OwnerThere(s, k);
      }
    }
  }

  lemma OwnerThere(s: Snap, k: nat)
    requires LinesSound(s) && k < |s.lines| && s.lines[k].pid >= 0
    ensures Exists(s.m, s.lines[k].pid) && Resident(s.m, s.lines[k].pid)
  {
    assert PidSound(s, s.lines[k].pid);
  }

  // ---- What the request's own process has

  /** Position of a base in a table, or its length. */
  function IndexOf(table: seq<int>, base: int): (j: nat)
    ensures j <= |table| && (j < |table| ==> table[j] == base)
    ensures base in table ==> j < |table|
  {
    if table == [] || table[0] == base then 0 else 1 + IndexOf(table[1..], base)
  }

  /** The flat arrays after an event: a turn runs on its process's array; creation adds
      an array, and deletion takes one away; a page write to a process in memory
      changes its array there; and nothing else changes one. */
  ghost function FlatNext(flats: map<nat, seq<byte>>, m: Mem, e: Event): map<nat, seq<byte>>
    requires Inv(m) && (e.Ask? ==> Allowed(m, e.r))
  {
    match e
    case Turn(t, _) => if t.pid in flats then flats[t.pid := FlatRun(flats[t.pid], t.trace).0] else flats
    case Ask(r) =>
      ServeKeeps(m, r);
      var (next, error) := Serve(m, r);
      if error.Some? then flats
      else
        match r
        case CreateProcess(pid, _, _) => flats[pid := Flatten(ImageOf(next, pid))]
        case DeleteProcess(pid) => flats - {pid}
        case WriteBack(pid, base, value) =>
          if pid in flats && Resident(m, pid) then flats[pid := Written(m, flats[pid], pid, base, value)] else flats
        case _ => flats
  }

  /** The array with the page at that base written. */
  function Written(m: Mem, flat: seq<byte>, pid: nat, base: int, value: Page): seq<byte> {
    MulNonNegative(IndexOf(Table(m, pid), base), m.cfg.pageSize);
    FlatStep(flat, Write(IndexOf(Table(m, pid), base) * m.cfg.pageSize, value))
  }

  lemma CreateOwn(a: Machine, pid: nat, lines: seq<seq<string>>, size: nat)
    requires Inv(a.s.m) && !Exists(a.s.m, pid) && LinesSound(a.s) && Create(a.s.m, pid, lines, size).1.None?
    ensures var b := Snap(Create(a.s.m, pid, lines, size).0, a.s.lines);
            Inv(b.m) && Present(b, pid) && Has(b, pid) == ImageOf(b.m, pid)
  {
    hide FramesOwned, Create;
    CreateKeeps(a.s.m, pid, lines, size);
    OwnersResident(a.s, pid);
    HasImage(Snap(Create(a.s.m, pid, lines, size).0, a.s.lines), pid);
  }

  /** A suspension or unsuspension leaves what its own process has. */
  lemma SwapOwn(a: Machine, r: Request)
    requires Inv(a.s.m) && Allowed(a.s.m, r) && (r.SuspendProcess? || r.UnSuspendProcess?)
    requires Away(a.s, r) && LinesSound(a.s) && Present(a.s, r.pid)
    ensures Inv(Serve(a.s.m, r).0)
    ensures var b := Snap(Serve(a.s.m, r).0, a.s.lines);
            Present(b, r.pid) && Has(b, r.pid) == Has(a.s, r.pid) && LinesSound(b)
  {
    hide Serve, Allowed, FramesOwned, PidSound;
    ServeKeeps(a.s.m, r);
    var b := Snap(Serve(a.s.m, r).0, a.s.lines);
    if r.UnSuspendProcess? && Resident(a.s.m, r.pid) {
      Idle(a.s.m, r.pid);
    } else {
      if r.UnSuspendProcess? {
        OwnersResident(a.s, r.pid);
      }
      assert NoLine(a.s.lines, r.pid);
      assert SameImage(a.s.m, b.m, r.pid);
      HasImage(a.s, r.pid);
      HasImage(b, r.pid);
      forall k | 0 <= k < |a.s.lines| && a.s.lines[k].pid >= 0 ensures PidSound(b, a.s.lines[k].pid) {
        AskLines(a, r, k);
      }
    }
  }

  lemma Idle(m: Mem, pid: nat)
    requires Inv(m) && Resident(m, pid)
    ensures Serve(m, UnSuspendProcess(pid)).0 == m
  {
    NothingBack(m, pid);
  }

  /** A write to a page without a line shows as it is. */
  lemma WriteShowsThrough(cfg: Config, pages: Image, lines: seq<Line>, pid: nat, j: nat, value: Page)
    requires PidOk(cfg, pages, lines, pid) && j < |pages| && |value| == cfg.pageSize
    requires forall k :: 0 <= k < |lines| && lines[k].pid == pid ==> Value(lines[k].page, cfg.entries) != j
    ensures PidOk(cfg, pages[j := value], lines, pid)
    ensures View(cfg, pages[j := value], lines, pid) == View(cfg, pages, lines, pid)[j := value]
  {
  }

  lemma WriteOwn(a: Machine, pid: nat, base: int, value: Page)
    requires Inv(a.s.m) && Resident(a.s.m, pid) && PidSound(a.s, pid) && Away(a.s, WriteBack(pid, base, value))
    requires base in Table(a.s.m, pid) && |value| == a.s.m.cfg.pageSize
    ensures var b := Snap(WritePage(a.s.m, pid, base, value).0, a.s.lines);
            && Inv(b.m) && PidSound(b, pid)
            && SeenIn(b, pid) == SeenIn(a.s, pid)[IndexOf(Table(a.s.m, pid), base) := value]
  {
    hide FramesOwned, View, MemPages, WritePage;
    var m, j := a.s.m, IndexOf(Table(a.s.m, pid), base);
    WriteKeeps(m, pid, j, value);
    forall k | 0 <= k < |a.s.lines| && a.s.lines[k].pid == pid
      ensures Value(a.s.lines[k].page, m.cfg.entries) != j {
      assert LineOk(m.cfg, MemPages(m, pid), a.s.lines[k]);
      MappedIff(m, pid, a.s.lines[k].page);
    }
    WriteShowsThrough(m.cfg, MemPages(m, pid), a.s.lines, pid, j, value);
  }

  /** So its flat array is written there. */
  lemma WriteFlatOwn(a: Machine, pid: nat, base: int, value: Page)
    requires Inv(a.s.m) && Resident(a.s.m, pid) && PidSound(a.s, pid) && Away(a.s, WriteBack(pid, base, value))
    requires base in Table(a.s.m, pid) && |value| == a.s.m.cfg.pageSize
    ensures var b := Snap(WritePage(a.s.m, pid, base, value).0, a.s.lines);
            && Inv(b.m) && PidSound(b, pid)
            && Flatten(SeenIn(b, pid)) == Written(a.s.m, Flatten(SeenIn(a.s, pid)), pid, base, value)
  {
    hide FramesOwned, MemPages, WritePage, Flatten, View, Away;
    WriteOwn(a, pid, base, value);
    ViewUniform(a.s.m.cfg, MemPages(a.s.m, pid), a.s.lines, pid);
    WholePage(SeenIn(a.s, pid), a.s.m.cfg.pageSize, IndexOf(Table(a.s.m, pid), base), value);
  }

  /** Replacing a page is one splice of the flat array. */
  lemma WholePage(seen: Image, size: nat, j: nat, value: Page)
    requires Uniform(seen, size) && j < |seen| && |value| == size
    ensures 0 <= j * size && j * size + size <= |Flatten(seen)|
    ensures Flatten(seen[j := value]) == Splice(Flatten(seen), j * size, value)
  {
    hide Flatten;
    FlattenPage(seen, size, j);
    WholeSplice(seen[j], value);
    FlattenSplice(seen, size, j, 0, value);
  }

  lemma WholeSplice(page: Page, value: Page)
    requires |value| == |page|
    ensures Splice(page, 0, value) == value
  {
  }

  /** A page write to a process in swap reaches none of its bytes. */
  lemma WriteSwapped(s: Snap, pid: nat, base: int, value: Page)
    requires Inv(s.m) && LinesSound(s) && !Resident(s.m, pid) && Present(s, pid)
    ensures var b := Snap(WritePage(s.m, pid, base, value).0, s.lines);
            Shape(b.m) && Present(b, pid) && Has(b, pid) == Has(s, pid)
  {
    hide FramesOwned;
    SwappedIff(s.m.blocks, pid);
  }

  // ---- Steps keep everything

  /** What the lemma on requests needs of the request's own process. */
  lemma AskOwn(a: Machine, r: Request, flats: map<nat, seq<byte>>)
    requires Good(a, flats) && Clear(a, Ask(r))
    ensures Inv(Serve(a.s.m, r).0)
    ensures var b := Snap(Serve(a.s.m, r).0, a.s.lines);
            && (r.pid in FlatNext(flats, a.s.m, Ask(r)) <==> Exists(b.m, r.pid))
            && (Exists(b.m, r.pid) ==>
                  Present(b, r.pid) && Flatten(Has(b, r.pid)) == FlatNext(flats, a.s.m, Ask(r))[r.pid])
  {
    hide TlbSpared, FramesOwned, PidSound, Flatten, Tlb.TlbOk, Create, Delete, Suspend, Unsuspend, WritePage, Written,
         Has, Present, SeenIn;
    ServeKeeps(a.s.m, r);
    var pid := r.pid;
    match r {
      case CreateProcess(_, lines, size) =>
        CreateKeeps(a.s.m, pid, lines, size);
        if Create(a.s.m, pid, lines, size).1.None? {
          CreateOwn(a, pid, lines, size);
        }
      case DeleteProcess(_) => DeleteKeeps(a.s.m, pid);
      case WriteBack(_, base, value) => WriteAny(a, pid, base, value, flats);
      case SuspendProcess(_) =>
        SwapExists(a.s.m, r);
        if Exists(a.s.m, pid) {
          SwapOwn(a, r);
        }
      case UnSuspendProcess(_) =>
        SwapExists(a.s.m, r);
        if Exists(a.s.m, pid) {
          SwapOwn(a, r);
        }
    }
  }

  lemma SwapExists(m: Mem, r: Request)
    requires Inv(m) && Allowed(m, r) && (r.SuspendProcess? || r.UnSuspendProcess?)
    ensures Exists(Serve(m, r).0, r.pid) <==> Exists(m, r.pid)
  {
    hide FramesOwned, Serve;
    ServeKeeps(m, r);
    assert SameImage(m, Serve(m, r).0, r.pid);
  }

  lemma WriteAny(a: Machine, pid: nat, base: int, value: Page, flats: map<nat, seq<byte>>)
    requires Good(a, flats) && Clear(a, Ask(WriteBack(pid, base, value)))
    ensures Inv(WritePage(a.s.m, pid, base, value).0)
    ensures var b, r := Snap(WritePage(a.s.m, pid, base, value).0, a.s.lines), WriteBack(pid, base, value);
            && (pid in FlatNext(flats, a.s.m, Ask(r)) <==> Exists(b.m, pid))
            && (Exists(b.m, pid) ==> Present(b, pid) && Flatten(Has(b, pid)) == FlatNext(flats, a.s.m, Ask(r))[pid])
  {
    hide TlbSpared, FramesOwned, PidSound, Flatten, Tlb.TlbOk, Written, Has, SeenIn, MemPages, Away;
    var r := WriteBack(pid, base, value);
    ServeKeeps(a.s.m, r);
    if WritePage(a.s.m, pid, base, value).1.None? {
      if Resident(a.s.m, pid) {
        assert Present(a.s, pid);
        WriteFlatOwn(a, pid, base, value);
        SoundPresent(a.s, pid);
        SoundPresent(Snap(WritePage(a.s.m, pid, base, value).0, a.s.lines), pid);
      } else {
        WriteSwapped(a.s, pid, base, value);
      }
    }
  }

  /** The lines of the request's own process, if it still has some. */
  lemma AskOwnLines(a: Machine, r: Request, k: nat)
    requires Inv(a.s.m) && LinesSound(a.s) && Clear(a, Ask(r)) && k < |a.s.lines| && a.s.lines[k].pid == r.pid
    ensures Inv(Serve(a.s.m, r).0) && PidSound(Snap(Serve(a.s.m, r).0, a.s.lines), r.pid)
  {
    hide TlbSpared, FramesOwned, PidSound, Create, Delete, Suspend, Unsuspend;
    ServeKeeps(a.s.m, r);
    assert PidSound(a.s, a.s.lines[k].pid);
    SoundPresent(a.s, r.pid);
    match r {
      case UnSuspendProcess(pid) => Idle(a.s.m, pid);
      case WriteBack(pid, base, value) =>
        if WritePage(a.s.m, pid, base, value).1.None? {
          WriteOwn(a, pid, base, value);
        }
      case _ =>
    }
  }

  lemma AskKeeps(a: Machine, r: Request, b: Machine, flats: map<nat, seq<byte>>)
    requires Good(a, flats) && Clear(a, Ask(r)) && Step(a, Ask(r), b)
    ensures Good(b, FlatNext(flats, a.s.m, Ask(r)))
  {
    hide Serve, Allowed, Away, TlbSpared, FramesOwned, PidSound, Present, Has, Flatten, Tlb.TlbOk, LinesSound,
         FlatNext;
    ServeKeeps(a.s.m, r);
    TlbServeIff(a.s.m, r, a.tlb, a.capacity);
    AskAllLines(a, r);
    AskOwn(a, r, flats);
    AskRest(a, r, b, flats);
  }

  lemma AskAllLines(a: Machine, r: Request)
    requires Inv(a.s.m) && LinesSound(a.s) && Clear(a, Ask(r))
    ensures Inv(Serve(a.s.m, r).0) && LinesSound(Snap(Serve(a.s.m, r).0, a.s.lines))
  {
    hide Serve, Allowed, Away, TlbSpared, FramesOwned, PidSound;
    ServeKeeps(a.s.m, r);
    forall k | 0 <= k < |a.s.lines| && a.s.lines[k].pid >= 0
      ensures PidSound(Snap(Serve(a.s.m, r).0, a.s.lines), a.s.lines[k].pid) {
      if a.s.lines[k].pid == r.pid {
        AskOwnLines(a, r, k);
      } else {
        AskLines(a, r, k);
      }
    }
  }

  lemma AskRest(a: Machine, r: Request, b: Machine, flats: map<nat, seq<byte>>)
    requires Good(a, flats) && Clear(a, Ask(r)) && Step(a, Ask(r), b)
    ensures Inv(b.s.m)
    ensures var next := FlatNext(flats, a.s.m, Ask(r));
            forall q: nat :: q != r.pid ==>
              (q in next <==> Exists(b.s.m, q)) && (q in next ==> Present(b.s, q) && Flatten(Has(b.s, q)) == next[q])
  {
    hide Serve, Allowed, Away, TlbSpared, FramesOwned, PidSound, Present, Has, Flatten, Tlb.TlbOk;
    ServeKeeps(a.s.m, r);
    forall q: nat | q != r.pid
      ensures var next := FlatNext(flats, a.s.m, Ask(r));
              (q in next <==> Exists(b.s.m, q)) && (q in next ==> Present(b.s, q) && Flatten(Has(b.s, q)) == next[q]) {
      ServeOthers(a.s.m, r, q);
      OtherFlat(flats, a.s.m, r, q);
      if q in flats {
        AskOther(a, r, q);
      }
    }
  }

  lemma OtherFlat(flats: map<nat, seq<byte>>, m: Mem, r: Request, q: nat)
    requires Inv(m) && Allowed(m, r) && q != r.pid
    ensures var next := FlatNext(flats, m, Ask(r)); (q in next <==> q in flats) && (q in flats ==> next[q] == flats[q])
  {
    hide Serve, Allowed, FramesOwned, Written;
  }

  lemma SoundPresent(s: Snap, q: nat)
    requires PidSound(s, q)
    ensures Present(s, q) && Resident(s.m, q) && Has(s, q) == SeenIn(s, q)
  {
  }

  /** A turn leaves what every other process has. */
  lemma TurnOther(a: Snap, b: Snap, pid: nat, q: nat)
    requires Confined(a, b, pid) && q != pid && Present(a, q)
    ensures Present(b, q) && Has(b, q) == Has(a, q) && (PidSound(a, q) ==> PidSound(b, q))
  {
    hide FramesOwned;
    SwappedIff(a.m.blocks, q);
  }

  lemma TurnKeeps(a: Machine, t: Turns.Turn, output: seq<seq<byte>>, b: Machine, flats: map<nat, seq<byte>>)
    requires Good(a, flats) && t.pid in flats && Resident(a.s.m, t.pid) && Step(a, Turn(t, output), b)
    ensures Good(b, FlatNext(flats, a.s.m, Turn(t, output))) && output == FlatRun(flats[t.pid], t.trace).1
  {
    hide FramesOwned, PidSound, SeenIn, Flatten, FlatRun, Tlb.TlbOk;
    assert Present(a.s, t.pid);
    SoundPresent(a.s, t.pid);
    SoundPresent(b.s, t.pid);
    forall k | 0 <= k < |b.s.lines| && b.s.lines[k].pid >= 0 ensures PidSound(b.s, b.s.lines[k].pid) {
      if b.s.lines[k].pid != t.pid {
        LineThere(a.s, b.s, t.pid, k);
      }
    }
    forall q | q in flats && q != t.pid ensures Present(b.s, q) && Flatten(Has(b.s, q)) == flats[q] {
      TurnOther(a.s, b.s, t.pid, q);
    }
  }

  /** A line of another process after a turn was there before. */
  lemma LineThere(a: Snap, b: Snap, pid: nat, k: nat)
    requires Confined(a, b, pid) && LinesSound(a) && k < |b.lines| && b.lines[k].pid >= 0 && b.lines[k].pid != pid
    ensures PidSound(b, b.lines[k].pid)
  {
    hide PidSound, SeenIn, Inv;
    assert HasLine(a.lines, b.lines[k].pid, b.lines[k].page);
    var j :| 0 <= j < |a.lines| && a.lines[j].pid == b.lines[k].pid && a.lines[j].page == b.lines[k].page;
    assert PidSound(a, a.lines[j].pid);
  }

  // ---- Whole sessions

  /** The states that a session goes through: every turn is of a process that is in
      memory, and every event is clear when it comes. */
  ghost predicate Session(states: seq<Machine>, events: seq<Event>)
    decreases |events|
  {
    && |states| == |events| + 1
    && (events != [] ==>
          && Inv(states[0].s.m) && Step(states[0], events[0], states[1]) && Clear(states[0], events[0])
          && (events[0].Turn? ==> Exists(states[0].s.m, events[0].t.pid) && Resident(states[0].s.m, events[0].t.pid))
          && Session(states[1..], events[1..]))
  }

  /** The arrays after a session. */
  ghost function FlatSession(flats: map<nat, seq<byte>>, states: seq<Machine>, events: seq<Event>): map<nat, seq<byte>>
    requires Session(states, events)
    decreases |events|
  {
    if events == [] then flats else FlatSession(FlatNext(flats, states[0].s.m, events[0]), states[1..], events[1..])
  }

  predicate FlatTurn(flats: map<nat, seq<byte>>, e: Event) {
    e.Turn? ==> e.t.pid in flats && e.output == FlatRun(flats[e.t.pid], e.t.trace).1
  }

  /** Every turn of the session gave what the flat arrays give. */
  ghost predicate FlatOutputs(flats: map<nat, seq<byte>>, states: seq<Machine>, events: seq<Event>)
    requires Session(states, events)
    decreases |events|
  {
    events == [] ||
    (FlatTurn(flats, events[0]) && FlatOutputs(FlatNext(flats, states[0].s.m, events[0]), states[1..], events[1..]))
  }

  /** Turns, preempted or not, and requests in any order: every read gives, and every
      process has at the end, what one flat byte array per process would, from its
      creation to its end, however often it is swapped out and in between. */
  lemma {:induction false} SessionKeeps(states: seq<Machine>, events: seq<Event>, flats: map<nat, seq<byte>>)
    requires Session(states, events) && Good(states[0], flats)
    ensures Good(states[|events|], FlatSession(flats, states, events)) && FlatOutputs(flats, states, events)
    decreases |events|
  {
    hide Good, Step, Allowed, Away, TlbSpared, NoClash, FlatNext, FlatRun, Exists;
    if events != [] {
      StepKeeps(states[0], events[0], states[1], flats);
      SessionKeeps(states[1..], events[1..], FlatNext(flats, states[0].s.m, events[0]));
    }
  }

  /** One event. */
  lemma StepKeeps(a: Machine, e: Event, b: Machine, flats: map<nat, seq<byte>>)
    requires Good(a, flats) && Clear(a, e) && Step(a, e, b)
    requires e.Turn? ==> Exists(a.s.m, e.t.pid) && Resident(a.s.m, e.t.pid)
    ensures Good(b, FlatNext(flats, a.s.m, e)) && FlatTurn(flats, e)
  {
    hide Step, Clear, Present, Has, FlatRun, LinesSound, FramesOwned;
    match e {
      case Turn(t, output) => TurnKeeps(a, t, output, b, flats);
      case Ask(r) => AskKeeps(a, r, b, flats);
    }
  }

  /** An empty memory, and a CPU that has just started. */
  ghost predicate Blank(a: Machine) {
    Inv(a.s.m) && a.s.m.procs == [] && a.tlb == [] && forall k :: 0 <= k < |a.s.lines| ==> a.s.lines[k].pid == -1
  }

  /** So from the very start: every process that a session creates runs on its own
      flat array until the session deletes it. */
  lemma SessionFromBlank(states: seq<Machine>, events: seq<Event>)
    requires Session(states, events) && Blank(states[0])
    ensures FlatOutputs(map[], states, events)
    ensures Good(states[|events|], FlatSession(map[], states, events))
    ensures forall q: nat :: q in FlatSession(map[], states, events) <==> Exists(states[|events|].s.m, q)
  {
    hide Step, Clear, FlatNext, FlatRun, FlatSession, FlatOutputs;
    BlankGood(states[0]);
    SessionKeeps(states, events, map[]);
  }

  lemma BlankGood(a: Machine)
    requires Blank(a)
    ensures Good(a, map[])
  {
    forall q: nat ensures !Exists(a.s.m, q) {
    }
  }

  // ---- The program's own steps

  ghost function MachineOf(c: Cpu): Machine
    reads c, c.tlb, c.memory, c.memory.userMemory, c.memory.reservationBits
  {
    Machine(c.Now(), c.tlb.entries, c.tlb.capacity)
  }

  /** A turn on the CPU is such a step. */
  method Perform(c: Cpu, t: Turns.Turn, spare: seq<byte>, ghost flats: map<nat, seq<byte>>)
    returns (output: seq<seq<byte>>)
    requires c.memory.Valid() && c.Linked() && OneHand(c.entries) && (c.cacheEnable <==> c.entries != [])
    requires Good(MachineOf(c), flats) && Clear(MachineOf(c), Turn(t, [])) && Exists(c.memory.Model(), t.pid)
        && Resident(c.memory.Model(), t.pid)
    requires forall j :: 0 <= j < |t.trace| ==>
               Legal(c.memory.cfg, Reach(c.memory.cfg, |Table(c.memory.Model(), t.pid)|), c.cacheEnable, t.trace[j])
    modifies c`pid, c`entries, c`lines, c.tlb, c.memory.userMemory, Buffers(c.entries)
    ensures c.memory.Valid() && c.Linked() && OneHand(c.entries) && (c.cacheEnable <==> c.entries != [])
    ensures Step(old(MachineOf(c)), Turn(t, output), MachineOf(c))
    ensures Good(MachineOf(c), FlatNext(flats, old(c.memory.Model()), Turn(t, output)))
    ensures fresh(Buffers(c.entries) - old(Buffers(c.entries)))
  {
    hide SeenIn, PidSound, NoClash, FramesOwned, Matches, Separate, EmptyOk, Legal, Reach, Flatten, FlatRun, Confined,
         Tlb.TlbOk;
    ghost var was := MachineOf(c);
    assert Present(was.s, t.pid);
    c.pid := t.pid;
    SeenUniform(c);
    output := Turns.RunTurn(c, t, spare);
    RunningSound(c);
    TurnKeeps(was, t, output, MachineOf(c), flats);
  }

  /** The memory module's operation for a request. */
  method ServeRequest(memory: Storage, r: Request) returns (e: Option<Error>)
    requires memory.Valid() && Allowed(memory.Model(), r)
    modifies memory, memory.userMemory, memory.reservationBits
    ensures (memory.Model(), e) == Serve(old(memory.Model()), r) && memory.Valid()
  {
    hide FramesOwned, Create, Delete, Suspend, Unsuspend, WritePage;
    ghost var m := memory.Model();
    match r {
      case CreateProcess(pid, lines, size) => e := memory.CreateProcess(pid, lines, size);
      case DeleteProcess(pid) => e := memory.DeleteProcess(pid);
      case WriteBack(pid, base, value) =>
        ServeKeeps(m, r);
        e := memory.WritePage(pid, base, value);
      case SuspendProcess(pid) => e := memory.SuspendProcess(pid);
      case UnSuspendProcess(pid) => e := memory.UnSuspendProcess(pid);
    }
  }

  /** So is a request that the memory module serves between turns. */
  method Answer(c: Cpu, r: Request, ghost flats: map<nat, seq<byte>>) returns (e: Option<Error>)
    requires c.memory.Valid() && c.Linked() && Good(MachineOf(c), flats) && Clear(MachineOf(c), Ask(r))
    modifies c.memory, c.memory.userMemory, c.memory.reservationBits
    ensures e == Serve(old(c.memory.Model()), r).1 && Step(old(MachineOf(c)), Ask(r), MachineOf(c))
    ensures c.memory.Valid() && c.Linked() && Good(MachineOf(c), FlatNext(flats, old(c.memory.Model()), Ask(r)))
  {
    hide PidSound, FramesOwned, Serve, Allowed, TlbSpared, Matches, Separate, EmptyOk, Present, Has, Tlb.TlbOk,
         FlatNext, LinesSound;
    ghost var was := MachineOf(c);
    OutsideMemory(c);
    e := ServeRequest(c.memory, r);
    AskKeeps(was, r, MachineOf(c), flats);
  }
}
