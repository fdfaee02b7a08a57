/** The kernel, the memory module and one of the CPUs together: without interrupts,
    whatever the kernel asks of memory between the turns is clear for the session on
    that CPU, so every process runs on its own flat array throughout. */
module Joint {
  import opened Wrappers
  import opened Pages
  import opened Memory
  import opened Requests
  import opened Keeps
  import opened KernelState
  import opened KernelRuns
  import opened KernelWhere
  import opened KernelSystem
  import opened Coherence
  import opened CpuState
  import opened TlbRequests
  import MemoryRuns
  import Sessions
  import Turns
  import Tlb

  /** Kernel and memory, and a CPU's cache and TLB. */
  datatype Whole = Whole(s: System, lines: seq<Line>, tlb: seq<Tlb.Entry>, capacity: nat) {
    function Machine(): Sessions.Machine { Sessions.Machine(Snap(s.m, lines), tlb, capacity) }
  }

  /** A kernel event or a write-back of another CPU; or a whole turn on this one. */
  datatype Item = Kernels(h: Happening) | Turned(t: Turns.Turn, output: seq<seq<byte>>)

  /** What it means for the session on the CPU. */
  function EventOf(k: Kernel, x: Item): Option<Sessions.Event> {
    match x
    case Kernels(h) => (match Asked(k, h) case Some(r) => Some(Sessions.Ask(r)) case None => None)
    case Turned(t, output) => Some(Sessions.Turn(t, output))
  }

  /** Kernel events are possible and on time, no result is an interrupt, a request
      finds nothing in the TLB that it spoils, and a turn is of the process that the
      kernel has on this CPU and ends by EXIT or a blocking call. */
  ghost predicate Can(w: Whole, cpu: nat, x: Item)
    requires SystemOk(w.s.k, w.s.m)
  {
    match x
    case Kernels(h) =>
      && Possible(w.s, h)
      && (h.Happens? ==> DumpOnTime(w.s.k, h.e) && (h.e.Result? ==> h.e.reason == Exit))
      && (Asked(w.s.k, h).Some? ==> w.capacity == 0 || TlbSpared(w.s.m, Asked(w.s.k, h).value, w.tlb))
    case Turned(t, _) => Runs(w.s.k, cpu) && w.s.k.cpus[cpu] == Some(t.pid) && t.end == Turns.Exits
  }

  ghost predicate Step(a: Whole, x: Item, b: Whole)
    requires SystemOk(a.s.k, a.s.m)
  {
    match x
    case Kernels(h) => Possible(a.s, h) && b == a.(s := SystemNext(a.s, h))
    case Turned(t, output) =>
      b.s == a.s.(m := b.s.m) && Sessions.Step(a.Machine(), Sessions.Turn(t, output), b.Machine())
  }

  ghost predicate NoneUsed(lines: seq<Line>) {
    forall k :: 0 <= k < |lines| ==> lines[k].pid < 0
  }

  /** Between turns: kernel and memory agree, no cache holds anything of a process
      that has not ended, this one nothing at all, and the processes have their arrays. */
  ghost predicate JointOk(w: Whole, flats: map<nat, seq<byte>>) {
    && SystemOk(w.s.k, w.s.m) && LeftEnded(w.s) && NoneUsed(w.lines) && Sessions.Good(w.Machine(), flats)
  }

  // ---- Every item is clear

  /** With an empty cache only the TLB matters to a request. */
  lemma NoneUsedAway(s: Snap, r: MemoryRuns.Request)
    requires Shape(s.m) && NoneUsed(s.lines)
    ensures Sessions.Away(s, r)
  {
  }

  lemma NoneUsedClash(s: Snap, pid: nat)
    requires NoneUsed(s.lines)
    ensures NoClash(s, pid)
  {
  }

  /** A request that the kernel makes, or another CPU's write-back, is clear. */
  lemma AskedClear(w: Whole, cpu: nat, h: Happening, flats: map<nat, seq<byte>>)
    requires JointOk(w, flats) && Can(w, cpu, Kernels(h)) && Asked(w.s.k, h).Some?
    ensures Sessions.Clear(w.Machine(), Sessions.Ask(Asked(w.s.k, h).value))
  {
    hide SystemOk, LeftEnded, Possible, DumpOnTime, Stale, TlbSpared, Sessions.LinesSound, Sessions.Has,
         Sessions.Present, MemoryRuns.Allowed;
    AskedAllowedIff(w.s, h);
    LeftStep(w.s, h);
    NoneUsedAway(w.Machine().s, Asked(w.s.k, h).value);
    if w.capacity == 0 {
      EmptySpared(w, Asked(w.s.k, h).value);
    }
  }

  lemma EmptySpared(w: Whole, r: MemoryRuns.Request)
    requires w.capacity == 0 && w.s.m.cfg.Ok() && Tlb.TlbOk(w.s.m, w.tlb, w.capacity)
    ensures TlbSpared(w.s.m, r, w.tlb)
  {
    NoEntrySpared(w.s.m, r, w.tlb);
  }

  /** So is a turn of the process that runs here, which is in memory. */
  lemma TurnClear(w: Whole, cpu: nat, t: Turns.Turn, output: seq<seq<byte>>, flats: map<nat, seq<byte>>)
    requires JointOk(w, flats) && Can(w, cpu, Turned(t, output))
    ensures Sessions.Clear(w.Machine(), Sessions.Turn(t, output))
    ensures Exists(w.s.m, t.pid) && Resident(w.s.m, t.pid)
  {
    hide KernelOk, MutexOk, Inv, LeftEnded, Sessions.LinesSound, Sessions.Has, Sessions.Present, Tlb.TlbOk;
    NoneUsedClash(w.Machine().s, t.pid);
    assert Agrees(w.s.m, t.pid, WhereIs(w.s.k, t.pid));
  }

  /** The arrays after an item. */
  ghost function FlatItem(flats: map<nat, seq<byte>>, w: Whole, cpu: nat, x: Item): map<nat, seq<byte>>
    requires JointOk(w, flats) && Can(w, cpu, x)
  {
    match x
    case Kernels(h) =>
      if Asked(w.s.k, h).Some? then
        AskedClear(w, cpu, h, flats);
        Sessions.FlatNext(flats, w.s.m, Sessions.Ask(Asked(w.s.k, h).value))
      else flats
    case Turned(t, output) => Sessions.FlatNext(flats, w.s.m, Sessions.Turn(t, output))
  }

  // ---- Every item keeps everything

  lemma KernelsKeep(a: Whole, cpu: nat, h: Happening, b: Whole, flats: map<nat, seq<byte>>)
    requires JointOk(a, flats) && Can(a, cpu, Kernels(h)) && Step(a, Kernels(h), b)
    ensures JointOk(b, FlatItem(flats, a, cpu, Kernels(h)))
  {
    hide SystemOk, LeftEnded, Possible, DumpOnTime, Stale, TlbSpared, Sessions.Good, Sessions.Clear, MemoryRuns.Serve,
         MemoryRuns.Allowed, Sessions.FlatNext, KernelAfter, LeftNext, MemoryNext, Asked;
    SystemShape(a.s);
    SystemStep(a.s, h);
    LeftStep(a.s, h);
    Served(a.s.k, a.s.m, h);
    if Asked(a.s.k, h).Some? {
      AskedClear(a, cpu, h, flats);
      Sessions.StepKeeps(a.Machine(), Sessions.Ask(Asked(a.s.k, h).value), b.Machine(), flats);
    }
  }

  lemma SystemShape(s: System)
    requires SystemOk(s.k, s.m)
    ensures Inv(s.m)
  {
  }

  /** Only bytes change, so memory has every process where it had it. */
  lemma BytesAgree(k: Kernel, m: Mem, next: Mem)
    requires SystemOk(k, m) && Inv(next) && next == m.(bytes := next.bytes)
    ensures SystemOk(k, next)
  {
    hide KernelOk, MutexOk, FramesOwned, WhereIs;
    forall pid: nat ensures Agrees(next, pid, WhereIs(k, pid)) {
      assert Agrees(m, pid, WhereIs(k, pid));
    }
  }

  /** After a turn that ended the cache is empty again. */
  lemma EmptyAgain(a: Snap, b: Snap, pid: nat)
    requires Confined(a, b, pid) && NoneUsed(a.lines) && NoLine(b.lines, pid)
    ensures NoneUsed(b.lines)
  {
    hide PidSound, SeenIn, Inv;
    forall k | 0 <= k < |b.lines| ensures b.lines[k].pid < 0 {
      NoneUsedLacks(a.lines, b.lines[k].pid, b.lines[k].page);
    }
  }

  lemma NoneUsedLacks(lines: seq<Line>, pid: int, page: seq<int>)
    requires NoneUsed(lines)
    ensures pid >= 0 ==> !HasLine(lines, pid, page)
  {
  }

  lemma TurnedKeep(a: Whole, cpu: nat, t: Turns.Turn, output: seq<seq<byte>>, b: Whole, flats: map<nat, seq<byte>>)
    requires JointOk(a, flats) && Can(a, cpu, Turned(t, output)) && Step(a, Turned(t, output), b)
    ensures JointOk(b, FlatItem(flats, a, cpu, Turned(t, output)))
    ensures Sessions.FlatTurn(flats, Sessions.Turn(t, output))
  {
    hide SystemOk, Sessions.Good, Sessions.Clear, Sessions.FlatNext, Sessions.FlatTurn, KernelOk, MutexOk, PidSound,
         SeenIn, Tlb.TlbOk;
    TurnClear(a, cpu, t, output, flats);
    Sessions.StepKeeps(a.Machine(), Sessions.Turn(t, output), b.Machine(), flats);
    BytesAgree(a.s.k, a.s.m, b.s.m);
    EmptyAgain(a.Machine().s, b.Machine().s, t.pid);
  }

  // ---- Whole runs

  /** The states that a run goes through, each item possible when it comes. */
  ghost predicate Run(states: seq<Whole>, cpu: nat, items: seq<Item>)
    decreases |items|
  {
    && |states| == |items| + 1
    && (items != [] ==>
          && SystemOk(states[0].s.k, states[0].s.m) && Can(states[0], cpu, items[0])
          && Step(states[0], items[0], states[1]) && Run(states[1..], cpu, items[1..]))
  }

  /** Every turn gave what the flat arrays give, and the processes have at the end the
      arrays that the run leaves. */
  ghost predicate RunsFlat(states: seq<Whole>, cpu: nat, items: seq<Item>, flats: map<nat, seq<byte>>)
    requires Run(states, cpu, items)
    decreases |items|
  {
    && JointOk(states[0], flats)
    && (items != [] ==>
          && (items[0].Turned? ==> Sessions.FlatTurn(flats, Sessions.Turn(items[0].t, items[0].output)))
          && RunsFlat(states[1..], cpu, items[1..], FlatItem(flats, states[0], cpu, items[0])))
  }

  /** Over any run of kernel, memory and CPU in which no process is interrupted, with
      any suspensions, timers, IO, dumps that end on time and other CPUs' write-backs
      between the turns, every process runs on its own flat array. */
  lemma {:induction false} RunKeepsFlat(states: seq<Whole>, cpu: nat, items: seq<Item>, flats: map<nat, seq<byte>>)
    requires Run(states, cpu, items) && JointOk(states[0], flats)
    ensures RunsFlat(states, cpu, items, flats)
    decreases |items|
  {
    hide JointOk, Can, Step, FlatItem, SystemOk, Sessions.FlatTurn;
    if items != [] {
      match items[0] {
        case Kernels(h) => KernelsKeep(states[0], cpu, h, states[1], flats);
        case Turned(t, output) => TurnedKeep(states[0], cpu, t, output, states[1], flats);
      }
      RunKeepsFlat(states[1..], cpu, items[1..], FlatItem(flats, states[0], cpu, items[0]));
    }
  }

  /** From the start: no process yet, an empty memory, cache and TLB. */
  lemma RunFromTheStart(states: seq<Whole>, cpu: nat, items: seq<Item>, m: Mem)
    requires Inv(m) && m.procs == [] && m.blocks == []
    requires Run(states, cpu, items) && states[0].s == Boot(m) && states[0].tlb == [] && NoneUsed(states[0].lines)
    ensures RunsFlat(states, cpu, items, map[])
  {
    hide RunsFlat, KernelOk, MutexOk, Can, Step;
    SystemStart(m);
    BlankOk(states[0], m);
    RunKeepsFlat(states, cpu, items, map[]);
  }

  lemma BlankOk(w: Whole, m: Mem)
    requires Inv(m) && m.procs == [] && m.blocks == [] && w.s == Boot(m) && w.tlb == [] && NoneUsed(w.lines)
    requires SystemOk(w.s.k, w.s.m)
    ensures JointOk(w, map[])
  {
    hide SystemOk;
    forall q: nat ensures !Exists(m, q) {
    }
  }
}
