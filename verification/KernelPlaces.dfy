/** Every process is in one queue, once: the one that its state names. */
module KernelPlaces {
  import opened Wrappers
  import opened KernelState

  /** How often pid stands in the queue. */
  function Count(q: seq<nat>, pid: nat): nat { multiset(q)[pid] }

  /** Once in the queue of its state, unless it is out, and nowhere else. */
  function Expected(k: Kernel, out: set<nat>, s: STATE, pid: nat): nat {
    if pid < |k.procs| && pid !in out && k.procs[pid].state == s then 1 else 0
  }

  /** Outside `out`, every process stands once in the queue of its state and
      nowhere else. */
  ghost predicate PlacesBut(k: Kernel, out: set<nat>) {
    && k.total == |k.procs|
    && forall s: STATE, p: nat :: Count(Queue(k, s), p) == Expected(k, out, s, p)
  }

  /** The process that MTS holds while memory brings it back. */
  function Held(k: Kernel): set<nat> { if k.hand.Some? then {k.hand.value} else {} }

  ghost predicate Places(k: Kernel) {
    && PlacesBut(k, Held(k))
    && (k.hand.Some? ==> k.hand.value < |k.procs| && k.procs[k.hand.value].state == SUSP_READY)
  }

  lemma {:induction false} RemoveBag(q: seq<nat>, pid: nat)
    ensures multiset(Remove(q, pid)) == multiset(q) - multiset{pid}
  {
    if q != [] {
      assert q == [q[0]] + q[1..];
      if q[0] != pid {
        RemoveBag(q[1..], pid);
      }
    }
  }

  lemma RemoveCount(q: seq<nat>, pid: nat, p: nat)
    ensures Count(Remove(q, pid), p) == if p == pid && Count(q, p) > 0 then Count(q, p) - 1 else Count(q, p)
  {
    RemoveBag(q, pid);
  }

  lemma AppendCount(q: seq<nat>, pid: nat, p: nat)
    ensures Count(q + [pid], p) == Count(q, p) + if p == pid then 1 else 0
  {
  }

  lemma QueueOfOther(k: Kernel, s: STATE, q: seq<nat>)
    ensures Queue(SetQueue(k, s, q), s) == q
    ensures forall t: STATE :: t != s ==> Queue(SetQueue(k, s, q), t) == Queue(k, t)
  {
  }

  lemma CountIn(k: Kernel, out: set<nat>, s: STATE, pid: nat)
    requires PlacesBut(k, out)
    ensures Count(Queue(k, s), pid) == Expected(k, out, s, pid)
  {
  }

  /** A process is where its state says. */
  lemma InPlace(k: Kernel, out: set<nat>, s: STATE, pid: nat)
    requires PlacesBut(k, out)
    ensures pid in Queue(k, s) <==> pid < |k.procs| && pid !in out && k.procs[pid].state == s
  {
    CountIn(k, out, s, pid);
    assert pid in Queue(k, s) <==> Count(Queue(k, s), pid) > 0;
  }

  lemma TakeOut(k: Kernel, out: set<nat>, pid: nat)
    requires PlacesBut(k, out) && pid < |k.procs| && pid !in out
    ensures PlacesBut(RemoveByPID(k, k.procs[pid].state, pid), out + {pid})
  {
    hide Queue, Count, Remove;
    var s := k.procs[pid].state;
    var next := RemoveByPID(k, s, pid);
    QueueOfOther(k, s, Remove(Queue(k, s), pid));
    forall t: STATE, p: nat ensures Count(Queue(next, t), p) == Expected(next, out + {pid}, t, p) {
      CountIn(k, out, t, p);
      CountIn(k, out, s, p);
      RemoveCount(Queue(k, s), pid, p);
    }
  }

  lemma PutIn(k: Kernel, out: set<nat>, s: STATE, pid: nat)
    requires PlacesBut(k, out) && pid < |k.procs| && pid in out
    ensures PlacesBut(Enqueue(k, s, pid), out - {pid})
  {
    hide Queue, Count;
    var next := Enqueue(k, s, pid);
    QueueOfOther(k, s, Queue(k, s) + [pid]);
    SameQueues(SetQueue(k, s, Queue(k, s) + [pid]), next);
    forall t: STATE, p: nat ensures Count(Queue(next, t), p) == Expected(next, out - {pid}, t, p) {
      CountIn(k, out, t, p);
      CountIn(k, out, s, p);
      AppendCount(Queue(k, s), pid, p);
    }
  }

  lemma SameQueues(a: Kernel, b: Kernel)
    ensures a.queues == b.queues ==> forall s: STATE :: Queue(b, s) == Queue(a, s)
  {
  }

  /** Moving a process keeps every process in its place. */
  lemma MovePlaces(k: Kernel, out: set<nat>, pid: nat, s: STATE)
    requires PlacesBut(k, out) && pid < |k.procs| && pid !in out
    ensures PlacesBut(Move(k, pid, s), out)
  {
    TakeOut(k, out, pid);
    PutIn(RemoveByPID(k, k.procs[pid].state, pid), out + {pid}, s, pid);
    assert out + {pid} - {pid} == out;
  }

  /** Places depend on the queues, the states and the total alone. */
  lemma SamePlaces(k: Kernel, next: Kernel, out: set<nat>)
    requires PlacesBut(k, out) && next.queues == k.queues && next.total == k.total && |next.procs| == |k.procs|
    requires forall p :: 0 <= p < |k.procs| ==> next.procs[p].state == k.procs[p].state
    ensures PlacesBut(next, out)
  {
    hide Queue, Count;
    SameQueues(k, next);
    forall t: STATE, p: nat ensures Count(Queue(next, t), p) == Expected(next, out, t, p) {
      CountIn(k, out, t, p);
    }
  }

  lemma SortCounts(procs: seq<Process>, queue: seq<nat>, sortBy: SortBy, order: seq<nat>, p: nat)
    requires Sorts(procs, queue, sortBy, order)
    ensures Count(order, p) == Count(queue, p)
  {
  }

  /** Any sort keeps the places. */
  lemma ReorderPlaces(k: Kernel, out: set<nat>, s: STATE, sortBy: SortBy, order: seq<nat>)
    requires PlacesBut(k, out) && Sorts(k.procs, Queue(k, s), sortBy, order)
    ensures PlacesBut(SetQueue(k, s, order), out)
  {
    hide Sorts, Queue, Count;
    var sorted := SetQueue(k, s, order);
    QueueOfOther(k, s, order);
    forall t: STATE, p: nat ensures Count(Queue(sorted, t), p) == Expected(sorted, out, t, p) {
      CountIn(k, out, t, p);
      SortCounts(k.procs, Queue(k, s), sortBy, order, p);
    }
  }

  /** The first of the sorted queue can be taken. */
  lemma SortPlaces(k: Kernel, out: set<nat>, s: STATE, sortBy: SortBy, order: seq<nat>)
    requires PlacesBut(k, out) && Sorts(k.procs, Queue(k, s), sortBy, order)
    ensures PlacesBut(SetQueue(k, s, order), out)
    ensures order != [] ==> order[0] < |k.procs| && order[0] !in out && k.procs[order[0]].state == s
    ensures order != [] ==> PlacesBut(SetQueue(k, s, order[1..]), out + {order[0]})
  {
    hide Sorts, Queue, PlacesBut;
    ReorderPlaces(k, out, s, sortBy, order);
    var sorted := SetQueue(k, s, order);
    QueueOfOther(k, s, order);
    if order != [] {
      InPlace(sorted, out, s, order[0]);
      assert order[0] in Queue(sorted, s);
      TakeOut(sorted, out, order[0]);
      assert SetQueue(sorted, s, order[1..]) == SetQueue(k, s, order[1..]);
      assert Remove(order, order[0]) == order[1..];
    }
  }

  lemma NewPlaces(k: Kernel, out: set<nat>, size: nat)
    requires PlacesBut(k, out) && forall p :: p in out ==> p < |k.procs|
    ensures PlacesBut(Created(k, size), out)
  {
    hide Queue, Count;
    var pid := |k.procs|;
    var added := k.(procs := k.procs + [Process(NEW, size, 0, false)], total := k.total + 1);
    SameQueues(k, added);
    forall t: STATE, p: nat ensures Count(Queue(added, t), p) == Expected(added, out + {pid}, t, p) {
      CountIn(k, out, t, p);
    }
    PutIn(added, out + {pid}, NEW, pid);
    assert out + {pid} - {pid} == out;
  }

  lemma SendPlaces(k: Kernel, out: set<nat>, pid: nat, cpu: nat, ok: bool)
    requires pid < |k.procs| && cpu < |k.cpus| && pid !in out && PlacesBut(k, out + {pid})
    ensures PlacesBut(SendToExecute(k, pid, cpu, ok), out)
  {
    PutIn(k, out + {pid}, EXEC, pid);
    assert out + {pid} - {pid} == out;
    var sent := Enqueue(k, EXEC, pid).(cpus := k.cpus[cpu := Some(pid)]);
    SamePlaces(Enqueue(k, EXEC, pid), sent, out);
    if !ok {
      MovePlaces(sent, out, pid, READY);
      SamePlaces(Move(sent, pid, READY), SendToExecute(k, pid, cpu, ok), out);
    }
  }

  /** Leaving the CPU keeps places, and the slots and burst do not matter to them. */
  lemma StopPlaces(k: Kernel, out: set<nat>, pid: nat, burst: int, s: STATE)
    requires PlacesBut(k, out) && pid < |k.procs| && pid !in out
    ensures PlacesBut(Stopped(k, pid, burst, s), out)
  {
    var freed := FreeCPU(k.(procs := k.procs[pid := k.procs[pid].(estimatedBurst := burst)]), pid);
    SamePlaces(k, freed, out);
    MovePlaces(freed, out, pid, s);
  }

  lemma BlockPlaces(k: Kernel, out: set<nat>, pid: nat, burst: int, b: Blocked)
    requires PlacesBut(k, out) && pid < |k.procs| && pid !in out
    ensures PlacesBut(BlockOn(k, pid, burst, b), out)
  {
    StopPlaces(k, out, pid, burst, BLOCKED);
    SamePlaces(Stopped(k, pid, burst, BLOCKED), BlockOn(k, pid, burst, b), out);
  }

  lemma IOPlaces(k: Kernel, out: set<nat>, cpu: nat, name: string, time: int, burst: int)
    requires Runs(k, cpu) && PlacesBut(k, out) && k.cpus[cpu].value !in out
    ensures PlacesBut(RequestIO(k, k.cpus[cpu].value, name, time, burst), out)
  {
    var pid, d := k.cpus[cpu].value, FindDevice(k.devices, name);
    MovePlaces(k, out, pid, EXIT);
    var taken := if d < |k.devices| then k.(devices := k.devices[d := k.devices[d].(disp := false)]) else k;
    SamePlaces(k, taken, out);
    BlockPlaces(taken, out, pid, burst, Blocked(pid, name, time, d < |k.devices|));
  }

  lemma ExpiredPlaces(k: Kernel, out: set<nat>, t: nat)
    requires t < |k.timers| && PlacesBut(k, out)
    ensures PlacesBut(Expired(k.(timers := Without(k.timers, t)), k.timers[t]), out)
  {
    var rest, pid := k.(timers := Without(k.timers, t)), k.timers[t];
    SamePlaces(k, rest, out);
    InPlace(rest, out, BLOCKED, pid);
    if pid in Queue(rest, BLOCKED) {
      MovePlaces(rest, out, pid, SUSP_BLOCKED);
      SamePlaces(Move(rest, pid, SUSP_BLOCKED), Expired(rest, pid), out);
    }
  }

  lemma FinishedPlaces(k: Kernel, out: set<nat>, name: string, pid: nat)
    requires PlacesBut(k, out) && (pid < |k.procs| && pid in out ==> k.procs[pid].state == SUSP_READY)
    ensures PlacesBut(Finished(k, name, pid), out)
  {
    var i := FindFinished(k.mts, name, pid);
    if i < |k.mts| && pid < |k.procs| {
      var found := k.(mts := Without(k.mts, i));
      SamePlaces(k, found, out);
      if pid !in out {
        MovePlaces(found, out, pid, SUSP_READY);
        MovePlaces(found, out, pid, READY);
      }
    }
  }

  lemma DumpedPlaces(k: Kernel, out: set<nat>, d: nat, ok: bool)
    requires d < |k.dumps| && PlacesBut(k, out)
    ensures PlacesBut(Dumped(k.(dumps := Without(k.dumps, d)), k.dumps[d], ok), out)
  {
    var rest, pid := k.(dumps := Without(k.dumps, d)), k.dumps[d];
    SamePlaces(k, rest, out);
    if pid < |rest.procs| && pid in Queue(rest, rest.procs[pid].state) {
      InPlace(rest, out, rest.procs[pid].state, pid);
      MovePlaces(rest, out, pid, READY);
      MovePlaces(rest, out, pid, EXIT);
      SamePlaces(Move(rest, pid, READY), Move(rest, pid, READY).(mts := RemoveBlocked(rest.mts, pid)), out);
    }
  }

  /** Steps of the schedulers. */
  lemma SchedulePlaces(k: Kernel, e: Event)
    requires Enabled(k, e) && Places(k)
    requires e.CreateProcess? || e.Search? || e.Admit? || e.ConnectCPU? || e.Dispatch? || e.Preempt?
    ensures Places(Step(k, e))
  {
    hide PlacesBut, Sorts, Scan, Queue, Remove, FreeSlot, FreeCPU;
    var out, next := Held(k), Step(k, e);
    match e
    case CreateProcess(size) => NewPlaces(k, out, size);
    case Search(s, sortBy, order) => SortPlaces(k, out, s, sortBy, order);
    case Admit(pid, _, ok) =>
      InPlace(k, out, NEW, pid);
      MovePlaces(k, out, pid, READY);
    case ConnectCPU => SamePlaces(k, next, out);
    case Dispatch(sortBy, order, ok) =>
      SortPlaces(k, out, READY, sortBy, order);
      SendPlaces(SetQueue(k, READY, order[1..]), out, order[0], FreeSlot(k.cpus), ok);
    case Preempt(cpu, pid, ok) =>
      InPlace(k, out, READY, pid);
      TakeOut(k, out, pid);
      SendPlaces(RemoveByPID(k, READY, pid), out, pid, cpu, ok);
  }

  /** Steps that a CPU causes. */
  lemma CpuPlaces(k: Kernel, e: Event)
    requires Enabled(k, e) && Places(k)
    requires e.Result? || e.SyscallIO? || e.SyscallDump? || e.SyscallExit?
    ensures Places(Step(k, e))
  {
    hide PlacesBut, Sorts, Scan, Queue, Remove, FreeSlot, HasDevice, FindDevice;
    var out, next := Held(k), Step(k, e);
    match e
    case Result(pid, reason, burst) =>
      InPlace(k, out, EXEC, pid);
      if pid in Queue(k, EXEC) {
        StopPlaces(k, out, pid, burst, if reason == Interrupt then READY else EXIT);
      }
    case SyscallIO(cpu, name, time, burst) => IOPlaces(k, out, cpu, name, time, burst);
    case SyscallDump(cpu, burst) =>
      var pid := k.cpus[cpu].value;
      BlockPlaces(k, out, pid, burst, Blocked(pid, "", 0, true));
      SamePlaces(BlockOn(k, pid, burst, Blocked(pid, "", 0, true)), next, out);
    case SyscallExit(cpu) =>
      MovePlaces(k, out, k.cpus[cpu].value, EXIT);
      SamePlaces(Move(k, k.cpus[cpu].value, EXIT), next, out);
  }

  /** Steps of MTS and its timers. */
  lemma SwapPlaces(k: Kernel, e: Event)
    requires Enabled(k, e) && Places(k)
    requires e.ScanBlocked? || e.TimerFires? || e.SwapDone? || e.TakeSuspended? || e.Unsuspended?
    ensures Places(Step(k, e))
  {
    hide PlacesBut, Sorts, Queue, Remove, RemoveBlocked;
    var out, next := Held(k), Step(k, e);
    match e
    case ScanBlocked => SamePlaces(k, next, out);
    case TimerFires(t) => ExpiredPlaces(k, out, t);
    case SwapDone => SamePlaces(k, next, out);
    case TakeSuspended(sortBy, order) =>
      SortPlaces(k, out, SUSP_READY, sortBy, order);
      assert out + {order[0]} == {order[0]};
      SamePlaces(SetQueue(k, SUSP_READY, order[1..]), next, {order[0]});
    case Unsuspended(ok) =>
      var base := k.(mts := RemoveBlocked(k.mts, k.hand.value), hand := None);
      SamePlaces(k, base, out);
      SamePlaces(k, k.(hand := None), out);
      PutIn(base, out, READY, k.hand.value);
      PutIn(k.(hand := None), out, SUSP_READY, k.hand.value);
      assert out - {k.hand.value} == {};
  }

  lemma ArrivedSame(k: Kernel, d: nat, name: string)
    requires d <= |k.devices|
    ensures var next := Arrived(k, d, name); next == k.(devices := next.devices, mts := next.mts)
  {
    hide FindWaiting;
  }

  /** Steps of devices and memory dumps. */
  lemma DevicePlaces(k: Kernel, e: Event)
    requires Enabled(k, e) && Places(k)
    requires e.DeviceFree? || e.IOFinished? || e.IOArrives? || e.DumpDone?
    ensures Places(Step(k, e))
  {
    hide PlacesBut, Remove, RemoveBlocked, FindFinished, Finished, Arrived, Dumped;
    match e
    case DeviceFree(d) => SamePlaces(k, Step(k, e), Held(k));
    case IOFinished(name, pid) => IOFinishedPlaces(k, name, pid);
    case IOArrives(d, name) =>
      ArrivedSame(k, d, name);
      SamePlaces(k, Step(k, e), Held(k));
    case DumpDone(d, ok) => DumpDonePlaces(k, d, ok);
  }

  lemma IOFinishedPlaces(k: Kernel, name: string, pid: nat)
    requires Places(k) && name != ""
    ensures Places(Finished(k, name, pid))
  {
    hide PlacesBut, Remove, FindFinished;
    FinishedPlaces(k, Held(k), name, pid);
  }

  lemma DumpDonePlaces(k: Kernel, d: nat, ok: bool)
    requires Places(k) && d < |k.dumps|
    ensures Places(Dumped(k.(dumps := Without(k.dumps, d)), k.dumps[d], ok))
  {
    hide PlacesBut, Remove, RemoveBlocked;
    InPlace(k, Held(k), StateOf(k, k.dumps[d]), k.dumps[d]);
    DumpedPlaces(k, Held(k), d, ok);
  }

  /** What every step keeps. */
  lemma StepPlaces(k: Kernel, e: Event)
    requires Enabled(k, e) && Places(k)
    ensures Places(Step(k, e))
  {
    hide Places, Enabled, Step;
    match e
    case CreateProcess(_) => SchedulePlaces(k, e);
    case Search(_, _, _) => SchedulePlaces(k, e);
    case Admit(_, _, _) => SchedulePlaces(k, e);
    case ConnectCPU => SchedulePlaces(k, e);
    case Dispatch(_, _, _) => SchedulePlaces(k, e);
    case Preempt(_, _, _) => SchedulePlaces(k, e);
    case Result(_, _, _) => CpuPlaces(k, e);
    case SyscallIO(_, _, _, _) => CpuPlaces(k, e);
    case SyscallDump(_, _) => CpuPlaces(k, e);
    case SyscallExit(_) => CpuPlaces(k, e);
    case DeviceFree(_) => DevicePlaces(k, e);
    case IOFinished(_, _) => DevicePlaces(k, e);
    case IOArrives(_, _) => DevicePlaces(k, e);
    case DumpDone(_, _) => DevicePlaces(k, e);
    case _ => SwapPlaces(k, e);
  }

  // ---- The queues hold every process ever created

  function Below(n: nat): (r: set<nat>)
    ensures |r| == n && forall p: nat :: p in r <==> p < n
  {
    if n == 0 then {} else Below(n - 1) + {n - 1}
  }

  function AllQueues(k: Kernel): multiset<nat> {
    multiset(Queue(k, NEW)) + multiset(Queue(k, READY)) + multiset(Queue(k, EXEC)) + multiset(Queue(k, BLOCKED))
    + multiset(Queue(k, SUSP_BLOCKED)) + multiset(Queue(k, SUSP_READY)) + multiset(Queue(k, EXIT))
  }

  /** The lengths of the seven queues, with the process that MTS holds, add up to
      TotalProcessesCreated. */
  lemma PlacesTotal(k: Kernel)
    requires Places(k)
    ensures |Queue(k, NEW)| + |Queue(k, READY)| + |Queue(k, EXEC)| + |Queue(k, BLOCKED)| + |Queue(k, SUSP_BLOCKED)|
            + |Queue(k, SUSP_READY)| + |Queue(k, EXIT)| + |Held(k)| == k.total
  {
    hide Queue, PlacesBut;
    var here := Below(k.total) - Held(k);
    assert |AllQueues(k)| == |here| by {
      forall p: nat ensures AllQueues(k)[p] == if p in here then 1 else 0 {
        OnceInAll(k, p);
      }
      OnceSize(AllQueues(k), here);
    }
    Sizes(k);
    HeldBelow(k);
    assert Below(k.total) == here + Held(k);
  }

  lemma HeldBelow(k: Kernel)
    requires Places(k)
    ensures Held(k) <= Below(k.total)
  {
  }

  lemma Sizes(k: Kernel)
    ensures |AllQueues(k)| == |Queue(k, NEW)| + |Queue(k, READY)| + |Queue(k, EXEC)| + |Queue(k, BLOCKED)|
            + |Queue(k, SUSP_BLOCKED)| + |Queue(k, SUSP_READY)| + |Queue(k, EXIT)|
  {
    hide Queue;
  }

  lemma {:induction false} OnceSize(m: multiset<nat>, s: set<nat>)
    requires forall p: nat :: m[p] == if p in s then 1 else 0
    ensures |m| == |s|
    decreases |s|
  {
    if s == {} {
      assert m == multiset{};
    } else {
      var x :| x in s;
      OnceSize(m - multiset{x}, s - {x});
      assert m == (m - multiset{x}) + multiset{x};
    }
  }

  lemma OnceInAll(k: Kernel, p: nat)
    requires Places(k)
    ensures AllQueues(k)[p] == if p < k.total && p !in Held(k) then 1 else 0
  {
    hide Queue;
    forall t: STATE ensures Count(Queue(k, t), p) == Expected(k, Held(k), t, p) {
      CountIn(k, Held(k), t, p);
    }
    assert AllQueues(k)[p] == Count(Queue(k, NEW), p) + Count(Queue(k, READY), p) + Count(Queue(k, EXEC), p)
      + Count(Queue(k, BLOCKED), p) + Count(Queue(k, SUSP_BLOCKED), p) + Count(Queue(k, SUSP_READY), p)
        + Count(Queue(k, EXIT), p);
  }

  /** pid comes first in the queue by the policy: no process is smaller, or has a
      shorter estimated burst, or stands before it. */
  ghost predicate ComesFirst(procs: seq<Process>, queue: seq<nat>, sortBy: SortBy, pid: nat) {
    && pid in queue
    && (sortBy == NoSort ==> pid == queue[0])
    && forall p :: p in queue && p < |procs| && pid < |procs| ==>
         && (sortBy == Size ==> procs[pid].size <= procs[p].size)
         && (sortBy == EstimatedBurst ==> procs[pid].estimatedBurst <= procs[p].estimatedBurst)
  }

  /** The head of a sorted queue comes first by the policy, and taking it keeps the
      others. */
  lemma SortTakesLeast(procs: seq<Process>, queue: seq<nat>, sortBy: SortBy, order: seq<nat>)
    requires Sorts(procs, queue, sortBy, order) && order != []
    ensures ComesFirst(procs, queue, sortBy, order[0])
    ensures multiset(order[1..]) == multiset(queue) - multiset{order[0]}
  {
    assert order == [order[0]] + order[1..];
    assert order[0] in multiset(order) && order[0] in queue;
    forall p | p in queue && p < |procs| && order[0] < |procs|
      ensures Key(procs[order[0]], sortBy) <= Key(procs[p], sortBy) {
      assert p in multiset(order);
      var i :| 0 <= i < |order| && order[i] == p;
    }
  }
}
