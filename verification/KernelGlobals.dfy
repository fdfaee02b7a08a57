/** The kernel's shared variables and the handlers that change them: every handler
    makes its step. */
module KernelGlobals {
  import opened Wrappers
  import KernelBlocked
  import KernelPlaces
  import KernelState
  import opened KernelRuns

  type STATE = KernelState.STATE
  type Process = KernelState.Process
  type Blocked = KernelState.Blocked
  type Device = KernelState.Device
  type Kernel = KernelState.Kernel
  type SortBy = KernelState.SortBy
  type Reason = KernelState.Reason

  class Globals {
    var procs: seq<Process>
    var queues: map<STATE, seq<nat>>
    var cpus: seq<Option<nat>>
    var mts: seq<Blocked>
    var devices: seq<Device>
    var timers: seq<nat>
    var dumps: seq<nat>
    var mutex: Option<nat>
    var hand: Option<nat>
    var total: nat
    var nextPID: nat

    constructor ()
      ensures Valid() && State() == Start()
    {
      procs := [];
      queues := map[];
      cpus := [];
      mts := [];
      devices := [];
      timers := [];
      dumps := [];
      mutex := None;
      hand := None;
      total := 0;
      nextPID := 0;
      new;
      StartOk();
    }

    ghost function State(): Kernel
      reads this
    {
      KernelState.Kernel(procs, queues, cpus, mts, devices, timers, dumps, mutex, hand, total)
    }

    ghost predicate Valid()
      reads this
    {
      KernelOk(State()) && nextPID == |procs|
    }

    // ---- queues.go

    /** getQueueAndMutex. */
    function QueueOf(s: STATE): (q: seq<nat>)
      reads this
      ensures q == KernelState.Queue(State(), s)
    {
      if s in queues then queues[s] else []
    }

    method Enqueue(s: STATE, pid: nat)
      requires pid < |procs|
      modifies `procs, `queues
      ensures State() == KernelState.Enqueue(old(State()), s, pid) && |procs| == |old(procs)|
    {
      procs := procs[pid := procs[pid].(state := s)];
      queues := queues[s := QueueOf(s) + [pid]];
    }

    method FindByPID(s: STATE, pid: nat) returns (found: bool)
      ensures found <==> pid in KernelState.Queue(State(), s)
    {
      var queue := QueueOf(s);
      for i := 0 to |queue|
        invariant pid !in queue[..i]
      {
        if queue[i] == pid {
          return true;
        }
      }
      return false;
    }

    method RemoveByPID(s: STATE, pid: nat) returns (found: bool)
      modifies `queues
      ensures found <==> pid in old(KernelState.Queue(State(), s))
      ensures found ==> State() == KernelState.RemoveByPID(old(State()), s, pid)
      ensures !found ==> State() == old(State())
    {
      var queue := QueueOf(s);
      for i := 0 to |queue|
        invariant pid !in queue[..i] && State() == old(State())
      {
        if queue[i] == pid {
          RemoveAt(queue, pid, i);
          queues := queues[s := queue[..i] + queue[i + 1..]];
          return true;
        }
      }
      return false;
    }

    /** Search: the queue is sorted in place; `sorted` is how sort.Slice leaves it. */
    method Search(s: STATE, sortBy: SortBy, sorted: seq<nat>) returns (r: Option<nat>)
      requires KernelState.Sorts(procs, KernelState.Queue(State(), s), sortBy, sorted)
      modifies `queues
      ensures r == if sorted == [] then None else Some(sorted[0])
      ensures KernelState.Queue(State(), s) == sorted
      ensures State() == old(State()) || State() == KernelState.SetQueue(old(State()), s, sorted)
      ensures r.Some? ==> KernelPlaces.ComesFirst(procs, old(QueueOf(s)), sortBy, r.value)
      ensures r.None? <==> old(QueueOf(s)) == []
    {
      hide KernelState.Sorts, KernelPlaces.ComesFirst;
      SortedSize(procs, QueueOf(s), sortBy, sorted);
      if |QueueOf(s)| == 0 {
        return None;
      }
      KernelPlaces.SortTakesLeast(procs, QueueOf(s), sortBy, sorted);
      if |QueueOf(s)| == 1 {
        return Some(QueueOf(s)[0]);
      }
      if sortBy != KernelState.NoSort {
        queues := queues[s := sorted];
      }
      return Some(QueueOf(s)[0]);
    }

    /** Dequeue: the first of the sorted queue is taken. */
    method Dequeue(s: STATE, sortBy: SortBy, sorted: seq<nat>) returns (r: Option<nat>)
      requires KernelState.Sorts(procs, KernelState.Queue(State(), s), sortBy, sorted)
      modifies `queues
      ensures sorted == [] ==> r == None && State() == old(State())
      ensures sorted != [] ==> r == Some(sorted[0]) && State() == KernelState.SetQueue(old(State()), s, sorted[1..])
      ensures r.Some? ==> KernelPlaces.ComesFirst(procs, old(QueueOf(s)), sortBy, r.value)
      ensures r.None? <==> old(QueueOf(s)) == []
    {
      hide KernelState.Sorts, KernelPlaces.ComesFirst;
      SortedSize(procs, QueueOf(s), sortBy, sorted);
      if |QueueOf(s)| == 0 {
        return None;
      }
      KernelPlaces.SortTakesLeast(procs, QueueOf(s), sortBy, sorted);
      var queue := QueueOf(s);
      if |queue| == 1 {
        queues := queues[s := queue[1..]];
        return Some(queue[0]);
      }
      if sortBy != KernelState.NoSort {
        queue := sorted;
      }
      r := Some(queue[0]);
      queues := queues[s := queue[1..]];
    }

    // ---- cpu_shared.go and globals.go

    method FreeCPU(pid: nat)
      modifies `cpus
      ensures State() == KernelState.FreeCPU(old(State()), pid)
    {
      for i := 0 to |cpus|
        invariant |cpus| == |old(cpus)|
        invariant forall j :: 0 <= j < i ==> cpus[j] == if old(cpus)[j] == Some(pid) then None else old(cpus)[j]
        invariant forall j :: i <= j < |cpus| ==> cpus[j] == old(cpus)[j]
      {
        if cpus[i] == Some(pid) {
          cpus := cpus[i := None];
        }
      }
      assert cpus == KernelState.FreeCPU(old(State()), pid).cpus;
    }

    method GetAvailableCPU() returns (cpu: nat)
      ensures cpu == KernelState.FreeSlot(cpus)
    {
      cpu := 0;
      while cpu < |cpus|
        invariant cpu <= |cpus| && forall j :: 0 <= j < cpu ==> cpus[j].Some?
      {
        if cpus[cpu] == None {
          return;
        }
        cpu := cpu + 1;
      }
    }

    /** True also when no CPU has connected. */
    method IsCPUAvailable() returns (available: bool)
      ensures available <==> KernelState.FreeSlot(cpus) < |cpus| || cpus == []
    {
      var cpu := GetAvailableCPU();
      available := cpu < |cpus| || |cpus| == 0;
    }

    method RemoveBlockedByPID(pid: nat)
      modifies `mts
      ensures State() == old(State()).(mts := KernelState.RemoveBlocked(old(mts), pid))
    {
      for i := 0 to |mts|
        invariant State() == old(State()) && forall j :: 0 <= j < i ==> mts[j].pid != pid
      {
        if mts[i].pid == pid {
          KernelBlocked.RemoveIsWithout(mts, pid, i);
          mts := mts[..i] + mts[i + 1..];
          return;
        }
      }
      KernelBlocked.RemoveNone(mts, pid);
    }
  }

  lemma {:induction false} RemoveAt(q: seq<nat>, pid: nat, i: nat)
    requires i < |q| && q[i] == pid && pid !in q[..i]
    ensures KernelState.Remove(q, pid) == q[..i] + q[i + 1..]
  {
    if i > 0 {
      assert q[0] in q[..i] && q[1..][..i - 1] == q[..i][1..];
      RemoveAt(q[1..], pid, i - 1);
      assert q[..i] + q[i + 1..] == [q[0]] + (q[1..][..i - 1] + q[1..][i..]);
    }
  }

  lemma SortedSize(procs: seq<Process>, queue: seq<nat>, sortBy: SortBy, sorted: seq<nat>)
    requires KernelState.Sorts(procs, queue, sortBy, sorted)
    ensures |sorted| == |queue| && (|queue| < 2 || sortBy == KernelState.NoSort ==> sorted == queue)
  {
    assert |multiset(sorted)| == |sorted| && |multiset(queue)| == |queue|;
  }
}
