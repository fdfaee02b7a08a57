/** The blocked list: who waits, and for what. */
module KernelBlocked {
  import opened Wrappers
  import opened KernelState
  import opened KernelPlaces

  /** The process has entry i of the blocked list. */
  predicate Entered(k: Kernel, pid: nat, i: nat) { i < |k.mts| && k.mts[i].pid == pid }

  predicate Waits(s: STATE) { s == BLOCKED || s == SUSP_BLOCKED }

  /** One entry per process, and its process waits, or ended with its dump. */
  ghost predicate EntriesOk(k: Kernel) {
    && (forall i, j :: 0 <= i < j < |k.mts| ==> k.mts[i].pid != k.mts[j].pid)
    && (forall i :: 0 <= i < |k.mts| ==>
          k.mts[i].pid < |k.procs|
          && (Waits(StateOf(k, k.mts[i].pid)) || (StateOf(k, k.mts[i].pid) == EXIT && k.mts[i].name == "")))
  }

  /** Every waiting process has an entry. */
  ghost predicate WaitersOk(k: Kernel) {
    forall p: nat :: p < |k.procs| && Waits(k.procs[p].state) ==> exists i: nat :: Entered(k, p, i)
  }

  /** Every dump under way is of a waiting process with a nameless entry. */
  ghost predicate DumpsOk(k: Kernel) {
    && (forall i, j :: 0 <= i < j < |k.dumps| ==> k.dumps[i] != k.dumps[j])
    && (forall d :: 0 <= d < |k.dumps| ==> k.dumps[d] < |k.procs| && Waits(k.procs[k.dumps[d]].state))
    && (forall i :: 0 <= i < |k.mts| && k.mts[i].pid in k.dumps ==> k.mts[i].name == "")
  }

  ghost predicate BlockedOk(k: Kernel) { EntriesOk(k) && WaitersOk(k) && DumpsOk(k) }

  /** What BlockedOk looks at. */
  ghost predicate SameWaiting(k: Kernel, next: Kernel) {
    && next.mts == k.mts && next.dumps == k.dumps && |next.procs| >= |k.procs|
    && (forall p :: 0 <= p < |k.procs| ==>
          (next.procs[p].state == k.procs[p].state
           || (Waits(k.procs[p].state) && Waits(next.procs[p].state))
           || (!Waits(k.procs[p].state) && k.procs[p].state != EXIT && !Waits(next.procs[p].state))))
    && (forall p :: |k.procs| <= p < |next.procs| ==> !Waits(next.procs[p].state))
  }

  lemma SameBlocked(k: Kernel, next: Kernel)
    requires BlockedOk(k) && SameWaiting(k, next)
    ensures BlockedOk(next)
  {
    forall p: nat | p < |next.procs| && Waits(next.procs[p].state) ensures exists i: nat :: Entered(next, p, i) {
      var i: nat :| Entered(k, p, i);
      assert Entered(next, p, i);
    }
  }

  /** A process that was executing waits, with the entry added for it. */
  lemma AddEntry(k: Kernel, next: Kernel, pid: nat, b: Blocked)
    requires BlockedOk(k) && pid < |k.procs| == |next.procs| && k.procs[pid].state == EXEC && b.pid == pid
    requires next.mts == k.mts + [b] && Waits(next.procs[pid].state)
    requires forall p :: 0 <= p < |k.procs| && p != pid ==> next.procs[p].state == k.procs[p].state
    requires next.dumps == k.dumps || (b.name == "" && next.dumps == k.dumps + [pid])
    ensures BlockedOk(next)
  {
    hide EntriesOk, WaitersOk, DumpsOk;
    AddedEntries(k, next, pid, b);
    AddedWaiters(k, next, pid, b);
    AddedDumps(k, next, pid, b);
  }

  lemma AddedEntries(k: Kernel, next: Kernel, pid: nat, b: Blocked)
    requires EntriesOk(k) && pid < |k.procs| == |next.procs| && k.procs[pid].state == EXEC && b.pid == pid
    requires next.mts == k.mts + [b] && Waits(next.procs[pid].state)
    requires forall p :: 0 <= p < |k.procs| && p != pid ==> next.procs[p].state == k.procs[p].state
    ensures EntriesOk(next)
  {
    forall i | 0 <= i < |k.mts| ensures next.mts[i] == k.mts[i] && k.mts[i].pid != pid {
    }
  }

  lemma AddedWaiters(k: Kernel, next: Kernel, pid: nat, b: Blocked)
    requires WaitersOk(k) && pid < |k.procs| == |next.procs| && b.pid == pid && next.mts == k.mts + [b]
    requires forall p :: 0 <= p < |k.procs| && p != pid ==> next.procs[p].state == k.procs[p].state
    ensures WaitersOk(next)
  {
    forall p: nat | p < |next.procs| && Waits(next.procs[p].state) ensures exists i: nat :: Entered(next, p, i) {
      if p == pid {
        assert Entered(next, p, |k.mts|);
      } else {
        var i: nat :| Entered(k, p, i);
        assert Entered(next, p, i);
      }
    }
  }

  lemma AddedDumps(k: Kernel, next: Kernel, pid: nat, b: Blocked)
    requires DumpsOk(k) && EntriesOk(k) && pid < |k.procs| == |next.procs| && k.procs[pid].state == EXEC && b.pid == pid
    requires next.mts == k.mts + [b] && Waits(next.procs[pid].state)
    requires forall p :: 0 <= p < |k.procs| && p != pid ==> next.procs[p].state == k.procs[p].state
    requires next.dumps == k.dumps || (b.name == "" && next.dumps == k.dumps + [pid])
    ensures DumpsOk(next)
  {
    assert forall d :: 0 <= d < |k.dumps| ==> next.dumps[d] == k.dumps[d] != pid;
    forall i | 0 <= i < |next.mts| && next.mts[i].pid in next.dumps ensures next.mts[i].name == "" {
      if i < |k.mts| {
        assert k.mts[i].pid != pid;
      }
    }
  }

  lemma BlockShape(k: Kernel, pid: nat, burst: int, b: Blocked)
    requires pid < |k.procs|
    ensures var next := BlockOn(k, pid, burst, b);
            && next.mts == k.mts + [b] && next.dumps == k.dumps && |next.procs| == |k.procs|
              && next.procs[pid].state == BLOCKED
            && forall p :: 0 <= p < |k.procs| && p != pid ==> next.procs[p].state == k.procs[p].state
  {
  }

  lemma BlockBlocked(k: Kernel, pid: nat, burst: int, b: Blocked)
    requires BlockedOk(k) && pid < |k.procs| && k.procs[pid].state == EXEC && b.pid == pid
    ensures BlockedOk(BlockOn(k, pid, burst, b))
    ensures b.name == "" ==> BlockedOk(BlockOn(k, pid, burst, b).(dumps := k.dumps + [pid]))
  {
    hide BlockedOk, BlockOn;
    BlockShape(k, pid, burst, b);
    var next := BlockOn(k, pid, burst, b);
    AddEntry(k, next, pid, b);
    if b.name == "" {
      AddEntry(k, next.(dumps := k.dumps + [pid]), pid, b);
    }
  }

  /** A waiting process leaves the blocked list and goes to READY or SUSP_READY. */
  lemma LeaveBlocked(k: Kernel, pid: nat, i: nat, next: Kernel)
    requires BlockedOk(k) && Entered(k, pid, i) && pid !in k.dumps && pid < |k.procs|
    requires next.mts == Without(k.mts, i) && next.dumps == k.dumps && |next.procs| == |k.procs|
    requires forall p :: 0 <= p < |k.procs| && p != pid ==> next.procs[p].state == k.procs[p].state
    requires !Waits(next.procs[pid].state)
    ensures BlockedOk(next)
  {
    WithoutIndex(k.mts, i);
    LeaveEntries(k, pid, i, next);
    LeaveWaiters(k, pid, i, next);
  }

  lemma WithoutIndex(mts: seq<Blocked>, i: nat)
    requires i < |mts|
    ensures |Without(mts, i)| == |mts| - 1
    ensures forall j :: 0 <= j < |mts| - 1 ==> Without(mts, i)[j] == mts[if j < i then j else j + 1]
  {
  }

  lemma LeaveEntries(k: Kernel, pid: nat, i: nat, next: Kernel)
    requires EntriesOk(k) && DumpsOk(k) && Entered(k, pid, i) && pid !in k.dumps && pid < |k.procs|
    requires |next.mts| == |k.mts| - 1 && next.dumps == k.dumps && |next.procs| == |k.procs|
    requires forall j :: 0 <= j < |next.mts| ==> next.mts[j] == k.mts[if j < i then j else j + 1]
    requires forall p :: 0 <= p < |k.procs| && p != pid ==> next.procs[p].state == k.procs[p].state
    ensures EntriesOk(next) && DumpsOk(next)
  {
  }

  lemma LeaveWaiters(k: Kernel, pid: nat, i: nat, next: Kernel)
    requires WaitersOk(k) && Entered(k, pid, i) && pid < |k.procs|
    requires |next.mts| == |k.mts| - 1 && |next.procs| == |k.procs|
    requires forall j :: 0 <= j < |next.mts| ==> next.mts[j] == k.mts[if j < i then j else j + 1]
    requires forall p :: 0 <= p < |k.procs| && p != pid ==> next.procs[p].state == k.procs[p].state
    requires !Waits(next.procs[pid].state)
    ensures WaitersOk(next)
  {
    forall p: nat | p < |next.procs| && Waits(next.procs[p].state) ensures exists j: nat :: Entered(next, p, j) {
      var j: nat :| Entered(k, p, j);
      assert Entered(next, p, if j < i then j else j - 1);
    }
  }

  lemma {:induction false} RemoveIsWithout(mts: seq<Blocked>, pid: nat, i: nat)
    requires i < |mts| && mts[i].pid == pid && forall j :: 0 <= j < i ==> mts[j].pid != pid
    ensures RemoveBlocked(mts, pid) == Without(mts, i)
    decreases i
  {
    if i > 0 {
      assert forall j :: 0 <= j < |mts| - 1 ==> mts[1..][j] == mts[j + 1];
      RemoveIsWithout(mts[1..], pid, i - 1);
      WithoutLater(mts, i);
    } else {
      assert Without(mts, 0) == mts[1..];
    }
  }

  lemma WithoutLater(mts: seq<Blocked>, i: nat)
    requires 0 < i < |mts|
    ensures Without(mts, i) == [mts[0]] + Without(mts[1..], i - 1)
  {
    assert mts[..i] == [mts[0]] + mts[1..][..i - 1];
    assert mts[i + 1..] == mts[1..][i..];
  }

  lemma {:induction false} RemoveNone(mts: seq<Blocked>, pid: nat)
    requires forall j :: 0 <= j < |mts| ==> mts[j].pid != pid
    ensures RemoveBlocked(mts, pid) == mts
  {
    if mts != [] {
      RemoveNone(mts[1..], pid);
    }
  }

  lemma DropDump(k: Kernel, d: nat)
    requires BlockedOk(k) && d < |k.dumps|
    ensures BlockedOk(k.(dumps := Without(k.dumps, d)))
    ensures k.dumps[d] !in Without(k.dumps, d)
    ensures exists i: nat :: Entered(k, k.dumps[d], i) && k.mts[i].name == ""
  {
    var rest := k.(dumps := Without(k.dumps, d));
    DropDumps(k, d);
    assert forall p: nat, i: nat :: Entered(k, p, i) ==> Entered(rest, p, i);
    assert Waits(k.procs[k.dumps[d]].state);
    var i: nat :| Entered(k, k.dumps[d], i);
    assert k.mts[i].pid in k.dumps;
  }

  lemma DropDumps(k: Kernel, d: nat)
    requires DumpsOk(k) && d < |k.dumps|
    ensures DumpsOk(k.(dumps := Without(k.dumps, d))) && k.dumps[d] !in Without(k.dumps, d)
  {
    var rest := Without(k.dumps, d);
    assert forall j :: 0 <= j < |rest| ==> rest[j] == k.dumps[if j < d then j else j + 1];
  }

  /** The end of a dump. */
  lemma DumpedBlocked(k: Kernel, pid: nat, ok: bool)
    requires BlockedOk(k) && pid < |k.procs| && Waits(k.procs[pid].state) && pid !in k.dumps
    requires exists i: nat :: Entered(k, pid, i) && k.mts[i].name == ""
    ensures BlockedOk(Dumped(k, pid, ok))
  {
    hide Queue, Remove, RemoveBlocked;
    var i: nat :| Entered(k, pid, i) && k.mts[i].name == "";
    var next := Dumped(k, pid, ok);
    if pid in Queue(k, k.procs[pid].state) {
      if ok {
        RemoveIsWithout(k.mts, pid, i);
        LeaveBlocked(k, pid, i, next);
      } else {
        forall p: nat | p < |next.procs| && Waits(next.procs[p].state) ensures exists j: nat :: Entered(next, p, j) {
          var j: nat :| Entered(k, p, j);
          assert Entered(next, p, j);
        }
      }
    }
  }

  lemma FinishedBlocked(k: Kernel, name: string, pid: nat)
    requires BlockedOk(k) && name != ""
    ensures BlockedOk(Finished(k, name, pid))
    ensures FindFinished(k.mts, name, pid) < |k.mts| ==> pid < |k.procs| && Waits(k.procs[pid].state)
  {
    hide Queue, Remove;
    var i := FindFinished(k.mts, name, pid);
    if i < |k.mts| {
      assert Entered(k, pid, i);
      LeaveBlocked(k, pid, i, Finished(k, name, pid));
    }
  }

  lemma ArrivedBlocked(k: Kernel, d: nat, name: string)
    requires BlockedOk(k) && d <= |k.devices|
    ensures BlockedOk(Arrived(k, d, name))
  {
    hide BlockedOk;
    SameEntries(k, Arrived(k, d, name));
  }

  /** Entries may start working. */
  lemma SameEntries(k: Kernel, next: Kernel)
    requires BlockedOk(k) && |next.mts| == |k.mts| && next.dumps == k.dumps && next.procs == k.procs
    requires forall i :: 0 <= i < |k.mts| ==> next.mts[i] == k.mts[i].(working := next.mts[i].working)
    ensures BlockedOk(next)
  {
    forall p: nat | p < |next.procs| && Waits(next.procs[p].state) ensures exists i: nat :: Entered(next, p, i) {
      var i: nat :| Entered(k, p, i);
      assert Entered(next, p, i);
    }
  }

  lemma IOBlocked(k: Kernel, cpu: nat, name: string, time: int, burst: int)
    requires BlockedOk(k) && Runs(k, cpu)
    ensures BlockedOk(RequestIO(k, k.cpus[cpu].value, name, time, burst))
  {
    hide Queue, Remove, FindDevice, HasDevice;
    var pid, d := k.cpus[cpu].value, FindDevice(k.devices, name);
    SameBlocked(k, Move(k, pid, EXIT));
    var taken := if d < |k.devices| then k.(devices := k.devices[d := k.devices[d].(disp := false)]) else k;
    SameBlocked(k, taken);
    BlockBlocked(taken, pid, burst, Blocked(pid, name, time, d < |k.devices|));
  }

  lemma ScheduleBlocked(k: Kernel, e: Event)
    requires Enabled(k, e) && Places(k) && BlockedOk(k)
    requires e.CreateProcess? || e.Search? || e.Admit? || e.ConnectCPU? || e.Dispatch? || e.Preempt?
    ensures BlockedOk(Step(k, e))
  {
    hide Sorts, Queue, Remove, FreeSlot, PlacesBut;
    var next := Step(k, e);
    match e {
      case Admit(pid, _, ok) => InPlace(k, Held(k), NEW, pid);
      case Dispatch(sortBy, order, ok) => SortPlaces(k, Held(k), READY, sortBy, order);
      case Preempt(cpu, pid, ok) => InPlace(k, Held(k), READY, pid);
      case _ =>
    }
    SameBlocked(k, next);
  }

  lemma CpuBlocked(k: Kernel, e: Event)
    requires Enabled(k, e) && Places(k) && BlockedOk(k)
    requires e.Result? || e.SyscallIO? || e.SyscallDump? || e.SyscallExit?
    ensures BlockedOk(Step(k, e))
  {
    hide Queue, Remove, PlacesBut, RequestIO;
    match e
    case Result(pid, reason, burst) =>
      InPlace(k, Held(k), EXEC, pid);
      SameBlocked(k, Step(k, e));
    case SyscallIO(cpu, name, time, burst) => IOBlocked(k, cpu, name, time, burst);
    case SyscallDump(cpu, burst) => BlockBlocked(k, k.cpus[cpu].value, burst, Blocked(k.cpus[cpu].value, "", 0, true));
    case SyscallExit(cpu) => SameBlocked(k, Step(k, e));
  }

  lemma DumpDoneBlocked(k: Kernel, d: nat, ok: bool)
    requires Places(k) && BlockedOk(k) && d < |k.dumps|
    ensures BlockedOk(Step(k, DumpDone(d, ok))) && Waits(StateOf(k, k.dumps[d]))
  {
    hide Queue, Remove, PlacesBut, Dumped, RemoveBlocked;
    DropDump(k, d);
    var rest := k.(dumps := Without(k.dumps, d));
    SamePlaces(k, rest, Held(k));
    assert forall p: nat, i: nat :: Entered(k, p, i) ==> Entered(rest, p, i);
    DumpedBlocked(rest, k.dumps[d], ok);
  }

  lemma UnsuspendedBlocked(k: Kernel, ok: bool)
    requires Enabled(k, Unsuspended(ok)) && Places(k) && BlockedOk(k)
    ensures BlockedOk(Step(k, Unsuspended(ok)))
  {
    hide Queue, Remove, PlacesBut, RemoveBlocked;
    RemoveNone(k.mts, k.hand.value);
    SameBlocked(k, Step(k, Unsuspended(ok)));
  }

  lemma OtherBlocked(k: Kernel, e: Event)
    requires Enabled(k, e) && Places(k) && BlockedOk(k)
    requires e.ScanBlocked? || e.TimerFires? || e.SwapDone? || e.TakeSuspended? || e.Unsuspended? || e.DeviceFree?
        || e.IOFinished?
             || e.IOArrives? || e.DumpDone?
    ensures BlockedOk(Step(k, e))
    ensures e.DumpDone? ==> Waits(StateOf(k, k.dumps[e.dump]))
  {
    hide Queue, Remove, PlacesBut, Sorts, Scan, Finished, Arrived, Dumped, RemoveBlocked;
    var next := Step(k, e);
    match e
    case Unsuspended(ok) => UnsuspendedBlocked(k, ok);
    case IOFinished(name, pid) => FinishedBlocked(k, name, pid);
    case IOArrives(d, name) => ArrivedBlocked(k, d, name);
    case DumpDone(d, ok) => DumpDoneBlocked(k, d, ok);
    case _ => SameBlocked(k, next);
  }
}
