/** The program of a process: what creation stores, and that it stays. */
module Programs {
  import opened Wrappers
  import opened Memory
  import opened Requests
  import opened Keeps
  import opened KeepsSwap
  import opened MemoryRuns

  /** A line that the scanner of CreateProcess accepts. */
  predicate Accepted(line: seq<string>) {
    && (|line| == 1 || |line| == 2 || |line| == 3)
    && (line[0] == "NOOP" || line[0] == "EXIT" || line[0] == "WRITE" || line[0] == "READ" || line[0] == "GOTO"
        || line[0] == "IO" || line[0] == "INIT_PROC" || line[0] == "DUMP_MEMORY")
  }

  /** code is the program: one instruction a line, with its opcode and arguments. */
  predicate Spells(code: seq<Instruction>, lines: seq<seq<string>>) {
    && |code| == |lines|
    && forall i :: 0 <= i < |lines| ==>
         |lines[i]| > 0 && code[i].opcode == lines[i][0] && code[i].args == lines[i][1..]
  }

  /** The program of a process that exists. */
  function CodeOf(m: Mem, pid: nat): seq<Instruction>
    requires Exists(m, pid)
  {
    m.procs[FindProc(m.procs, pid)].code
  }

  /** pid has come to exist with the program of these lines, and every other process
      has the program that it had. */
  ghost predicate Loaded(m: Mem, next: Mem, pid: nat, lines: seq<seq<string>>) {
    && Exists(next, pid) && Spells(CodeOf(next, pid), lines)
    && forall q: nat :: q != pid && Exists(m, q) ==> Exists(next, q) && CodeOf(next, q) == CodeOf(m, q)
  }

  lemma ProgramAccepted(lines: seq<seq<string>>)
    ensures ProgramOk(lines) <==> forall i :: 0 <= i < |lines| ==> Accepted(lines[i])
    ensures ProgramOk(lines) ==> Spells(ParseProgram(lines), lines)
  {
    assert forall i :: 0 <= i < |lines| ==> (StatementOk(lines[i]) <==> Accepted(lines[i]));
  }

  /** A creation that succeeds adds one process, last in the list. */
  lemma CreateAdds(m: Mem, pid: nat, lines: seq<seq<string>>, size: nat) returns (p: ProcessData)
    requires m.cfg.Ok()
    ensures Create(m, pid, lines, size).1 == None ==>
              Create(m, pid, lines, size).0.procs == m.procs + [p] && p.pid == pid && Spells(p.code, lines)
    ensures Create(m, pid, lines, size).1 != None ==> Create(m, pid, lines, size).0.procs == m.procs
  {
    hide Allocate, ParseProgram;
    ProgramAccepted(lines);
    AllocateSame(m, size);
    var next := Create(m, pid, lines, size).0;
    p := if |next.procs| > 0 then next.procs[|next.procs| - 1] else ProcessData(pid, [], []);
  }

  lemma AllocateSame(m: Mem, size: nat)
    requires m.cfg.Ok()
    ensures Allocate(m, size).0.procs == m.procs
  {
  }

  /** Creation succeeds exactly when the size fits and every line is accepted; the new
      process has the program of its lines, and every other one keeps its own. */
  lemma CreateCode(m: Mem, pid: nat, lines: seq<seq<string>>, size: nat)
    requires Inv(m) && !Exists(m, pid)
    ensures var (next, e) := Create(m, pid, lines, size);
            && (e == None <==> size <= m.remaining && forall i :: 0 <= i < |lines| ==> Accepted(lines[i]))
            && (e == None ==> Loaded(m, next, pid, lines))
            && (e != None ==> next == m)
  {
    hide FramesOwned, SwapOk, ProgramOk, ParseProgram, Create, Spells, Accepted, Appended;
    ProgramAccepted(lines);
    var added := CreateOutcome(m, pid, lines, size);
    var p := CreateAdds(m, pid, lines, size);
    var next := Create(m, pid, lines, size).0;
    FindProcAppend(m.procs, p, pid);
    forall q: nat | Exists(m, q) ensures Exists(next, q) && CodeOf(next, q) == CodeOf(m, q) {
      FindProcAppend(m.procs, p, q);
    }
  }

  /** Releasing frames, adding blocks and writing bytes touch no process. */
  lemma SameProcs(m: Mem, next: Mem, q: nat)
    requires next.procs == m.procs && Exists(m, q)
    ensures Exists(next, q) && CodeOf(next, q) == CodeOf(m, q)
  {
  }

  /** Deletion takes one process alone. */
  lemma DeleteCode(m: Mem, pid: nat, q: nat)
    requires Shape(m) && Exists(m, pid) && Exists(m, q) && q != pid
    ensures var next := Delete(m, pid).0;
            && !Exists(next, pid) && Exists(next, q) && CodeOf(next, q) == CodeOf(m, q)
  {
    var i, k, n, next := FindProc(m.procs, pid), FindProc(m.procs, q), |m.procs| - 1, Delete(m, pid).0;
    RemoveTables(m, next, i, q);
    assert forall x :: 0 <= x < n ==> next.procs[x] == if x == i then m.procs[n] else m.procs[x];
    assert next.procs[if k == n then i else k].pid == q;
  }

  lemma UnsuspendCode(m: Mem, pid: nat, q: nat)
    requires Inv(m) && Exists(m, q)
    ensures var next := Unsuspend(m, pid).0; Exists(next, q) && CodeOf(next, q) == CodeOf(m, q)
  {
    hide Allocate, WriteAll, FramesOwned;
    forall size: nat ensures Allocate(m, size).0.procs == m.procs {
      AllocateSame(m, size);
    }
    var next := Unsuspend(m, pid).0;
    assert |next.procs| == |m.procs| && forall j :: 0 <= j < |m.procs| ==> next.procs[j].code == m.procs[j].code;
    SameFind(m.procs, next.procs, q);
  }

  lemma SameFind(a: seq<ProcessData>, b: seq<ProcessData>, pid: nat)
    requires |a| == |b| && forall j :: 0 <= j < |a| ==> b[j].pid == a[j].pid
    ensures FindProc(a, pid) == FindProc(b, pid)
  {
  }

  /** No request but its own deletion changes the program of a process. */
  lemma ServeCode(m: Mem, r: Request, q: nat)
    requires Inv(m) && Allowed(m, r) && Exists(m, q) && r != DeleteProcess(q)
    ensures Exists(Serve(m, r).0, q) && CodeOf(Serve(m, r).0, q) == CodeOf(m, q)
  {
    match r
    case CreateProcess(pid, lines, size) => CreateCode(m, pid, lines, size);
    case DeleteProcess(pid) =>
      if Exists(m, pid) {
        DeleteCode(m, pid, q);
      }
    case WriteBack(pid, base, value) => SameProcs(m, Serve(m, r).0, q);
    case SuspendProcess(pid) => SameProcs(m, Serve(m, r).0, q);
    case UnSuspendProcess(pid) => UnsuspendCode(m, pid, q);
  }

  /** After any run without its deletion, a process has the program that it had. */
  lemma {:induction false} RunCode(m: Mem, run: seq<Request>, pid: nat)
    requires Inv(m) && AllAllowed(m, run) && Exists(m, pid) && DeleteProcess(pid) !in run
    ensures Exists(Run(m, run), pid) && CodeOf(Run(m, run), pid) == CodeOf(m, pid)
    decreases |run|
  {
    if run != [] {
      ServeKeeps(m, run[0]);
      ServeCode(m, run[0], pid);
      RunCode(Serve(m, run[0]).0, run[1..], pid);
    }
  }

  /** What is fetched for a process, after any run since its creation that does not
      delete it, are the lines of its program. */
  lemma FetchedAsWritten(m: Mem, pid: nat, lines: seq<seq<string>>, size: nat, run: seq<Request>)
    requires Inv(m) && !Exists(m, pid) && Create(m, pid, lines, size).1 == None
    requires Inv(Create(m, pid, lines, size).0) && AllAllowed(Create(m, pid, lines, size).0, run)
    requires DeleteProcess(pid) !in run
    ensures var now := Run(Create(m, pid, lines, size).0, run);
            Exists(now, pid) && Spells(CodeOf(now, pid), lines)
  {
    hide FramesOwned, SwapOk, Create, Spells, AllAllowed, Run;
    CreateCode(m, pid, lines, size);
    RunCode(Create(m, pid, lines, size).0, run, pid);
  }
}
