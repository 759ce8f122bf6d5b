/** The end of a program in whole runs, and in terms of the instruction set alone. */
module CpuEnding {
  import opened Words
  import opened DramPortals
  import opened Scoreboard
  import opened CpuStages
  import opened CpuPipeline
  import opened Isa
  import opened CpuDrain
  import opened CpuForwarding
  import opened CpuArbitration
  import opened CpuDecision
  import opened CpuSteps
  import opened FetchMachine
  import opened CpuRefinement
  import opened CpuRuns
  import opened CpuPause
  import opened CpuResponses
  import opened CpuProgress
  import opened HeldFetch
  import opened CpuExitStep
  import opened CpuExit
  import opened CpuFinish

  // ---- exits in whole runs ----

  /** Readiness of an operand depends on the latches of AGU and MEM only. */
  lemma ReadySame(c: Core, c': Core, log: seq<Access>, log': seq<Access>, rs: Reg, lit: Vec4)
    requires CoreOk(c) && AfterWb(c, log).status == Running && CoreOk(c') && AfterWb(c', log').status == Running
    requires c'.exagu == c.exagu && c'.agumem == c.agumem
    ensures ExVReg(c, rs, lit) == None <==> ExVReg(c', rs, lit) == None
  {
    if rs != 0 {
      LateVRegExact(c, log, rs);
      LateVRegExact(c', log', rs);
    }
  }

  lemma TestReadySame(prog: Program, c: Core, c': Core, s: bool, s': bool, log: seq<Access>, log': seq<Access>)
    requires CoreFine(prog, c, s, log) && CoreFine(prog, c', s', log')
    requires AfterEx(prog.agu, c, s, log) == AfterEx(prog.agu, c', s', log')
    requires c'.exagu == c.exagu && c'.agumem == c.agumem && c'.idex == c.idex && ExitNow(c')
    ensures ExitNow(c)
  {
    hide DrainAgu; hide DrainMem; hide ExVReg;
    FineStages(prog, c, s, log);
    FineStages(prog, c', s', log');
    TestExact(prog, c', s', log');
    ReadySame(c, c', log, log', c.idex.alu.rs1, c.idex.alu.lit1);
    ReadySame(c, c', log, log', c.idex.alu.rs2, c.idex.alu.lit2);
    TestExact(prog, c, s, log);
  }

  /** An exit is taken the moment it can be: it never waits beside a block that is still working. */
  lemma PromptTick(c: Cpu, log: seq<Access>, port: Portal)
    requires Inv(c, log) && !ExitNow(c.core)
    ensures Prompt(Tick(c, port).0)
  {
    hide EvalAll; hide EvalEX; hide EvalAGU; hide Run; hide SubmitAll; hide Drain; hide PrepareResume;
    hide Decided; hide ExitNow;
    PrepareKeeps(c, log);
    var c1 := PrepareResume(c);
    var n := SubmitAll(c1.active, EvalAll(c1.prog, c1.core, c1.pause.requested));
    FineIsCoreFine(c1.prog, c1.core, HasBlock(c1.active), log);
    SubmitAllAdds(c1.prog, c1.core, HasBlock(c1.active), log, c1.pause.requested, c1.active);
    hide Fine; hide Submitted; hide Extends; hide SigOk;
    if HasBlock(n) {
      var k :| k in n && k.reason.MemBlock?;
      BlockedPrompt(c1, log, port, n, k);
    } else {
      AfterFree(c1, port, n);
    }
  }

  lemma BlockedPrompt(c: Cpu, log: seq<Access>, port: Portal, n: ActiveMap, k: Key)
    requires Inv(c, log) && !ExitNow(c.core) && n == SubmitAll(c.active, EvalAll(c.prog, c.core, c.pause.requested))
    requires Submitted(c.prog, c.core, c.pause.requested, n) && Extends(c.active, n)
    requires k in n && k.reason.MemBlock?
    ensures Prompt(Run(c, port).0)
  {
    hide EvalAll; hide EvalEX; hide EvalAGU; hide Run; hide SubmitAll; hide Drain; hide Fine; hide SigOk;
    hide Submitted;
    hide Extends; hide Decide; hide NextOf; hide BlockOk; hide ExitNow; hide BlockOps; hide Advance;
    var c' := Run(c, port).0;
    BlockedParts(c, log, port, n, k);
    BlockedRun(c, log, port, n, k);
    BlockTick(c.prog, c.core, c.pause.requested, c.active, port, n, k);
    AdvanceStates(n[k].fsm, k.reason, port);
    if ExitNow(c'.core) && (n[k].fsm.st == Submit || n[k].fsm.st == Waiting) {
      HeldTest(c, log, n[k].fsm, k.reason);
    }
    assert n[k].fsm.st != Done by { BlockNotDone(c.core, n[k].fsm, k.reason); }
  }

  /** A tick that only waits for memory decides no exit test. */
  lemma HeldTest(c: Cpu, log: seq<Access>, f: Fsm, r: Reason)
    requires Inv(c, log) && f.MemFsm? && r.MemBlock? && BlockOk(c.core, f, r)
    requires HasBlock(c.active) == (f.st != Submit) && (f.st == Submit || f.st == Waiting)
    requires ExitNow(NextOf(c.prog, c.core, c.pause.requested, BlockOps(f.st)))
    ensures ExitNow(c.core)
  {
    hide NextOf; hide Fine; hide Drain; hide SigOk; hide EvalAll; hide ExitNow; hide AfterEx;
    var s := HasBlock(c.active);
    var c' := NextOf(c.prog, c.core, c.pause.requested, HOLD_OPS);
    HoldStep(c.prog, c.core, c.pause.requested, s, log);
    var log' := if s then log else log + [AccessOf(c.core.agumem)];
    FineIsCoreFine(c.prog, c.core, s, log);
    FineIsCoreFine(c.prog, c', true, log');
    TestReadySame(c.prog, c.core, c', s, true, log, log');
  }

  lemma PromptOne(s: RunState, ev: Event)
    requires Inv(s.cpu, s.log) && Prompt(s.cpu) && Smooth(s, ev)
    ensures Prompt(RunOne(s, ev).cpu)
  {
    hide Inv; hide Tick; hide LogAfter; hide Decided; hide Panics; hide ExitNow;
    match ev
    case TickEv(port) => PromptTick(s.cpu, s.log, port);
    case _ =>
  }

  lemma {:induction false} PromptAlways(c0: Cpu, r: Trace, n: nat)
    requires Inv(c0, []) && Prompt(c0) && Regular(c0, r, n)
    ensures Prompt(r.states[n].cpu)
  {
    hide Inv; hide RunOne; hide Smooth; hide Allowed; hide Abs; hide Prompt; hide FetchSteps;
    hide PendingAccesses; hide Occupied;
    if n > 0 {
      RegularBefore(c0, r, n - 1, n);
      PromptAlways(c0, r, n - 1);
      RunFetches(c0, r, n - 1);
      assert Linked(r, n - 1);
      PromptOne(r.states[n - 1], r.evs[n - 1]);
    }
  }

  /** From a run to its end. In any run, whatever the memory latencies and pauses: if after `n` events EX
      takes an exit and no pause is asserted, five more ticks finish the CPU; registers and memory are
      then those of the fetching machine at the exit, if AGU was not waiting for a load in MEM. */
  lemma RunEnds(c0: Cpu, r: Trace, n: nat, p0: Portal, p1: Portal, p2: Portal, p3: Portal, p4: Portal)
    requires Inv(c0, []) && Prompt(c0) && Regular(c0, r, n)
    requires ExitNow(r.states[n].cpu.core) && Unpaused(r.states[n].cpu)
    ensures var s := r.states[n];
            var c5 := Tick(Tick(Tick(Tick(Tick(s.cpu, p0).0, p1).0, p2).0, p3).0, p4).0;
            var spec := FetchSteps(c0.prog, Abs(c0, []), s.fetched).arch.d;
            && c5.finished && spec.status == Exited
            && (EvalAGU(c0.prog, s.cpu.core) != AGU_RAW ==>
                  c5.core.rf.v == spec.v && c5.core.rf.f == spec.f && c5.core.mem == spec.mem)
  {
    hide Inv; hide RunOne; hide Smooth; hide Allowed; hide Abs; hide Prompt; hide FetchSteps;
    hide PendingAccesses; hide Occupied;
    hide ExitNow; hide Tick; hide LateAccess; hide BlocksOf; hide EvalAGU; hide AfterAgu; hide AfterMem;
    RunFetches(c0, r, n);
    PromptAlways(c0, r, n);
    var s := r.states[n];
    AtExit(s.cpu, s.log);
    TakenExitEnds(s.cpu, s.log, p0, p1, p2, p3, p4);
  }

  /** The same in terms of the instruction set, for a program with exit tests that are not taken: if every
      instruction that is fetched twice is harmless, registers and memory are the sequential machine's. */
  lemma HarmlessEnds(c0: Cpu, r: Trace, n: nat, p0: Portal, p1: Portal, p2: Portal, p3: Portal, p4: Portal)
    requires Inv(c0, []) && Prompt(c0) && IsRun(r, c0) && n <= |r.evs| && AllSmooth(r, n)
    requires var s := Abs(c0, []);
             && !s.held && s.arch.d.status == Running && Faultless(c0.prog, s, r.states[n].fetched)
             && forall i: nat :: i + 2 <= r.states[n].fetched ==> HarmlessAt(c0.prog, s, i)
    requires ExitNow(r.states[n].cpu.core) && Unpaused(r.states[n].cpu)
    ensures var s := r.states[n];
            var c5 := Tick(Tick(Tick(Tick(Tick(s.cpu, p0).0, p1).0, p2).0, p3).0, p4).0;
            var spec := Steps(c0.prog, Abs(c0, []).arch, Executed(c0.prog, Abs(c0, []), s.fetched)).d;
            && c5.finished && spec.status == Exited
            && (EvalAGU(c0.prog, s.cpu.core) != AGU_RAW ==>
                  c5.core.rf.v == spec.v && c5.core.rf.f == spec.f && c5.core.mem == spec.mem)
  {
    hide Inv; hide RunOne; hide Smooth; hide Allowed; hide Abs; hide Prompt; hide FetchSteps; hide PendingAccesses;
    hide Occupied; hide ExitNow; hide Tick; hide EvalAGU; hide HarmlessAt; hide Faultless; hide Executed; hide Steps;
    hide Unpaused;
    LevelAllowed(c0.prog, Abs(c0, []), r.states[n].fetched);
    RunEnds(c0, r, n, p0, p1, p2, p3, p4);
  }

  // ---- programs that end ----

  /** The sequential machine executes `k` instructions that neither fault nor test for an exit, and then
      an exit test that is taken. */
  ghost predicate EndsAfter(prog: Program, s: Arch, k: nat) {
    Testless(prog, s, k) && s.d.status == Running && Steps(prog, s, k + 1).d.status == Exited
  }

  /** The fetching machine ends where the sequential machine does, and neither faults nor clashes. */
  lemma {:induction false} EndsAlike(prog: Program, s: Arch, k: nat, n: nat)
    requires EndsAfter(prog, s, k)
    ensures var f := FetchSteps(prog, Spec(s, false, false), n);
            && Allowed(prog, f) && !Clashes(prog, f)
            && (n <= k ==> f == Spec(Steps(prog, s, n), false, false))
            && (n > k ==> f.arch.d == Steps(prog, s, k + 1).d && f.arch.d.status == Exited)
  {
    hide Exec;
    TestlessIsSequential(prog, s, k);
    if n <= k {
      if n < k {
        assert Plain(prog, Steps(prog, s, n));
      } else {
        assert Steps(prog, s, k + 1) == Step(prog, Steps(prog, s, k));
      }
    } else {
      EndsAlike(prog, s, k, n - 1);
      if n == k + 1 {
        assert Steps(prog, s, k + 1) == Step(prog, Steps(prog, s, k));
        assert FetchSteps(prog, Spec(s, false, false), k + 1) == FetchStep(prog, Spec(Steps(prog, s, k), false, false));
      }
    }
  }

  /** No tick before event `n` takes an exit. */
  ghost predicate NotYet(r: Trace, n: nat)
    requires n <= |r.evs| && |r.states| == |r.evs| + 1
  {
    forall i: nat :: i < n ==> !ExitNow(r.states[i].cpu.core)
  }

  /** Until the exit is taken such a program runs without a panic, and at most two instructions behind
      the exit are fetched. */
  lemma {:induction false} EndingRun(c0: Cpu, s0: Arch, k: nat, r: Trace, n: nat)
    requires Inv(c0, []) && KeptApart(c0, []) && Abs(c0, []) == Spec(s0, false, false) && EndsAfter(c0.prog, s0, k)
    requires IsRun(r, c0) && n <= |r.evs| && NotYet(r, n)
    ensures Regular(c0, r, n) && Refines(c0, r.states[n])
    ensures KeptApart(r.states[n].cpu, r.states[n].log) && r.states[n].fetched <= k + 2
    ensures r.states[n].fetched == k + 2 ==> EndOfEx(r.states[n].cpu, r.states[n].log).status == Exited
  {
    hide Inv; hide RunOne; hide Smooth; hide Allowed; hide Abs; hide FetchSteps; hide PendingAccesses; hide Occupied;
    hide ExitNow; hide KeptApart; hide EndOfEx; hide Clashes; hide EndsAfter; hide Steps; hide JumpBehindTest;
    if n == 0 {
      Starts(c0);
    } else {
      EndingRun(c0, s0, k, r, n - 1);
      var s := r.states[n - 1];
      assert Linked(r, n - 1);
      EndsAlike(c0.prog, s0, k, s.fetched);
      ApartIsSmooth(s, r.evs[n - 1]);
      OneRefines(c0.prog, Abs(c0, []), s, r.evs[n - 1], Occupied(c0.core));
      TraceAccountingInv(r.states[n].cpu, r.states[n].log);
    }
  }

  lemma ApartIsSmooth(s: RunState, ev: Event)
    requires Inv(s.cpu, s.log) && KeptApart(s.cpu, s.log) && !ExitNow(s.cpu.core)
    ensures Smooth(s, ev)
  {
    hide Inv; hide KeptApart; hide Panics; hide ExitNow;
    if ev.TickEv? {
      NoPanic(s.cpu, s.log, ev.port);
    }
  }

  /** A program from start to end, in terms of the instruction set alone. In any run of a program whose
      sequential execution ends with a taken exit, whatever the memory latencies and pauses: five ticks
      after EX takes the exit the CPU has finished, and if AGU was not waiting for a load in MEM its
      registers and memory are those of the sequential machine. */
  lemma ProgramEnds(c0: Cpu, s0: Arch, k: nat, r: Trace, n: nat, p0: Portal, p1: Portal, p2: Portal, p3: Portal,
                    p4: Portal)
    requires Inv(c0, []) && KeptApart(c0, []) && Abs(c0, []) == Spec(s0, false, false) && EndsAfter(c0.prog, s0, k)
    requires Prompt(c0) && IsRun(r, c0) && n <= |r.evs| && NotYet(r, n)
    requires ExitNow(r.states[n].cpu.core) && Unpaused(r.states[n].cpu)
    ensures var s := r.states[n];
            var c5 := Tick(Tick(Tick(Tick(Tick(s.cpu, p0).0, p1).0, p2).0, p3).0, p4).0;
            var spec := Steps(c0.prog, s0, k + 1).d;
            && c5.finished
            && (EvalAGU(c0.prog, s.cpu.core) != AGU_RAW ==>
                  c5.core.rf.v == spec.v && c5.core.rf.f == spec.f && c5.core.mem == spec.mem)
  {
    hide Inv; hide RunOne; hide Smooth; hide Allowed; hide Abs; hide Prompt; hide FetchSteps;
    hide PendingAccesses; hide Occupied;
    hide ExitNow; hide Tick; hide EvalAGU; hide Unpaused; hide KeptApart; hide EndOfEx; hide EndsAfter;
    hide Steps; hide Clashes;
    EndingRun(c0, s0, k, r, n);
    RunEnds(c0, r, n, p0, p1, p2, p3, p4);
    EndsAlike(c0.prog, s0, k, r.states[n].fetched);
    if r.states[n].fetched <= k {
      EndedLater(c0.prog, s0, k, r.states[n].fetched);
    }
  }

  lemma {:induction false} EndedLater(prog: Program, s: Arch, k: nat, i: nat)
    requires EndsAfter(prog, s, k) && i <= k
    ensures Steps(prog, s, i).d.status == Running
  {
    if i < k {
      assert Plain(prog, Steps(prog, s, i));
      StepRuns(prog, Steps(prog, s, i));
    } else {
      assert Steps(prog, s, k + 1) == Step(prog, Steps(prog, s, k));
      if k > 0 {
        assert Plain(prog, Steps(prog, s, k - 1));
        assert Steps(prog, s, k) == Step(prog, Steps(prog, s, k - 1));
      }
    }
  }

  lemma StepRuns(prog: Program, s: Arch)
    requires Plain(prog, s)
    ensures s.d.status == Running
  {
  }

  /** With a DRAM that answers such a program does come to its end. */
  lemma EndIsReached(c0: Cpu, s0: Arch, k: nat) returns (r: Trace)
    requires Inv(c0, []) && KeptApart(c0, []) && Abs(c0, []) == Spec(s0, false, false) && EndsAfter(c0.prog, s0, k)
    requires Unpaused(c0)
    ensures IsRun(r, c0) && NotYet(r, |r.evs|) && ExitNow(r.states[|r.evs|].cpu.core) && Unpaused(r.states[|r.evs|].cpu)
  {
    hide Inv; hide RunOne; hide Allowed; hide Abs; hide FetchSteps; hide PendingAccesses; hide Occupied;
    hide ExitNow; hide Unpaused; hide KeptApart; hide EndOfEx; hide EndsAfter; hide Steps; hide Clashes;
    hide Panics; hide ClashNow;
    forall i: nat | i < k + 3 ensures Allowed(c0.prog, FetchSteps(c0.prog, Abs(c0, []), i)) {
      EndsAlike(c0.prog, s0, k, i);
    }
    r := RunExists(c0, k + 3);
    forall i: nat | i < |r.evs| ensures !ExitNow(r.states[i].cpu.core) {
      assert Smooth(r.states[i], r.evs[i]);
    }
    EndingRun(c0, s0, k, r, |r.evs|);
    var s := r.states[|r.evs|];
    ApartHolds(s);
  }

  lemma ApartHolds(s: RunState)
    requires Inv(s.cpu, s.log) && KeptApart(s.cpu, s.log) && Unpaused(s.cpu)
    ensures !ClashNow(s.cpu)
  {
    hide Inv; hide KeptApart; hide Panics; hide ClashNow; hide Orderly;
    NoPanic(s.cpu, s.log, EMPTY_PORTAL);
    InvIsOrderly(s.cpu, s.log);
    PanicsExactly(s.cpu, s.log, EMPTY_PORTAL);
    assert PrepareResume(s.cpu) == s.cpu;
  }
}
