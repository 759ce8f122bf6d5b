/** Whole runs of the CPU: any memory latency, any schedule of pauses and resumes. */
module CpuRuns {
  import opened Words
  import opened DramPortals
  import opened FlatMemory
  import opened AguUnits
  import opened CpuTypes
  import opened Scoreboard
  import opened CpuStages
  import opened CpuPipeline
  import opened Isa
  import opened CpuDrain
  import opened CpuForwarding
  import opened CpuArbitration
  import opened CpuDecision
  import opened CpuSteps
  import opened FetchMachine
  import opened CpuRefinement

  // ---- requests to pause and resume ----

  lemma PauseKeeps(c: Cpu, log: seq<Access>)
    requires Inv(c, log)
    ensures Inv(SignalPause(c), log) && Abs(SignalPause(c), log) == Abs(c, log)
    ensures EndOfEx(SignalPause(c), log) == EndOfEx(c, log)
  {
    hide Fine; hide Drain; hide EvalEX; hide EvalAGU; hide BlockOk; hide AfterEx;
  }

  lemma ResumeKeeps(c: Cpu, log: seq<Access>)
    requires Inv(c, log)
    ensures Inv(SignalResume(c), log) && Abs(SignalResume(c), log) == Abs(c, log)
    ensures EndOfEx(SignalResume(c), log) == EndOfEx(c, log)
  {
    hide Fine; hide Drain; hide EvalEX; hide EvalAGU; hide BlockOk; hide AfterEx;
    var c1 := SignalResume(c);
    forall k | k in c1.active ensures k in c.active && c1.active[k] == c.active[k] {}
    forall k | k in c.active && k.reason.MemBlock? ensures k in c1.active {}
  }

  // ---- the trace of memory accesses ----

  predicate IsMemInst(i: Inst) {
    i.LD128? || i.ST128? || i.FatPtrLD? || i.FatPtrST?
  }

  /** The loads and stores in flight whose DRAM request has not been made. What sits in ID behind a
      taken exit will never make one. */
  function PendingAccesses(t: AguTable, c: Core, submitted: bool, log: seq<Access>): nat {
    Bit(c.ifid.valid && IsMemInst(c.ifid.inst) && AfterEx(t, c, submitted, log).status == Running)
    + Bit(c.idex.valid && c.idex.dma != DmaNop)
    + Bit(c.exagu.valid && c.exagu.dma != DmaNop) + Bit(MemPending(c) && !submitted)
  }

  lemma DrainMemTrace(l: AguMem, s: bool, d: Data)
    requires AguMemOk(l) && DrainMem(l, s, d).status == Running
    ensures d.trace <= DrainMem(l, s, d).trace
    ensures |DrainMem(l, s, d).trace| == |d.trace| + Bit(l.valid && l.dma != DmaNop && !s)
  {
    hide ReadData; hide ReadFptr; hide WriteData; hide WriteFptr;
  }

  lemma DrainAguTrace(t: AguTable, l: ExAgu, d: Data)
    requires ExAguOk(l) && DrainAgu(t, l, d).status == Running
    ensures d.trace <= DrainAgu(t, l, d).trace
    ensures |DrainAgu(t, l, d).trace| == |d.trace| + Bit(l.valid && l.dma != DmaNop)
  {
    hide ReadData; hide ReadFptr; hide WriteData; hide WriteFptr; hide PtrArith; hide Translate;
  }

  lemma DrainExTrace(t: AguTable, l: IdEx, d: Data)
    requires IdExOk(l) && d.status == Running && DrainEx(t, l, d).status != Faulted
    ensures d.trace <= DrainEx(t, l, d).trace
    ensures |DrainEx(t, l, d).trace| == |d.trace| + Bit(l.valid && l.dma != DmaNop)
  {
    hide DrainAgu; hide Lanes4;
    if l.valid && l.alu.Alu? && l.alu.kind.Lanes? {
      var x := Lanes4(l.alu.kind.op, Operand(d, l.alu.rs1, l.alu.lit1), Operand(d, l.alu.rs2, l.alu.lit2));
      DrainAguStatus(t, ExAgu(true, Some(x), l.agu, l.dma, l.wb), d);
      DrainAguTrace(t, ExAgu(true, Some(x), l.agu, l.dma, l.wb), d);
    } else if l.valid && l.alu.AluNop? {
      DrainAguStatus(t, ExAgu(true, None, l.agu, l.dma, l.wb), d);
      DrainAguTrace(t, ExAgu(true, None, l.agu, l.dma, l.wb), d);
    }
  }

  lemma DrainIdTrace(t: AguTable, l: IfId, d: Data)
    requires DrainId(t, l, d).status != Faulted
    ensures d.trace <= DrainId(t, l, d).trace
    ensures |DrainId(t, l, d).trace| == |d.trace| + Bit(l.valid && IsMemInst(l.inst) && d.status == Running)
  {
    hide ReadData; hide ReadFptr; hide WriteData; hide WriteFptr; hide PtrArith; hide Translate; hide Lanes4;
  }

  lemma WbTrace(c: Core, log: seq<Access>)
    ensures AfterWb(c, log).trace == log
  {
  }

  /** The requests made so far begin the sequential machine's access sequence; what is missing is
      exactly one access for each load or store still in flight. */
  lemma TraceAccounting(prog: Program, c: Core, s: bool, log: seq<Access>)
    requires Fine(prog, c, s, log)
    ensures log <= Drain(prog.agu, c, s, log).d.trace
    ensures |Drain(prog.agu, c, s, log).d.trace| == |log| + PendingAccesses(prog.agu, c, s, log)
  {
    hide DrainEx; hide DrainAgu; hide DrainMem; hide DrainWb; hide DrainId; hide LitOk; hide FwdOk; hide RegsOk;
    FineIsCoreFine(prog, c, s, log);
    FineStages(prog, c, s, log);
    WbTrace(c, log);
    DrainMemTrace(c.agumem, s, AfterWb(c, log));
    DrainAguTrace(prog.agu, c.exagu, AfterMem(c, s, log));
    DrainExTrace(prog.agu, c.idex, AfterAgu(prog.agu, c, s, log));
    DrainIdTrace(prog.agu, c.ifid, AfterEx(prog.agu, c, s, log));
  }

  // ---- runs ----

  /** What can happen to a CPU. The portal a tick sees is arbitrary, so responses may come at any
      time, or never. */
  datatype Event = TickEv(port: Portal) | PauseEv | ResumeEv | DelaysEv(pauseCycles: nat, resumeCycles: nat)

  /** The CPU, the DRAM requests it has made, and how many instructions it has fetched and retired
      and how many memory accesses it has completed. */
  datatype RunState = RunState(cpu: Cpu, log: seq<Access>, fetched: nat, retired: nat, completed: nat)

  ghost function RunOne(s: RunState, ev: Event): RunState {
    match ev
    case PauseEv => s.(cpu := SignalPause(s.cpu))
    case ResumeEv => s.(cpu := SignalResume(s.cpu))
    case DelaysEv(p, r) =>
      s.(cpu := s.cpu.(pause := s.cpu.pause.(pauseDelay := p, resumeDelay := r)))
    case TickEv(port) =>
      var (c', port') := Tick(s.cpu, port);
      var ops := Decided(PrepareResume(s.cpu), port).ops;
      RunState(c', LogAfter(s.log, port, port'),
               s.fetched + Bit(Fetches(ops)), s.retired + Retires(s.cpu.core, ops),
               s.completed + Bit(ops == WRITEBACK_OPS))
  }

  /** A run: one state before every event and one at the end. */
  datatype Trace = Trace(evs: seq<Event>, states: seq<RunState>)

  ghost predicate Linked(r: Trace, i: nat)
    requires i < |r.evs| && |r.states| == |r.evs| + 1
  {
    r.states[i + 1] == RunOne(r.states[i], r.evs[i])
  }

  ghost predicate IsRun(r: Trace, c0: Cpu) {
    && |r.states| == |r.evs| + 1 && r.states[0] == RunState(c0, [], 0, 0, 0)
    && forall i: nat :: i < |r.evs| ==> Linked(r, i)
  }

  /** The first `n` steps of the fetching machine stay in the covered fragment. */
  ghost predicate AllCovered(prog: Program, s: Spec, n: nat) {
    forall i: nat :: i < n ==> Covered(prog, FetchSteps(prog, s, i))
  }

  ghost predicate AllAllowed(prog: Program, s: Spec, n: nat) {
    forall i: nat :: i < n ==> Allowed(prog, FetchSteps(prog, s, i))
  }

  /** The tick neither takes an exit nor panics. */
  ghost predicate Smooth(s: RunState, ev: Event) {
    ev.TickEv? ==> !ExitNow(s.cpu.core) && !Panics(s.cpu, ev.port)
  }

  ghost predicate AllSmooth(r: Trace, n: nat)
    requires n <= |r.evs| && |r.states| == |r.evs| + 1
  {
    forall i: nat :: i < n ==> Smooth(r.states[i], r.evs[i])
  }

  lemma OneRefines(prog: Program, s0: Spec, s: RunState, ev: Event, base: nat)
    requires Inv(s.cpu, s.log) && s.cpu.prog == prog
    requires Abs(s.cpu, s.log) == FetchSteps(prog, s0, s.fetched)
    requires JumpBehindTest(s.cpu.core) || (RunOne(s, ev).fetched > s.fetched ==> Allowed(prog, Abs(s.cpu, s.log)))
    requires Occupied(s.cpu.core) + s.retired == base + s.fetched
    requires Smooth(s, ev)
    ensures var s' := RunOne(s, ev);
            && Inv(s'.cpu, s'.log) && s'.cpu.prog == prog && s.fetched <= s'.fetched <= s.fetched + 1
            && (KeptApart(s.cpu, s.log) && (s'.fetched > s.fetched ==> !Clashes(prog, Abs(s.cpu, s.log))) ==>
                  KeptApart(s'.cpu, s'.log))
            && Abs(s'.cpu, s'.log) == FetchSteps(prog, s0, s'.fetched)
            && Occupied(s'.cpu.core) + s'.retired == base + s'.fetched
            && (JumpBehindTest(s.cpu.core) ==> JumpBehindTest(s'.cpu.core) && s'.fetched == s.fetched)
            && (Clashes(prog, Abs(s.cpu, s.log)) && s'.fetched > s.fetched ==> JumpBehindTest(s'.cpu.core))
            && (EndOfEx(s.cpu, s.log).status == Exited ==>
                  EndOfEx(s'.cpu, s'.log).status == Exited && s'.fetched == s.fetched)
            && (s'.fetched > s.fetched ==> EndOfEx(s'.cpu, s'.log).status == Abs(s.cpu, s.log).arch.d.status)
  {
    hide JumpBehindTest; hide AfterEx;
    hide Fine; hide Drain; hide SigOk; hide Tick; hide Decided; hide Allowed; hide PrepareResume;
    hide LogAfter; hide ExitNow;
    hide Panics; hide ClashNow; hide Orderly; hide Clashes;
    match ev
    case PauseEv => PauseKeeps(s.cpu, s.log);
    case ResumeEv => ResumeKeeps(s.cpu, s.log);
    case DelaysEv(p, r) =>
    case TickEv(port) =>
      InvIsOrderly(s.cpu, s.log);
      PanicsExactly(s.cpu, s.log, port);
      TickRefines(s.cpu, s.log, port);
  }

  /** What a run has to show after some of its events. */
  ghost predicate Refines(c0: Cpu, s: RunState) {
    var spec := FetchSteps(c0.prog, Abs(c0, []), s.fetched);
    && Inv(s.cpu, s.log) && s.cpu.prog == c0.prog
    && Abs(s.cpu, s.log) == spec
    && Occupied(s.cpu.core) + s.retired == Occupied(c0.core) + s.fetched
    && s.log <= spec.arch.d.trace
    && |spec.arch.d.trace| == |s.log| + PendingAccesses(c0.prog.agu, s.cpu.core, HasBlock(s.cpu.active), s.log)
  }

  /** A run that in its first `n` events takes no exit, does not panic and fetches nothing that faults. */
  ghost predicate Regular(c0: Cpu, r: Trace, n: nat) {
    && IsRun(r, c0) && n <= |r.evs| && AllSmooth(r, n)
    && AllAllowed(c0.prog, Abs(c0, []), r.states[n].fetched)
  }

  lemma {:induction false} RegularBefore(c0: Cpu, r: Trace, i: nat, n: nat)
    requires Regular(c0, r, n) && i <= n
    ensures Regular(c0, r, i)
    ensures r.states[i].fetched <= r.states[n].fetched
  {
    hide RunOne; hide Smooth; hide Allowed; hide Abs; hide FetchSteps;
    FetchedMonotone(c0, r, i, n);
  }

  /** One event of such a run. */
  lemma RegularLinks(c0: Cpu, r: Trace, i: nat, n: nat)
    requires Regular(c0, r, n) && i < n
    ensures |r.states| == |r.evs| + 1 && n <= |r.evs|
    ensures r.states[i + 1] == RunOne(r.states[i], r.evs[i]) && Smooth(r.states[i], r.evs[i])
  {
    hide RunOne; hide Smooth; hide AllAllowed;
    assert Linked(r, i);
  }

  lemma FetchedGrows(s: RunState, ev: Event)
    ensures s.fetched <= RunOne(s, ev).fetched <= s.fetched + 1
  {
    hide Decided; hide Tick; hide LogAfter;
  }

  lemma {:induction false} FetchedMonotone(c0: Cpu, r: Trace, i: nat, n: nat)
    requires IsRun(r, c0) && i <= n <= |r.evs|
    ensures r.states[i].fetched <= r.states[n].fetched <= r.states[i].fetched + n - i
  {
    hide RunOne;
    if i < n {
      FetchedMonotone(c0, r, i, n - 1);
      assert Linked(r, n - 1);
      FetchedGrows(r.states[n - 1], r.evs[n - 1]);
    }
  }

  /** The refinement theorem for every program, exits included, up to the tick in which an exit is
      taken or the CPU panics. After any events the pipeline stands for the fetching machine after as
      many steps as instructions were fetched, if none of these faults; fetched instructions are retired
      or in a latch; the DRAM requests are the sequential accesses, in order, up to those still in flight. */
  lemma {:induction false} RunFetches(c0: Cpu, r: Trace, n: nat)
    requires Inv(c0, []) && Regular(c0, r, n)
    ensures Refines(c0, r.states[n]) && r.states[n].fetched <= n
  {
    hide Inv; hide Fine; hide RunOne; hide Smooth; hide Abs; hide Allowed; hide FetchSteps; hide PendingAccesses;
    hide Occupied;
    if n == 0 {
      Starts(c0);
    } else {
      assert Linked(r, n - 1);
      RegularBefore(c0, r, n - 1, n);
      RunFetches(c0, r, n - 1);
      OneRefines(c0.prog, Abs(c0, []), r.states[n - 1], r.evs[n - 1], Occupied(c0.core));
      TraceAccountingInv(r.states[n].cpu, r.states[n].log);
    }
  }

  lemma Starts(c0: Cpu)
    requires Inv(c0, [])
    ensures Refines(c0, RunState(c0, [], 0, 0, 0))
  {
    hide Inv; hide Abs; hide PendingAccesses; hide Occupied;
    TraceAccountingInv(c0, []);
  }

  /** A pipeline that stands for a running machine does not take an exit. */
  lemma RunningStays(c: Cpu, log: seq<Access>)
    requires Inv(c, log) && Abs(c, log).arch.d.status == Running
    ensures !ExitNow(c.core)
  {
    FineIsCoreFine(c.prog, c.core, HasBlock(c.active), log);
    FineStages(c.prog, c.core, HasBlock(c.active), log);
    hide DrainAgu; hide DrainMem;
    if ExitNow(c.core) {
      TestExact(c.prog, c.core, HasBlock(c.active), log);
    }
  }

  /** As long as no fetched instruction faults, ends the program or jumps right behind an untaken exit,
      every run refines and no tick panics. */
  lemma {:induction false} CoveredRun(c0: Cpu, r: Trace, n: nat)
    requires Inv(c0, []) && KeptApart(c0, []) && IsRun(r, c0) && n <= |r.evs|
    requires Abs(c0, []).arch.d.status == Running && AllCovered(c0.prog, Abs(c0, []), r.states[n].fetched)
    ensures AllSmooth(r, n) && Refines(c0, r.states[n]) && r.states[n].fetched <= n
    ensures Abs(r.states[n].cpu, r.states[n].log).arch.d.status == Running
    ensures KeptApart(r.states[n].cpu, r.states[n].log)
  {
    hide Inv; hide RunOne; hide PendingAccesses; hide Occupied; hide Smooth; hide FetchSteps; hide Abs; hide KeptApart;
    hide Covered; hide Allowed; hide Clashes;
    if n == 0 {
      Starts(c0);
      StillRunning(c0.prog, Abs(c0, []), 0);
    } else {
      var s := r.states[n - 1];
      assert Linked(r, n - 1);
      FetchedGrows(s, r.evs[n - 1]);
      CoveredRun(c0, r, n - 1);
      if r.states[n].fetched > s.fetched {
        assert Covered(c0.prog, FetchSteps(c0.prog, Abs(c0, []), s.fetched));
        CoveredRuns(c0.prog, FetchSteps(c0.prog, Abs(c0, []), s.fetched));
      }
      RunsOn(s, r.evs[n - 1]);
      OneRefines(c0.prog, Abs(c0, []), s, r.evs[n - 1], Occupied(c0.core));
      TraceAccountingInv(r.states[n].cpu, r.states[n].log);
      StillRunning(c0.prog, Abs(c0, []), r.states[n].fetched);
    }
  }

  lemma StillRunning(prog: Program, s: Spec, n: nat)
    requires s.arch.d.status == Running && AllCovered(prog, s, n)
    ensures FetchSteps(prog, s, n).arch.d.status == Running
  {
    hide FetchStep;
    if n > 0 {
      assert Covered(prog, FetchSteps(prog, s, n - 1));
    }
  }

  /** A pipeline that stands for a running machine, without a jump right behind an untaken exit, neither
      takes an exit nor panics. */
  lemma RunsOn(s: RunState, ev: Event)
    requires Inv(s.cpu, s.log) && KeptApart(s.cpu, s.log) && Abs(s.cpu, s.log).arch.d.status == Running
    ensures Smooth(s, ev)
  {
    hide Inv; hide Abs; hide ExitNow; hide Panics; hide KeptApart;
    RunningStays(s.cpu, s.log);
    if ev.TickEv? {
      NoPanic(s.cpu, s.log, ev.port);
    }
  }

  lemma CoveredTick(s: RunState, ev: Event)
    requires Inv(s.cpu, s.log) && KeptApart(s.cpu, s.log) && Covered(s.cpu.prog, Abs(s.cpu, s.log))
    ensures Smooth(s, ev) && Allowed(s.cpu.prog, Abs(s.cpu, s.log)) && !Clashes(s.cpu.prog, Abs(s.cpu, s.log))
  {
    hide Inv; hide FetchStep; hide Abs; hide Smooth; hide KeptApart;
    CoveredRuns(s.cpu.prog, Abs(s.cpu, s.log));
    RunsOn(s, ev);
  }

  lemma CoveredRuns(prog: Program, s: Spec)
    requires Covered(prog, s)
    ensures s.arch.d.status == Running && Allowed(prog, s) && !Clashes(prog, s)
  {
    hide Exec;
  }

  lemma CoveredIsAllowed(prog: Program, s: Spec, n: nat)
    requires AllCovered(prog, s, n)
    ensures AllAllowed(prog, s, n)
  {
    hide FetchSteps; hide FetchStep;
    forall i: nat | i < n ensures Allowed(prog, FetchSteps(prog, s, i)) {
      assert Covered(prog, FetchSteps(prog, s, i));
    }
  }

  // ---- programs that execute no exit test ----

  /** The next instruction neither faults nor tests for an exit. */
  predicate Plain(prog: Program, s: Arch) {
    !Fetch(prog.imem, s.pc).EqualExit? && Step(prog, s).d.status == Running
  }

  ghost predicate Testless(prog: Program, s: Arch, n: nat) {
    forall i: nat :: i < n ==> Plain(prog, Steps(prog, s, i))
  }

  lemma {:induction false} TestlessIsSequential(prog: Program, s: Arch, n: nat)
    requires Testless(prog, s, n) && s.d.status == Running
    ensures forall i: nat :: i <= n ==>
              FetchSteps(prog, Spec(s, false, false), i) == Spec(Steps(prog, s, i), false, false)
    ensures AllCovered(prog, Spec(s, false, false), n)
  {
    hide Exec;
    if n > 0 {
      TestlessIsSequential(prog, s, n - 1);
      var at := Steps(prog, s, n - 1);
      assert FetchSteps(prog, Spec(s, false, false), n - 1) == Spec(at, false, false);
      assert Plain(prog, at);
      assert Steps(prog, s, n) == Step(prog, at);
      assert FetchSteps(prog, Spec(s, false, false), n) == FetchStep(prog, Spec(at, false, false));
    }
  }

  /** The refinement theorem in terms of the instruction set alone: as long as no fetched instruction
      tests for an exit or faults, the pipeline stands for the sequential machine after as many steps as
      it fetched. */
  lemma RunRefines(c0: Cpu, s0: Arch, r: Trace, n: nat)
    requires Inv(c0, []) && KeptApart(c0, []) && Abs(c0, []) == Spec(s0, false, false) && IsRun(r, c0) && n <= |r.evs|
    requires Testless(c0.prog, s0, r.states[n].fetched) && s0.d.status == Running
    ensures var s := r.states[n];
            var spec := Steps(c0.prog, s0, s.fetched);
            && AllSmooth(r, n)
            && Inv(s.cpu, s.log) && s.fetched <= n && Abs(s.cpu, s.log).arch == spec
            && Occupied(s.cpu.core) + s.retired == Occupied(c0.core) + s.fetched
            && s.log <= spec.d.trace
            && |spec.d.trace| == |s.log| + PendingAccesses(c0.prog.agu, s.cpu.core, HasBlock(s.cpu.active), s.log)
  {
    hide Inv; hide Abs; hide PendingAccesses; hide Occupied; hide Testless; hide AllCovered; hide Steps;
    hide FetchSteps; hide Smooth;
    TestlessIsSequential(c0.prog, s0, r.states[n].fetched);
    CoveredRun(c0, r, n);
    assert Abs(r.states[n].cpu, r.states[n].log) == FetchSteps(c0.prog, Spec(s0, false, false), r.states[n].fetched);
  }

  lemma TraceAccountingInv(c: Cpu, log: seq<Access>)
    requires Inv(c, log)
    ensures log <= Abs(c, log).arch.d.trace
    ensures |Abs(c, log).arch.d.trace| == |log| + PendingAccesses(c.prog.agu, c.core, HasBlock(c.active), log)
  {
    TraceAccounting(c.prog, c.core, HasBlock(c.active), log);
  }

  /** Once nothing is in flight the register file and the memory are the sequential machine's. */
  lemma EmptyIsArchitectural(c: Cpu, log: seq<Access>)
    requires Inv(c, log) && Occupied(c.core) == 0
    ensures Abs(c, log) == Spec(Arch(c.core.rf.pc, Data(c.core.rf.v, c.core.rf.f, c.core.mem, log, Running)), false,
          false)
  {
  }

  // ---- where runs start ----

  /** A CPU as the boot controller leaves it. */
  function Booted(prog: Program, f: FRegs, mem: Mem): Cpu {
    Cpu(prog,
        Core(Rf(0, [ZERO4, ZERO4, ZERO4, ZERO4, ZERO4, ZERO4, ZERO4, ZERO4], f), mem,
             BUBBLE_IFID, BUBBLE_IDEX, BUBBLE_EXAGU, BUBBLE_AGUMEM, BUBBLE_MEMWB, BUBBLE_MEMWB),
        map[], None, NO_PAUSE, true, false, false)
  }

  lemma BootedIsGood(prog: Program, f: FRegs, mem: Mem)
    requires forall r: Reg :: f[r].Some?
    ensures Inv(Booted(prog, f, mem), []) && KeptApart(Booted(prog, f, mem), [])
    ensures Abs(Booted(prog, f, mem), []) ==
            Spec(Arch(0, Data([ZERO4, ZERO4, ZERO4, ZERO4, ZERO4, ZERO4, ZERO4, ZERO4], f, mem, [], Running)), false,
                  false)
  {
  }

  // ---- no panic ----

  lemma AguNoPanic(prog: Program, c: Core, s: bool, log: seq<Access>)
    requires CoreFine(prog, c, s, log)
    ensures !AguPanics(c) && !IdPanics(c) && EvalAGU(prog, c).act == DoNothing
  {
    FineStages(prog, c, s, log);
    hide DrainEx; hide DrainMem; hide DrainId; hide AfterEx;
    AguExact(prog, c, s, log);
    DrainKeepsRegsOk(prog.agu, c, s, log);
    if c.exagu.valid {
      AguDmaExact(c, s, log, c.exagu.dma);
      match c.exagu.agu
      case AguNop =>
      case Chk(frs, _) => AguFRegExact(c, s, log, frs);
      case Offset(_, frs, rs1, _, lit, _) =>
        AguFRegExact(c, s, log, frs);
        AguVRegExact(c, s, log, rs1, lit);
    }
  }

  /** Exactly when a tick panics. Pointer registers are always initialised, pointers always fit their
      fields, and no other pair of stages ever commits one destination twice. */
  lemma PanicsExactly(c: Cpu, log: seq<Access>, port: Portal)
    requires Orderly(c, log)
    ensures Panics(c, port) <==> ClashNow(PrepareResume(c))
  {
    hide ClashNow; hide SigOk; hide HasBlock; hide PrepareResume; hide CoreFine; hide Decided; hide Collected;
    hide Duplicated;
    hide AguPanics; hide EvalAGU;
    PrepareSignals(c);
    var c1 := PrepareResume(c);
    AguNoPanic(c1.prog, c1.core, HasBlock(c1.active), log);
    OneDestination(c1, Decided(c1, port).ops);
    ClashExactly(c1, log, port);
  }

  lemma ClashExactly(c: Cpu, log: seq<Access>, port: Portal)
    requires Orderly(c, log)
    ensures (var ops := Decided(c, port).ops;
             ops.ex == Normal && ops.id == Normal && !c.pause.requested && EvalEX(c.core).act == HoldPC
                   && JumpInId(c.core))
            <==> ClashNow(c)
  {
    var n := SubmitAll(c.active, EvalAll(c.prog, c.core, c.pause.requested));
    hide EvalAll; hide EvalAGU; hide SubmitAll; hide AfterEx; hide BlockOk; hide Decide; hide ExVReg; hide CoreOk;
    HoldsExactly(c.core);
    if !ExitNow(c.core) && EvalEX(c.core).act == HoldPC && !c.pause.requested {
      hide EvalEX;
      SubmitAllAdds(c.prog, c.core, HasBlock(c.active), log, false, c.active);
      if HasBlock(n) {
        var k :| k in n && k.reason.MemBlock?;
        BlockTick(c.prog, c.core, false, c.active, port, n, k);
        BlockOnly(c.prog, c.core, c.active, n, k);
      } else {
        FlowDecision(c, log, port, n);
      }
    }
  }

  lemma HoldsExactly(c: Core)
    ensures EvalEX(c).act == HoldPC <==> IsTest(c.idex) && EvalEX(c) != EX_RAW && !ExitNow(c)
  {
    hide ExVReg;
  }

  /** A block goes with an access in MEM or one that has just left it. */
  lemma BlockOnly(prog: Program, c: Core, m: ActiveMap, n: ActiveMap, k: Key)
    requires AllExpected(prog, c, false, n) && Extends(m, n) && k in n && k.reason.MemBlock?
    requires n[k].fsm.MemFsm?
    ensures HasBlock(m) || MemPending(c)
    ensures BlockOps(n[k].fsm.st).ex != Normal
  {
    hide EvalEX; hide EvalAGU;
    assert Expected(prog, c, false, n[k]);
  }

  /** Nothing in a tick of a good pipeline panics: every pointer register read is initialised, every
      pointer fits its fields, and no destination is committed twice. */
  lemma NoPanic(c: Cpu, log: seq<Access>, port: Portal)
    requires Inv(c, log) && KeptApart(c, log)
    ensures !Panics(c, port)
  {
    hide EvalAGU; hide EvalEX; hide DrainAgu; hide DrainMem; hide Panics; hide SigOk; hide HasBlock; hide PrepareResume;
    InvIsOrderly(c, log);
    PanicsExactly(c, log, port);
    PrepareSignals(c);
    var c1 := PrepareResume(c);
    FineIsCoreFine(c1.prog, c1.core, HasBlock(c1.active), log);
    FineStages(c1.prog, c1.core, HasBlock(c1.active), log);
    if ClashNow(c1) {
      TestExact(c1.prog, c1.core, HasBlock(c1.active), log);
    }
  }

  /** Whatever the scoreboard decides, an untaken exit test and a jump are the only two actions that can
      name one destination. */
  lemma OneDestination(c: Cpu, ops: Ops)
    requires EvalAGU(c.prog, c.core).act == DoNothing
    ensures Duplicated(Collected(EvalAll(c.prog, c.core, c.pause.requested), ops)) <==>
            ops.ex == Normal && ops.id == Normal && !c.pause.requested
            && EvalEX(c.core).act == HoldPC && JumpInId(c.core)
  {
    hide EvalEX; hide EvalAGU; hide EvalMEM; hide EvalWB; hide Decode;
    var e := EvalAll(c.prog, c.core, c.pause.requested);
    var acts := Collected(e, ops);
    FrontActs(c.prog, c.core, c.pause.requested);
    MemActs(c.core.agumem, c.core.mem);
    WbActs(c.core.memwb);
    JumpActs(c.core);
    ExitQuiet(c.core);
    AguIssues(c.prog, c.core);
    assert acts[2] == DoNothing && acts[3] == Taken(ops.ex, e.ex.act) && acts[4] == Taken(ops.id, e.id.act);
    assert c.pause.requested ==> acts[3] == DoNothing && acts[4] == DoNothing;
    OnePc(acts);
    if ops.ex == Normal && ops.id == Normal && !c.pause.requested && EvalEX(c.core).act == HoldPC && JumpInId(c.core) {
      assert Dest(acts[3]) == Some(PcDest) && Dest(acts[4]) == Some(PcDest);
    }
  }

  /** With one action on the program counter besides a possible pair from EX and ID nothing clashes. */
  lemma OnePc(acts: seq<ArchAction>)
    requires |acts| == 7
    requires acts[0] == DoNothing || acts[0].WriteVRF? || acts[0].WriteFPTR?
    requires acts[1] == DoNothing || acts[1].WriteMemData? || acts[1].WriteMemPtr?
    requires acts[2] == DoNothing && forall i :: 3 <= i < 7 ==> acts[i] == DoNothing || IsPcAct(acts[i])
    requires acts[5] != DoNothing ==> acts[3] == DoNothing && acts[4] == DoNothing && acts[6] == DoNothing
    requires acts[6] != DoNothing ==> acts[3] == DoNothing && acts[4] == DoNothing
    ensures Duplicated(acts) ==> acts[3] != DoNothing && acts[4] != DoNothing
  {
    if Duplicated(acts) && (acts[3] == DoNothing || acts[4] == DoNothing) {
      var i, j :| 0 <= i < j < |acts| && Dest(acts[i]) != None && Dest(acts[i]) == Dest(acts[j]);
      assert false;
    }
  }

  lemma JumpActs(c: Core)
    ensures EvalID(c.ifid, c.rf).act.WritePC? <==> JumpInId(c)
    ensures EvalID(c.ifid, c.rf).req.reason != ProgEnd && EvalID(c.ifid, c.rf).req.reason != Exception
    ensures EvalID(c.ifid, c.rf).req.issuer == ID
  {
    hide Decode;
  }

  lemma ExitQuiet(c: Core)
    ensures EvalEX(c).req.reason == ProgEnd ==> EvalEX(c).act == DoNothing
    ensures EvalEX(c).req.reason != Exception && EvalEX(c).req.issuer == EX
  {
    hide ExVReg;
  }

  lemma AguIssues(prog: Program, c: Core)
    ensures EvalAGU(prog, c).req.issuer == AGU
  {
    hide AguVReg; hide AguFReg; hide AguDma; hide PtrArith; hide Accept; hide Translate;
  }

  lemma WbActs(l: MemWb)
    ensures var a := EvalWB(l).1; a == DoNothing || a.WriteVRF? || a.WriteFPTR?
  {
  }
}
