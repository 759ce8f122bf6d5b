/** A program ends: the tick in which EX takes an exit, and the two ticks in which the rest drains. The
    exit outranks memory blocks, so the refinement stops here; this module says exactly what the
    pipeline does instead. */
module CpuExit {
  import opened Words
  import opened DramPortals
  import opened FlatMemory
  import opened AguUnits
  import opened CpuTypes
  import opened Scoreboard
  import opened CpuStages
  import opened CpuPipeline
  import opened Isa
  import opened CpuDrain
  import opened CpuForwarding
  import opened CpuArbitration
  import opened CpuDecision
  import opened CpuSteps
  import opened CpuRefinement
  import opened HeldFetch
  import opened CpuExitStep

  // ---- the tick in which the exit is taken ----

  /** Which DRAM requests were made on the way makes no other difference. */
  lemma {:induction false} TracesApart(prog: Program, c: Core, s: bool, log: seq<Access>)
    ensures SameState(AfterMem(c, s, log), AfterMem(c, true, log))
    ensures SameState(AfterAgu(prog.agu, c, s, log), AfterAgu(prog.agu, c, true, log))
  {
    hide DrainMem; hide DrainAgu;
    MemApart(c.agumem, s, AfterWb(c, log));
    AguSame(prog.agu, c.exagu, AfterMem(c, s, log), AfterMem(c, true, log));
  }

  lemma MemApart(l: AguMem, s: bool, d: Data)
    ensures SameState(DrainMem(l, s, d), DrainMem(l, true, d))
  {
    hide ReadData; hide ReadFptr; hide WriteData; hide WriteFptr;
  }

  lemma MemSame(l: AguMem, s: bool, a: Data, b: Data)
    requires SameState(a, b)
    ensures SameState(DrainMem(l, s, a), DrainMem(l, s, b))
  {
    hide ReadData; hide ReadFptr; hide WriteData; hide WriteFptr;
  }

  lemma AguSame(t: AguTable, l: ExAgu, a: Data, b: Data)
    requires SameState(a, b)
    ensures SameState(DrainAgu(t, l, a), DrainAgu(t, l, b))
  {
    hide DrainMem; hide PtrArith; hide Translate;
    if l.valid && a.status == Running && StoreOperand(a, l.dma).Some? {
      var dma := StoreOperand(a, l.dma).value;
      match l.agu
      case AguNop => MemSame(AguMem(true, None, l.arith, None, dma, l.wb), false, a, b);
      case Chk(frs, _) => MemSame(AguMem(true, AddrOf(t, a, frs), l.arith, None, dma, l.wb), false, a, b);
      case Offset(pop, frs, rs1, _, lit, idx) =>
        if a.f[frs].Some? {
          var q := PtrArith(t, pop, a.f[frs].value, Operand(a, rs1, lit), idx);
          MemSame(AguMem(true, None, l.arith, q, dma, l.wb), false, a, b);
        }
    }
  }

  /** Where an exit is taken: the older instructions drain without fault, and what they leave is the
      state of the fetching machine at the exit. */
  lemma AtExit(c: Cpu, log: seq<Access>)
    requires Inv(c, log) && ExitNow(c.core)
    ensures OlderFine(c.prog, c.core, log) && EvalEX(c.core).next == TEST_EXAGU && EvalEX(c.core).req == EXIT_REQ
    ensures var d := Abs(c, log).arch.d;
            d.status == Exited && SameState(AfterAgu(c.prog.agu, c.core, true, log).(status := Exited), d)
  {
    hide DrainAgu; hide DrainMem;
    FineIsCoreFine(c.prog, c.core, HasBlock(c.active), log);
    FineStages(c.prog, c.core, HasBlock(c.active), log);
    TestExact(c.prog, c.core, HasBlock(c.active), log);
    TracesApart(c.prog, c.core, HasBlock(c.active), log);
  }

  /** The instructions older than the test that are still in flight. */
  function Older(c: Core): nat {
    Bit(c.exagu.valid) + Bit(c.agumem.valid) + Bit(c.memwb.valid)
  }

  /** The tick of a taken exit, whatever else is live. It makes no DRAM request and squashes the younger
      instructions. No older instruction is lost if and only if AGU is not waiting for a load in MEM; if
      it is, the instruction in AGU disappears. What is kept drains to the sequential state. */
  lemma TakenExitKeepsOlder(c0: Cpu, log: seq<Access>, port: Portal)
    requires Inv(c0, log) && ExitNow(c0.core)
    ensures var c := c0.core;
            var (c', port') := Tick(c0, port);
            && port' == port && c'.progEndSeen && !c'.core.idex.valid && !c'.core.ifid.valid
            && c'.core.exagu == TEST_EXAGU && c'.core.memwb.valid == c.agumem.valid
            && (Bit(c'.core.agumem.valid) + Bit(c'.core.memwb.valid) + Bit(c.memwb.valid) == Older(c)
                <==> EvalAGU(c0.prog, c) != AGU_RAW)
            && (EvalAGU(c0.prog, c) == AGU_RAW ==> c.exagu.valid && !c'.core.agumem.valid)
            && AfterMem(c'.core, false, log) == Kept(c0.prog, c, log)
            && (EvalAGU(c0.prog, c) != AGU_RAW ==>
                  SameState(AfterMem(c'.core, false, log).(status := Exited), Abs(c0, log).arch.d))
  {
    hide EvalEX; hide EvalAGU; hide EvalMEM; hide PrepareResume; hide AfterAgu; hide AfterMem; hide Inv; hide SameState;
    hide NextOf; hide Abs; hide Closing; hide ExitNow; hide Tick; hide Kept; hide AddBlock; hide BlocksOf;
    hide NoRaw; hide CoreOk;
    hide RegsOk;
    PrepareKeeps(c0, log);
    PrepareTwice(c0);
    AtExit(c0, log);
    if EvalAGU(c0.prog, c0.core) != AGU_RAW {
      ExitLeaves(c0, log);
    }
    RawMeansValid(c0.prog, c0.core);
    var c1 := PrepareResume(c0);
    AtExitSignals(c1, log);
    ExitTick(c1, port, log, WbDrain);
    TickPrepared(c0, port);
    ExitStep(c1.prog, c1.core, c1.pause.requested, log);
  }

  lemma ExitLeaves(c: Cpu, log: seq<Access>)
    requires Inv(c, log) && ExitNow(c.core) && EvalAGU(c.prog, c.core) != AGU_RAW
    ensures SameState(Kept(c.prog, c.core, log).(status := Exited), Abs(c, log).arch.d)
  {
    hide EvalAGU; hide AfterAgu; hide Abs; hide Inv; hide ExitNow;
    AtExit(c, log);
  }

  lemma AtExitSignals(c: Cpu, log: seq<Access>)
    requires Inv(c, log)
    ensures Closing(c.active, c.pause.requested) && EXIT_KEY !in c.active && !c.finished
  {
    hide Closing; hide Fine; hide SigOk;
    SignalsClose(c.prog, c.core, c.pause.requested, c.active);
  }

  lemma PrepareTwice(c: Cpu)
    ensures PrepareResume(PrepareResume(c)) == PrepareResume(c)
  {
  }

  lemma TickPrepared(c: Cpu, port: Portal)
    requires PrepareResume(PrepareResume(c)) == PrepareResume(c)
    ensures Tick(c, port) == Tick(PrepareResume(c), port)
  {
    hide Run; hide PrepareResume;
  }

  // ---- the two ticks in which the rest drains ----

  /** A pause is asserted or not, and no resume is about to change that. */
  predicate Steady(c: Cpu, requested: bool) {
    c.pause.requested == requested && !c.pause.resumePending
  }

  /** A pipeline in which the exit's bubble has reached AGU, or has passed it. */
  ghost predicate Leaving(c: Cpu, drain: DrainState, requested: bool) {
    && Steady(c, requested) && !c.finished && Closing(c.active, requested)
    && EXIT_KEY in c.active && c.active[EXIT_KEY].fsm == ExitFsm(drain)
    && CoreOk(c.core) && !c.core.idex.valid && !c.core.ifid.valid
    && (c.core.exagu == TEST_EXAGU || !c.core.exagu.valid)
  }

  lemma NoTest(c: Core)
    requires !c.idex.valid
    ensures EvalEX(c) == Eval(BUBBLE_EXAGU, Quiet(EX), DoNothing)
  {
  }

  lemma LeavingTick(c: Cpu, port: Portal, log: seq<Access>, drain: DrainState, requested: bool)
    requires Leaving(c, drain, requested) && AfterMem(c.core, true, log).status == Running
    ensures var (c', port') := Tick(c, port);
            && port' == port && c'.prog == c.prog && Steady(c', requested) && Closing(c'.active, requested)
            && c'.progEndSeen
            && NoRaw(c'.active) && c'.pause == UpdateReady(c.pause, Some(ProgEnd))
            && CoreOk(c'.core) && !c'.core.idex.valid && !c'.core.ifid.valid && !c'.core.exagu.valid
            && (drain == MemDrain ==> EXIT_KEY in c'.active && c'.active[EXIT_KEY].fsm == ExitFsm(AguDrain))
            && (drain == AguDrain ==> EXIT_KEY !in c'.active)
            && BlocksOf(c'.active) == AddBlock(BlocksOf(c.active), EvalMEM(c.core.agumem, c.core.mem).0.req)
            && AfterWb(c'.core, log) == AfterMem(c.core, true, log)
            && c'.core.agumem == (if c.core.exagu.valid then TEST_AGUMEM else BUBBLE_AGUMEM)
            && c'.core.memwb.valid == c.core.agumem.valid
            && (c.core.agumem == TEST_AGUMEM ==> c'.core.memwb == TEST_MEMWB)
            && (c'.finished <==> !c'.core.exagu.valid && !c'.core.agumem.valid && !c'.core.memwb.valid)
  {
    hide EvalEX; hide EvalAGU; hide EvalMEM; hide PrepareResume; hide Closing; hide AfterAgu; hide AfterMem;
    hide Tick; hide AfterWb;
    hide NextOf; hide BlocksOf; hide AddBlock; hide NoRaw; hide RegsOk; hide FwdOk;
    ExitBubble(c.prog, c.core, log);
    NoTest(c.core);
    TestPasses(c.core.mem);
    SteadyPrepared(c, requested);
    ExitTick(c, port, log, drain);
    ExitStep(c.prog, c.core, requested, log);
  }

  lemma TestPasses(m: Mem)
    ensures EvalMEM(TEST_AGUMEM, m) == (Eval(TEST_MEMWB, Quiet(MEM), DoNothing), m)
  {
  }

  /** Only the exit's own bubble is in flight, in WB. */
  predicate LastInWb(c: Core) {
    && CoreOk(c) && !c.idex.valid && !c.ifid.valid && !c.exagu.valid && !c.agumem.valid && c.memwb == TEST_MEMWB
  }

  /** The signals left behind by an exit: the memory blocks that were live, and those of the accesses in
      MEM and in AGU when it was taken. */
  function Stale(c: Cpu): ActiveMap {
    AddBlock(AddBlock(BlocksOf(c.active), EvalMEM(c.core.agumem, c.core.mem).0.req),
             EvalMEM(EvalAGU(c.prog, c.core).next, NextOf(c.prog, c.core, c.pause.requested, EXIT_OPS).mem).0.req)
  }

  lemma SteadyPrepared(c: Cpu, requested: bool)
    requires Steady(c, requested)
    ensures PrepareResume(c) == c
  {
  }

  /** After the tick that takes the exit the rest of the pipeline is on its way out. */
  lemma ExitLeaving(c0: Cpu, log: seq<Access>, p0: Portal)
    requires Inv(c0, log) && ExitNow(c0.core) && Steady(c0, c0.pause.requested)
    ensures var (c1, p1) := Tick(c0, p0);
            && c1.pause == UpdateReady(c0.pause, Some(ProgEnd))
            && p1 == p0 && c1.prog == c0.prog && Leaving(c1, MemDrain, c0.pause.requested)
            && c1.core.exagu == TEST_EXAGU && !c1.finished
            && AfterMem(c1.core, false, log) == Kept(c0.prog, c0.core, log)
            && c1.core.agumem == EvalAGU(c0.prog, c0.core).next
            && c1.core.mem == NextOf(c0.prog, c0.core, c0.pause.requested, EXIT_OPS).mem
            && BlocksOf(c1.active) == AddBlock(BlocksOf(c0.active), EvalMEM(c0.core.agumem, c0.core.mem).0.req)
  {
    hide Inv; hide ExitNow; hide Kept; hide EvalEX; hide EvalAGU; hide EvalMEM; hide PrepareResume;
    hide Closing; hide AfterAgu;
    hide AfterMem; hide Tick; hide AfterWb; hide NextOf; hide BlocksOf; hide AddBlock; hide NoRaw; hide Abs;
    hide CoreOk;
    hide SameState;
    AtExit(c0, log);
    AtExitSignals(c0, log);
    SteadyPrepared(c0, c0.pause.requested);
    ExitTick(c0, p0, log, WbDrain);
    ExitStep(c0.prog, c0.core, c0.pause.requested, log);
  }

  /** The state after the exit's signal has left. */
  ghost predicate Lasting(c: Cpu, requested: bool) {
    && Steady(c, requested) && !c.finished && c.progEndSeen && LastInWb(c.core)
    && Closing(c.active, requested) && EXIT_KEY !in c.active && NoRaw(c.active)
  }

  /** Three ticks after the exit was taken registers and memory are what the older instructions leave,
      only the test's own bubble is in flight, and the memory blocks are still there. */
  lemma TakenExitDrains(c0: Cpu, log: seq<Access>, p0: Portal, p1: Portal, p2: Portal)
    requires Inv(c0, log) && ExitNow(c0.core) && Steady(c0, c0.pause.requested)
    ensures var c1 := Tick(c0, p0).0;
            var c2 := Tick(c1, p1).0;
            var c3 := Tick(c2, p2).0;
            && Tick(c0, p0).1 == p0 && Tick(c1, p1).1 == p1 && Tick(c2, p2).1 == p2
            && SameState(Base(c3.core, log), Kept(c0.prog, c0.core, log))
            && !c1.finished && !c2.finished && Lasting(c3, c0.pause.requested) && BlocksOf(c3.active) == Stale(c0)
            && (c0.pause.requested && !c0.pause.delayStarted && c0.pause.remaining == 0 ==>
                  !c3.pause.delayStarted && c3.pause.remaining == 0)
  {
    hide Inv; hide ExitNow; hide Kept; hide EvalEX; hide EvalAGU; hide EvalMEM; hide Closing; hide AfterMem; hide Tick;
    hide AfterWb; hide NextOf; hide BlocksOf; hide AddBlock; hide NoRaw; hide CoreOk; hide SameState; hide Base;
    AtExit(c0, log);
    ExitLeaving(c0, log, p0);
    var c1 := Tick(c0, p0).0;
    KeptRuns(c0.prog, c0.core, log);
    AfterMemApart(c1.core, log);
    LeavingTick(c1, p1, log, MemDrain, c0.pause.requested);
    var c2 := Tick(c1, p1).0;
    TestInMem(c2.core, log);
    LeavingTick(c2, p2, log, AguDrain, c0.pause.requested);
    var c3 := Tick(c2, p2).0;
    TestInWb(c3.core, log);
    NoAdd(BlocksOf(c2.active));
    SameTrans(Base(c3.core, log), AfterMem(c1.core, true, log), Kept(c0.prog, c0.core, log));
  }

  lemma KeptRuns(prog: Program, c: Core, log: seq<Access>)
    requires OlderFine(prog, c, log)
    ensures Kept(prog, c, log).status == Running
  {
    hide DrainAgu; hide DrainMem;
    DrainKeepsRegsOk(prog.agu, c, true, log);
  }

  lemma AfterMemApart(c: Core, log: seq<Access>)
    ensures SameState(AfterMem(c, true, log), AfterMem(c, false, log))
    ensures AfterMem(c, true, log).status == AfterMem(c, false, log).status
  {
    hide DrainMem;
    MemApart(c.agumem, false, AfterWb(c, log));
  }

  lemma TestInMem(c: Core, log: seq<Access>)
    requires c.agumem == TEST_AGUMEM
    ensures AfterMem(c, true, log) == AfterWb(c, log) && EvalMEM(c.agumem, c.mem).0.req == Quiet(MEM)
  {
    TestPasses(c.mem);
    assert DrainMem(TEST_AGUMEM, true, AfterWb(c, log)) == AfterWb(c, log) by {
      TestLeavesNothing(map[], true, AfterWb(c, log));
    }
  }

  lemma TestInWb(c: Core, log: seq<Access>)
    requires c.memwb == TEST_MEMWB
    ensures AfterWb(c, log) == Base(c, log)
    ensures SameState(Base(c, log), AfterWb(c, log))
  {
  }

  lemma NoAdd(b: ActiveMap)
    ensures AddBlock(b, Quiet(MEM)) == b
  {
  }
}
