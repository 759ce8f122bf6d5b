/** Programs that show where exits leave the sequential meaning, run from a freshly booted CPU. */
module CpuExamples {
  import opened Words
  import opened DramPortals
  import opened FlatMemory
  import opened AguUnits
  import opened CpuTypes
  import opened Scoreboard
  import opened CpuStages
  import opened CpuPipeline
  import opened Isa
  import opened CpuDrain
  import opened CpuForwarding
  import opened CpuSteps
  import opened FetchMachine
  import opened CpuRefinement
  import opened CpuRuns
  import opened CpuProgress
  import opened HeldFetch
  import opened FetchHang
  import opened CpuExitStep
  import opened CpuExit
  import opened CpuFinish
  import opened CpuEnding

  const ZERO_V: VRegs := [ZERO4, ZERO4, ZERO4, ZERO4, ZERO4, ZERO4, ZERO4, ZERO4]

  /** Pointer registers as boot leaves them, a descriptor table and a memory in which the entry `a` that
      register 0 points at holds the vector `x`. */
  ghost predicate Loadable(t: AguTable, f: FRegs, mem: Mem, a: u32, x: Vec4) {
    && (forall r: Reg :: f[r].Some?)
    && Translate(t, f[0].value) == Some(a) && ReadData(mem, a).0 == Some(x)
  }

  function ResetState(f: FRegs, mem: Mem): Arch {
    Arch(0, Data(ZERO_V, f, mem, [], Running))
  }

  lemma BootedStands(prog: Program, f: FRegs, mem: Mem)
    requires forall r: Reg :: f[r].Some?
    ensures var c := Booted(prog, f, mem);
            && Inv(c, []) && KeptApart(c, []) && Unpaused(c) && Prompt(c)
            && Abs(c, []) == Spec(ResetState(f, mem), false, false)
  {
    hide Inv; hide Abs;
    BootedIsGood(prog, f, mem);
  }

  // ---- an instruction that runs twice ----

  const ADD_TWICE: seq<Inst> := [LD128(1, 0), EqualExit(0, 1), NOP, Vec128(ADD, 2, 2, 1)]

  /** Load a vector, test it against zero without exiting, and add it to v2: the addition is executed
      twice. The fetching machine, and with it the pipeline, has 2x where the sequential machine has x. */
  lemma AddRunsTwice(t: AguTable, f: FRegs, mem: Mem, a: u32, x: Vec4) returns (r: Trace)
    requires Loadable(t, f, mem, a, x) && x != ZERO4
    ensures IsRun(r, Booted(Program(ADD_TWICE, t), f, mem))
    ensures var s := r.states[|r.evs|];
            && s.fetched == 5 && Inv(s.cpu, s.log)
            && Abs(s.cpu, s.log).arch.d.v[2] == Lanes4(ADD, x, x) && Lanes4(ADD, x, x) != x
            && Steps(Program(ADD_TWICE, t), ResetState(f, mem), 4).d.v[2] == x
            && Abs(s.cpu, s.log).arch.pc == 4 == Steps(Program(ADD_TWICE, t), ResetState(f, mem), 4).pc
  {
    hide Inv; hide Abs; hide IsRun; hide KeptApart; hide Occupied; hide PendingAccesses; hide FetchSteps;
    hide Steps; hide Covered;
    var prog := Program(ADD_TWICE, t);
    BootedStands(prog, f, mem);
    AddSteps(t, f, mem, a, x);
    DoubleDiffers(x);
    r := CoveredRunExists(Booted(prog, f, mem), 5);
  }

  lemma DoubleDiffers(x: Vec4)
    requires x != ZERO4
    ensures Lanes4(ADD, x, x) != x
  {
  }

  /** The state after the load. */
  function Loaded(f: FRegs, mem: Mem, a: u32): Data {
    LoadVec(Touch(ResetState(f, mem).d, a, true), 1, a)
  }

  /** A load and an exit test that is not taken, the start of the first two programs. */
  lemma LoadAndTest(prog: Program, f: FRegs, mem: Mem, a: u32, x: Vec4)
    requires Loadable(prog.agu, f, mem, a, x) && x != ZERO4
    requires |prog.imem| > 2 && prog.imem[0] == LD128(1, 0) && prog.imem[1] == EqualExit(0, 1)
    ensures var s0 := ResetState(f, mem);
            var d := Loaded(f, mem, a);
            && d.v == ZERO_V[1 := x] && d.status == Running
            && FetchStep(prog, Spec(s0, false, false)) == Spec(Arch(1, d), false, false)
            && FetchStep(prog, Spec(Arch(1, d), false, false)) == Spec(Arch(2, d), true, false)
            && Step(prog, s0) == Arch(1, d) && Step(prog, Arch(1, d)) == Arch(2, d)
  {
    hide Translate; hide ReadData;
  }

  /** The rest of the program: a NOP, and the addition. */
  lemma NopAndAdd(prog: Program, d: Data, x: Vec4)
    requires prog.imem == ADD_TWICE && d.v == ZERO_V[1 := x] && d.status == Running
    ensures var d2 := SetV(d, 2, x);
            var d3 := SetV(d, 2, Lanes4(ADD, x, x));
            && FetchStep(prog, Spec(Arch(2, d), true, false)) == Spec(Arch(3, d), false, true)
            && FetchStep(prog, Spec(Arch(3, d), false, true)) == Spec(Arch(3, d2), false, false)
            && FetchStep(prog, Spec(Arch(3, d2), false, false)) == Spec(Arch(4, d3), false, false)
            && Step(prog, Arch(2, d)) == Arch(3, d) && Step(prog, Arch(3, d)) == Arch(4, d2)
  {
    hide LaneOp;
    AddZero(x);
    assert SetV(SetV(d, 2, x), 2, Lanes4(ADD, x, x)) == SetV(d, 2, Lanes4(ADD, x, x));
  }

  lemma AddSteps(t: AguTable, f: FRegs, mem: Mem, a: u32, x: Vec4)
    requires Loadable(t, f, mem, a, x) && x != ZERO4
    ensures var prog := Program(ADD_TWICE, t);
            var s0 := Spec(ResetState(f, mem), false, false);
            && AllCovered(prog, s0, 5)
            && FetchSteps(prog, s0, 5).arch.d.v[2] == Lanes4(ADD, x, x) && FetchSteps(prog, s0, 5).arch.pc == 4
            && Steps(prog, ResetState(f, mem), 4).d.v[2] == x && Steps(prog, ResetState(f, mem), 4).pc == 4
  {
    hide FetchStep; hide Step; hide Loadable; hide Lanes4; hide Loaded; hide FetchSteps; hide Steps;
    var prog := Program(ADD_TWICE, t);
    var s0 := Spec(ResetState(f, mem), false, false);
    LoadAndTest(prog, f, mem, a, x);
    NopAndAdd(prog, Loaded(f, mem, a), x);
    Unroll(prog, s0);
    UnrollSteps(prog, s0.arch);
  }

  lemma AddZero(x: Vec4)
    ensures Lanes4(ADD, ZERO4, x) == x
  {
  }

  lemma Unroll(prog: Program, s: Spec)
    ensures FetchSteps(prog, s, 0) == s && FetchSteps(prog, s, 1) == FetchStep(prog, s)
    ensures FetchSteps(prog, s, 2) == FetchStep(prog, FetchSteps(prog, s, 1))
    ensures FetchSteps(prog, s, 3) == FetchStep(prog, FetchSteps(prog, s, 2))
    ensures FetchSteps(prog, s, 4) == FetchStep(prog, FetchSteps(prog, s, 3))
    ensures FetchSteps(prog, s, 5) == FetchStep(prog, FetchSteps(prog, s, 4))
  {
    hide FetchStep;
  }

  lemma UnrollSteps(prog: Program, s: Arch)
    ensures Steps(prog, s, 0) == s && Steps(prog, s, 1) == Step(prog, s)
    ensures Steps(prog, s, 2) == Step(prog, Steps(prog, s, 1))
    ensures Steps(prog, s, 3) == Step(prog, Steps(prog, s, 2))
    ensures Steps(prog, s, 4) == Step(prog, Steps(prog, s, 3))
    ensures Steps(prog, s, 5) == Step(prog, Steps(prog, s, 4))
  {
    hide Step;
  }

  // ---- an instruction that faults only when it is repeated ----

  const POINTER_TWICE: seq<Inst> := [LD128(1, 0), EqualExit(0, 1), NOP, FatPtrArith(PADD, 1, 1, 1, 0)]

  /** Pointer `p` may be moved by `x` once, to `q`, but not twice. */
  predicate MovesOnce(t: AguTable, p: FatPtr, x: Vec4, q: FatPtr) {
    PtrArith(t, PADD, p, x, 0) == Some(q) && PtrArith(t, PADD, q, x, 0) == None
  }

  /** Load a vector, test it without exiting, and add it to a pointer that stays within its bounds only
      once: the sequential machine runs on, the pipeline is about to fault. */
  lemma OnlyRepeatFaults(t: AguTable, f: FRegs, mem: Mem, a: u32, x: Vec4, q: FatPtr) returns (r: Trace)
    requires Loadable(t, f, mem, a, x) && x != ZERO4 && MovesOnce(t, f[1].value, x, q)
    ensures IsRun(r, Booted(Program(POINTER_TWICE, t), f, mem))
    ensures var s := r.states[|r.evs|];
            var d := Steps(Program(POINTER_TWICE, t), ResetState(f, mem), 4).d;
            && s.fetched == 4 && Inv(s.cpu, s.log) && SameState(Abs(s.cpu, s.log).arch.d, d)
            && FetchStep(s.cpu.prog, Abs(s.cpu, s.log)).arch.d.status == Faulted
            && d.status == Running && d.f[1] == Some(q)
  {
    hide Inv; hide Abs; hide IsRun; hide KeptApart; hide Occupied; hide PendingAccesses; hide FetchSteps;
    hide Steps; hide Covered; hide FetchStep;
    var prog := Program(POINTER_TWICE, t);
    BootedStands(prog, f, mem);
    PointerSteps(t, f, mem, a, x, q);
    r := CoveredRunExists(Booted(prog, f, mem), 4);
  }

  lemma NopAndMove(prog: Program, d: Data, x: Vec4, q: FatPtr)
    requires prog.imem == POINTER_TWICE && d.v == ZERO_V[1 := x] && d.status == Running && d.f[1].Some?
    requires MovesOnce(prog.agu, d.f[1].value, x, q)
    ensures var d2 := SetF(d, 1, q);
            && FetchStep(prog, Spec(Arch(2, d), true, false)) == Spec(Arch(3, d), false, true)
            && FetchStep(prog, Spec(Arch(3, d), false, true)) == Spec(Arch(3, d2), false, false)
            && FetchStep(prog, Spec(Arch(3, d2), false, false)).arch.d.status == Faulted
            && Step(prog, Arch(2, d)) == Arch(3, d) && Step(prog, Arch(3, d)) == Arch(4, d2)
  {
    hide PtrArith;
  }

  lemma PointerSteps(t: AguTable, f: FRegs, mem: Mem, a: u32, x: Vec4, q: FatPtr)
    requires Loadable(t, f, mem, a, x) && x != ZERO4 && MovesOnce(t, f[1].value, x, q)
    ensures var prog := Program(POINTER_TWICE, t);
            var s0 := Spec(ResetState(f, mem), false, false);
            var d2 := SetF(Loaded(f, mem, a), 1, q);
            && AllCovered(prog, s0, 4) && FetchSteps(prog, s0, 4).arch.d == d2
            && FetchStep(prog, FetchSteps(prog, s0, 4)).arch.d.status == Faulted
            && Steps(prog, ResetState(f, mem), 4).d == d2 && d2.status == Running && d2.f[1] == Some(q)
  {
    hide FetchStep; hide Step; hide FetchSteps; hide Steps; hide MovesOnce; hide LoadVec;
    var prog := Program(POINTER_TWICE, t);
    var s0 := Spec(ResetState(f, mem), false, false);
    LoadAndTest(prog, f, mem, a, x);
    LoadedPointers(f, mem, a);
    NopAndMove(prog, Loaded(f, mem, a), x, q);
    Unroll(prog, s0);
    UnrollSteps(prog, s0.arch);
  }

  lemma LoadedPointers(f: FRegs, mem: Mem, a: u32)
    ensures Loaded(f, mem, a).f == f
  {
    hide ReadData;
  }

  // ---- programs that hang ----

  const THREE_TESTS: seq<Inst> := [LD128(1, 0), EqualExit(0, 1), EqualExit(0, 1), EqualExit(0, 1)]
  const SPLIT_TESTS: seq<Inst> := [LD128(1, 0), EqualExit(0, 1), NOP, EqualExit(0, 1), EqualExit(0, 1)]

  /** Load a vector and test it three times in a row, or with a NOP behind the first test. */
  function HangingProgram(t: AguTable, split: bool): Program {
    Program(if split then SPLIT_TESTS else THREE_TESTS, t)
  }

  function LastTest(split: bool): u16 {
    if split then 4 else 3
  }

  /** What the pipeline stands for once it hangs. */
  function HungState(f: FRegs, mem: Mem, a: u32, split: bool): Spec {
    Spec(Arch(LastTest(split), Loaded(f, mem, a)), true, true)
  }

  /** The sequential machine goes on behind the last test. The pipeline never does, whatever the memory
      latencies and pauses, and never finishes. */
  lemma TestsHang(t: AguTable, f: FRegs, mem: Mem, a: u32, x: Vec4, split: bool, r: Trace, n: nat)
    requires Loadable(t, f, mem, a, x) && x != ZERO4
    requires IsRun(r, Booted(HangingProgram(t, split), f, mem)) && n <= |r.evs|
    ensures Steps(HangingProgram(t, split), ResetState(f, mem), LastTest(split) + 1)
            == Arch(LastTest(split) + 1, Loaded(f, mem, a))
    ensures var s := r.states[n];
            && AllSmooth(r, n) && !s.cpu.finished
            && (s.fetched >= 5 ==> Abs(s.cpu, s.log) == HungState(f, mem, a, split))
  {
    hide Inv; hide Abs; hide KeptApart; hide Occupied; hide PendingAccesses; hide FetchSteps; hide Smooth; hide RunOne;
    hide Steps; hide FetchStep; hide Hung; hide Loaded; hide Unpaused; hide ClashFree; hide Prompt; hide IsRun;
    var prog := HangingProgram(t, split);
    BootedStands(prog, f, mem);
    HangSteps(t, f, mem, a, x, split);
    HungRun(Booted(prog, f, mem), r, n, LastTest(split) + if split then 1 else 0);
  }

  /** And with a DRAM that answers it fetches the last test any number of times. */
  lemma HangIsFetched(t: AguTable, f: FRegs, mem: Mem, a: u32, x: Vec4, split: bool, n: nat) returns (r: Trace)
    requires Loadable(t, f, mem, a, x) && x != ZERO4 && n >= 5
    ensures IsRun(r, Booted(HangingProgram(t, split), f, mem)) && AllSmooth(r, |r.evs|)
    ensures var s := r.states[|r.evs|];
            s.fetched == n && Abs(s.cpu, s.log) == HungState(f, mem, a, split)
  {
    hide Inv; hide Abs; hide KeptApart; hide Occupied; hide PendingAccesses; hide FetchSteps; hide Smooth; hide RunOne;
    hide Steps; hide FetchStep; hide Hung; hide Loaded; hide Unpaused; hide ClashFree; hide Prompt;
    var prog := HangingProgram(t, split);
    BootedStands(prog, f, mem);
    HangSteps(t, f, mem, a, x, split);
    r := HangIsReached(Booted(prog, f, mem), LastTest(split) + if split then 1 else 0, n);
  }

  lemma TestAgain(prog: Program, d: Data, x: Vec4, pc: u16, afterTest: bool, held: bool)
    requires d.v == ZERO_V[1 := x] && x != ZERO4 && d.status == Running && pc < 8 && pc < |prog.imem|
    requires prog.imem[pc] == EqualExit(0, 1)
    ensures FetchStep(prog, Spec(Arch(pc, d), afterTest, held)) ==
            Spec(Arch(if held then pc else pc + 1, d), true, afterTest)
    ensures Step(prog, Arch(pc, d)) == Arch(pc + 1, d)
    ensures Hung(prog, Spec(Arch(pc, d), true, true))
  {
  }

  lemma HangSteps(t: AguTable, f: FRegs, mem: Mem, a: u32, x: Vec4, split: bool)
    requires Loadable(t, f, mem, a, x) && x != ZERO4
    ensures var prog := HangingProgram(t, split);
            var s0 := Spec(ResetState(f, mem), false, false);
            var k := LastTest(split) + if split then 1 else 0;
            && FetchSteps(prog, s0, k) == HungState(f, mem, a, split) && Hung(prog, FetchSteps(prog, s0, k))
            && ClashFree(prog, s0, k)
            && Steps(prog, s0.arch, LastTest(split) + 1) == Arch(LastTest(split) + 1, Loaded(f, mem, a))
  {
    hide FetchStep; hide Step; hide Loadable; hide Loaded; hide FetchSteps; hide Steps; hide Hung;
    var prog := HangingProgram(t, split);
    var s0 := Spec(ResetState(f, mem), false, false);
    var d := Loaded(f, mem, a);
    LoadAndTest(prog, f, mem, a, x);
    Unroll(prog, s0);
    UnrollSteps(prog, s0.arch);
    if split {
      NopStep(prog, d);
      TestAgain(prog, d, x, 3, false, true);
      TestAgain(prog, d, x, 3, true, false);
      TestAgain(prog, d, x, 4, true, true);
    } else {
      TestAgain(prog, d, x, 2, true, false);
      TestAgain(prog, d, x, 3, true, true);
    }
  }

  lemma NopStep(prog: Program, d: Data)
    requires d.status == Running && Fetch(prog.imem, 2) == NOP
    ensures FetchStep(prog, Spec(Arch(2, d), true, false)) == Spec(Arch(3, d), false, true)
    ensures Step(prog, Arch(2, d)) == Arch(3, d)
  {
  }

  // ---- a jump behind an exit test ----

  const TEST_JUMP: seq<Inst> := [LD128(1, 0), EqualExit(0, 1), JUMP(0)]

  /** Load a vector, test it against zero without exiting, and jump: the CPU panics. */
  lemma JumpPanics(t: AguTable, f: FRegs, mem: Mem, a: u32, x: Vec4, port: Portal) returns (r: Trace)
    requires Loadable(t, f, mem, a, x) && x != ZERO4
    ensures IsRun(r, Booted(Program(TEST_JUMP, t), f, mem)) && AllSmooth(r, |r.evs|)
    ensures Panics(r.states[|r.evs|].cpu, port)
  {
    hide Inv; hide Abs; hide KeptApart; hide FetchSteps; hide Allowed; hide Clashes; hide Panics; hide Smooth;
    var prog := Program(TEST_JUMP, t);
    BootedStands(prog, f, mem);
    JumpSteps(t, f, mem, a, x);
    r := ClashPanics(Booted(prog, f, mem), 2, port);
  }

  lemma JumpSteps(t: AguTable, f: FRegs, mem: Mem, a: u32, x: Vec4)
    requires Loadable(t, f, mem, a, x) && x != ZERO4
    ensures var prog := Program(TEST_JUMP, t);
            var s0 := Spec(ResetState(f, mem), false, false);
            Clashes(prog, FetchSteps(prog, s0, 2))
  {
    hide FetchStep; hide Step; hide Loadable; hide Loaded; hide FetchSteps;
    var prog := Program(TEST_JUMP, t);
    var s0 := Spec(ResetState(f, mem), false, false);
    LoadAndTest(prog, f, mem, a, x);
    Unroll(prog, s0);
  }

  // ---- a store that is lost, and a request that comes late ----

  const STORE_EXIT: seq<Inst> := [LD128(1, 0), ST128(1, 1), EqualExit(0, 0)]

  /** A tick in which no stage raises a signal and none is live. */
  lemma QuietTick(c: Cpu, port: Portal)
    requires Unpaused(c) && !c.finished && c.active == map[]
    requires var e := EvalAll(c.prog, c.core, false);
             && e.wbReq.reason == NoReason && e.mem.req.reason == NoReason && e.agu.req.reason == NoReason
             && e.ex.req.reason == NoReason && e.id.req.reason == NoReason && e.iF.req.reason == NoReason
    ensures var (c', port') := Tick(c, port);
            && port' == port && c'.prog == c.prog && c'.core == NextOf(c.prog, c.core, false, ALL_NORMAL)
            && c'.active == map[] && Unpaused(c') && (c'.progEndSeen == c.progEndSeen)
            && (!c.progEndSeen ==> !c'.finished)
  {
    hide EvalAll; hide NextCore;
  }

  /** The latches after `k` ticks, as long as nothing stalls. */
  function At(t: AguTable, f: FRegs, mem: Mem, k: nat): Core
    requires k <= 4 && forall r: Reg :: f[r].Some?
  {
    var p0, p1 := f[0].value, f[1].value;
    var load := ExAgu(true, None, Chk(0, p0), ReadVec(1), WbVec(1));
    var store := IdEx(true, AluNop, Chk(1, p1), WriteVec(1, ZERO4), WbNop);
    Core(
      Rf(k, ZERO_V, f), mem,
      if k == 0 then BUBBLE_IFID else IfId(true, k - 1, Fetch(STORE_EXIT, k - 1)),
      if k < 2 then BUBBLE_IDEX
      else if k == 2 then IdEx(true, AluNop, load.agu, load.dma, load.wb)
      else if k == 3 then store
      else IdEx(true, Alu(TEST, 0, 0, ZERO4, ZERO4), AguNop, DmaNop, WbNop),
      if k < 3 then BUBBLE_EXAGU
      else if k == 3 then load
      else ExAgu(true, None, store.agu, store.dma, store.wb),
      if k < 4 then BUBBLE_AGUMEM else AguMem(true, Translate(t, p0), None, None, ReadVec(1), WbVec(1)),
      BUBBLE_MEMWB, BUBBLE_MEMWB)
  }

  lemma AtEvals(t: AguTable, f: FRegs, mem: Mem, k: nat)
    requires k < 4 && (forall r: Reg :: f[r].Some?) && Translate(t, f[0].value).Some?
    ensures var e := EvalAll(Program(STORE_EXIT, t), At(t, f, mem, k), false);
            var c' := At(t, f, mem, k + 1);
            && e.wbReq == Quiet(WB) && e.wbAct == DoNothing && e.mem == Eval(BUBBLE_MEMWB, Quiet(MEM), DoNothing)
            && e.claimed == mem && e.agu == Eval(c'.agumem, Quiet(AGU), DoNothing)
            && e.ex == Eval(c'.exagu, Quiet(EX), DoNothing) && e.id == Eval(c'.idex, Quiet(ID), DoNothing)
            && e.iF == Eval(c'.ifid, Quiet(IF), DoNothing)
  {
  }

  lemma AtNext(t: AguTable, f: FRegs, mem: Mem, k: nat)
    requires k < 4 && (forall r: Reg :: f[r].Some?) && Translate(t, f[0].value).Some?
    ensures NextOf(Program(STORE_EXIT, t), At(t, f, mem, k), false, ALL_NORMAL) == At(t, f, mem, k + 1)
  {
    hide EvalAll; hide Translate;
    AtEvals(t, f, mem, k);
  }

  /** The first four ticks of the program. */
  lemma {:induction false} StoreRun(t: AguTable, f: FRegs, mem: Mem, k: nat) returns (r: Trace)
    requires k <= 4 && (forall r: Reg :: f[r].Some?) && Translate(t, f[0].value).Some?
    ensures IsRun(r, Booted(Program(STORE_EXIT, t), f, mem)) && |r.evs| == k
    ensures var c := r.states[k].cpu;
            && c.prog == Program(STORE_EXIT, t) && c.core == At(t, f, mem, k) && c.active == map[] && Unpaused(c)
            && !c.finished && !c.progEndSeen
    ensures forall i :: 0 <= i < k ==> r.states[i].cpu.core == At(t, f, mem, i)
  {
    hide NextOf; hide EvalAll; hide Tick; hide Translate; hide LogAfter; hide Decided;
    var c0 := Booted(Program(STORE_EXIT, t), f, mem);
    if k == 0 {
      r := Trace([], [RunState(c0, [], 0, 0, 0)]);
    } else {
      var r0 := StoreRun(t, f, mem, k - 1);
      var ev := TickEv(EMPTY_PORTAL);
      var s := r0.states[k - 1];
      AtEvals(t, f, mem, k - 1);
      AtNext(t, f, mem, k - 1);
      QuietTick(s.cpu, EMPTY_PORTAL);
      r := Extended(r0, ev, RunOne(s, ev));
      forall i: nat | i < |r.evs| ensures Linked(r, i) {
        if i < k - 1 {
          assert Linked(r0, i);
        }
      }
    }
  }

  lemma AtExits(t: AguTable, f: FRegs, mem: Mem, k: nat)
    requires k <= 4 && (forall r: Reg :: f[r].Some?) && Translate(t, f[0].value).Some?
    ensures ExitNow(At(t, f, mem, k)) <==> k == 4
    ensures k == 4 ==> EvalAGU(Program(STORE_EXIT, t), At(t, f, mem, k)) == AGU_RAW
    ensures k == 4 ==> IsAccess(At(t, f, mem, k).agumem)
  {
  }

  /** What the sequential machine does with the program. */
  lemma StoreSteps(t: AguTable, f: FRegs, mem: Mem, a: u32, x: Vec4, b: u32, y: Vec4)
    requires Loadable(t, f, mem, a, x) && Translate(t, f[1].value) == Some(b) && a != b && ReadData(mem, b).0 == Some(y)
    ensures EndsAfter(Program(STORE_EXIT, t), ResetState(f, mem), 2)
    ensures ReadData(Steps(Program(STORE_EXIT, t), ResetState(f, mem), 3).d.mem, b).0 == Some(x)
  {
    hide Translate; hide DecodeCpuData;
    var prog := Program(STORE_EXIT, t);
    var s0 := ResetState(f, mem);
    var d1 := LoadVec(Touch(s0.d, a, true), 1, a);
    assert d1.v == ZERO_V[1 := x] && d1.status == Running && d1.f == f;
    var d2 := StoreVec(Touch(d1, b, false), b, x);
    assert Step(prog, s0) == Arch(1, d1);
    assert Step(prog, Arch(1, d1)) == Arch(2, d2);
    UnrollSteps(prog, s0);
    assert Step(prog, Arch(2, d2)) == Arch(3, d2.(status := Exited));
  }

  lemma KeptMem(t: AguTable, f: FRegs, mem: Mem, a: u32, x: Vec4, b: u32, y: Vec4)
    requires Loadable(t, f, mem, a, x) && Translate(t, f[1].value) == Some(b) && a != b && ReadData(mem, b).0 == Some(y)
    ensures ReadData(Kept(Program(STORE_EXIT, t), At(t, f, mem, 4), []).mem, b).0 == Some(y)
    ensures Kept(Program(STORE_EXIT, t), At(t, f, mem, 4), []).v[1] == x
  {
    hide Translate; hide DecodeCpuData; hide EvalAGU;
    AtExits(t, f, mem, 4);
  }

  /** Load a vector, store it elsewhere, exit: the exit beats the memory block of the load, so the store,
      which waits in AGU for the loaded value, is dropped although it is older. Five ticks later the CPU
      has finished without it, and one of them has made the DRAM request of the load, which has retired
      long since. */
  lemma StoreIsLost(t: AguTable, f: FRegs, mem: Mem, a: u32, x: Vec4, b: u32, y: Vec4,
                    p0: Portal, p1: Portal, p2: Portal, p3: Portal, p4: Portal) returns (r: Trace)
    requires Loadable(t, f, mem, a, x) && Translate(t, f[1].value) == Some(b) && a != b
    requires ReadData(mem, b).0 == Some(y) && x != y
    ensures IsRun(r, Booted(Program(STORE_EXIT, t), f, mem))
    ensures var c3 := Tick(Tick(Tick(r.states[|r.evs|].cpu, p0).0, p1).0, p2).0;
            var (c4, p3') := Tick(c3, p3);
            var (c5, p4') := Tick(c4, p4);
            && c5.finished && ReadData(c5.core.mem, b).0 == Some(y) && c5.core.rf.v[1] == x
            && |NewReqs(p3, p3')| + |NewReqs(p4, p4')| == 1
    ensures var d := Steps(Program(STORE_EXIT, t), ResetState(f, mem), 3).d;
            d.status == Exited && ReadData(d.mem, b).0 == Some(x)
  {
    hide Inv; hide Abs; hide Tick; hide RunOne; hide EvalAGU; hide Translate; hide At; hide Prompt;
    hide KeptApart; hide NewReqs;
    hide Steps; hide Kept; hide ExitNow; hide EndOfEx; hide PendingAccesses; hide Occupied; hide ReadData; hide Smooth;
    var prog := Program(STORE_EXIT, t);
    BootedStands(prog, f, mem);
    StoreSteps(t, f, mem, a, x, b, y);
    r := StoreRun(t, f, mem, 4);
    forall i: nat | i < 4 ensures !ExitNow(r.states[i].cpu.core) {
      AtExits(t, f, mem, i);
    }
    AtExits(t, f, mem, 4);
    EndingRun(Booted(prog, f, mem), ResetState(f, mem), 2, r, 4);
    PromptAlways(Booted(prog, f, mem), r, 4);
    var s := r.states[4];
    TakenExitEnds(s.cpu, s.log, p0, p1, p2, p3, p4);
    KeptTrace(prog, At(t, f, mem, 4), s.log);
    KeptMem(t, f, mem, a, x, b, y);
  }

  lemma KeptTrace(prog: Program, c: Core, log: seq<Access>)
    ensures SameState(Kept(prog, c, log), Kept(prog, c, []))
  {
    hide DrainMem; hide DrainAgu; hide EvalAGU; hide DrainWb;
    assert SameState(AfterWb(c, log), AfterWb(c, [])) by { WbSame(c.memwb, Base(c, log), Base(c, [])); }
    MemSame(c.agumem, true, AfterWb(c, log), AfterWb(c, []));
    AguSame(prog.agu, c.exagu, AfterMem(c, true, log), AfterMem(c, true, []));
  }

  lemma WbSame(l: MemWb, a: Data, b: Data)
    requires SameState(a, b)
    ensures SameState(DrainWb(l, a), DrainWb(l, b))
  {
  }
}
