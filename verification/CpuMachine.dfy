/** The CPU as an object: registers, latches and signals updated in place, one tick at a time. */
module CpuMachine {
  import opened Words
  import opened DramPortals
  import opened FlatMemory
  import opened AguUnits
  import opened CpuTypes
  import opened Scoreboard
  import opened SigResolvers
  import opened CpuStages
  import opened CpuPipeline
  import opened Filters

  class RegisterFile {
    var pc: u16
    const vregs: array<Vec4>
    const fregs: array<Option<FatPtr>>

    ghost predicate Valid()
      reads this
    {
      vregs.Length == 8 && fregs.Length == 8
    }

    function Value(): Rf
      requires Valid()
      reads this, vregs, fregs
    {
      Rf(pc, vregs[..], fregs[..])
    }

    constructor ()
      ensures Valid() && fresh(vregs) && fresh(fregs)
      ensures pc == 0 && (forall r: Reg :: vregs[r] == ZERO4 && fregs[r] == None)
    {
      pc := 0;
      vregs := new Vec4[8](_ => ZERO4);
      fregs := new Option<FatPtr>[8](_ => None);
    }

    method WriteVregs(r: Reg, x: Vec4)
      requires Valid()
      modifies vregs
      ensures Value() == old(Value()).(v := WriteVReg(old(Value()).v, r, x))
    {
      if r != 0 {
        vregs[r] := x;
      }
    }

    method WriteFregs(r: Reg, p: FatPtr)
      requires Valid()
      modifies fregs
      ensures Value() == old(Value()).(f := WriteFReg(old(Value()).f, r, p))
    {
      fregs[r] := Some(p);
    }
  }

  // ---- committing a list of actions is committing them one after the other ----

  predicate Real(a: ArchAction) {
    Dest(a) != None
  }

  lemma FilteredApply(s: Commit, acts: seq<ArchAction>)
    ensures ApplyAll(s, Kept(Real, acts)) == ApplyAll(s, acts)
  {
    KeptApply(Apply, ApplyAll, Real, s, acts);
  }

  lemma ApplyOne(s: Commit, acts: seq<ArchAction>, a: ArchAction)
    ensures ApplyAll(s, acts + [a]) == Apply(ApplyAll(s, acts), a)
  {
    assert (acts + [a])[..|acts + [a]| - 1] == acts;
  }

  /** Committing the collected actions in order is the commit of the specification. */
  lemma CollectedCommit(c: Core, e: Evals, ops: Ops)
    ensures ApplyAll(Commit(c.rf, e.claimed, IncPc(c.rf.pc)), Collected(e, ops)) == CommitAll(c, e, ops)
  {
    hide Apply; hide Taken; hide HoldIfIdle; hide ApplyAll;
    var s := Commit(c.rf, e.claimed, IncPc(c.rf.pc));
    var l := Collected(e, ops);
    var l0: seq<ArchAction> := [];
    NothingApplied(s);
    ApplyOne(s, l0, l[0]);
    ApplyOne(s, l[..1], l[1]);
    ApplyOne(s, l[..2], l[2]);
    ApplyOne(s, l[..3], l[3]);
    ApplyOne(s, l[..4], l[4]);
    ApplyOne(s, l[..5], l[5]);
    ApplyOne(s, l[..6], l[6]);
    assert l0 + [l[0]] == l[..1] && l[..1] + [l[1]] == l[..2] && l[..2] + [l[2]] == l[..3];
    assert l[..3] + [l[3]] == l[..4] && l[..4] + [l[4]] == l[..5] && l[..5] + [l[5]] == l[..6];
    assert l[..6] + [l[6]] == l;
  }

  lemma NothingApplied(s: Commit)
    ensures ApplyAll(s, []) == s
  {
  }

  // ---- the lanes of the execute stage ----

  method ComputeLanes(op: VecOp, a: Vec4, b: Vec4) returns (r: Vec4)
    ensures r == Lanes4(op, a, b)
  {
    var tmp := new u32[4](_ => 0);
    for i := 0 to 4
      invariant forall k :: 0 <= k < i ==> tmp[k] == LaneOp(op, a.Lane(k), b.Lane(k))
    {
      tmp[i] := LaneOp(op, a.Lane(i), b.Lane(i));
    }
    r := Vec4(tmp[0], tmp[1], tmp[2], tmp[3]);
  }

  /** The comparison of the exit test visits the lanes one by one. */
  method LanesEqual(a: Vec4, b: Vec4) returns (equal: bool)
    ensures equal == (a == b)
  {
    equal := true;
    for i := 0 to 4
      invariant equal == (forall k :: 0 <= k < i ==> a.Lane(k) == b.Lane(k))
    {
      equal := equal && a.Lane(i) == b.Lane(i);
    }
    assert a.Lane(0) == a.x0 && a.Lane(1) == a.x1 && a.Lane(2) == a.x2 && a.Lane(3) == a.x3;
  }

  class CpuUnit {
    var imem: seq<Inst>
    const rf: RegisterFile
    var ifid: IfId
    var idex: IdEx
    var exagu: ExAgu
    var agumem: AguMem
    var memwb: MemWb
    var wbForward: MemWb
    const ctrl: SigResolver
    const agu: AguUnit
    const fmem: FlatMem
    var pause: PauseCtl
    var started: bool
    var progEndSeen: bool
    var finished: bool

    ghost predicate Valid()
      reads this, rf, ctrl
    {
      rf.Valid() && Keyed(ctrl.active)
    }

    function CoreValue(): Core
      requires rf.Valid()
      reads this`ifid, this`idex, this`exagu, this`agumem, this`memwb, this`wbForward
      reads rf, rf.vregs, rf.fregs, fmem
    {
      Core(rf.Value(), fmem.mem, ifid, idex, exagu, agumem, memwb, wbForward)
    }

    function Running(): Program
      reads this`imem, agu
    {
      Program(imem, agu.table)
    }

    ghost function Value(): Cpu
      requires rf.Valid()
      reads this, rf, rf.vregs, rf.fregs, fmem, agu, ctrl
    {
      Cpu(Running(), CoreValue(), ctrl.active, ctrl.lastWinner, pause, started, progEndSeen, finished)
    }

    constructor ()
      ensures Valid() && fresh(rf) && fresh(rf.vregs) && fresh(rf.fregs) && fresh(ctrl) && fresh(agu) && fresh(fmem)
      ensures Value().prog == Program([], map[]) && Value().active == map[] && Value().pause == NO_PAUSE
      ensures !started && !progEndSeen && !finished
    {
      imem, ifid, idex, exagu, agumem := [], BUBBLE_IFID, BUBBLE_IDEX, BUBBLE_EXAGU, BUBBLE_AGUMEM;
      memwb, wbForward := BUBBLE_MEMWB, BUBBLE_MEMWB;
      rf := new RegisterFile();
      ctrl := new SigResolver();
      agu := new AguUnit();
      fmem := new FlatMem();
      pause := NO_PAUSE;
      started, progEndSeen, finished := false, false, false;
    }

    // ---- the handshake ----

    method SignalPause()
      requires Valid()
      modifies this`pause
      ensures Valid() && Value() == CpuPipeline.SignalPause(old(Value()))
    {
      pause := pause.(requested := true, ready := false);
      pause := pause.(delayStarted := false, remaining := 0, resumePending := false);
    }

    method SignalResume()
      requires Valid()
      modifies this`pause, ctrl
      ensures Valid() && Value() == CpuPipeline.SignalResume(old(Value()))
    {
      hide Keyed; hide ClearActive;
      ClearKeyed(ctrl.active, ExternalPause);
      pause := pause.(delayStarted := false, remaining := pause.resumeDelay, resumePending := pause.resumeDelay != 0);
      pause := pause.(ready := !pause.resumePending);
      if pause.resumePending {
        pause := pause.(requested := true);
      } else {
        pause := pause.(requested := false);
        ctrl.ClearActiveSignal(ExternalPause);
      }
    }

    method PrepareResumeTick()
      requires Valid()
      modifies this`pause, ctrl
      ensures Valid() && Value() == PrepareResume(old(Value()))
    {
      hide Keyed; hide ClearActive;
      ClearKeyed(ctrl.active, ExternalPause);
      if pause.resumePending && pause.remaining == 0 {
        pause := pause.(resumePending := false, requested := false, ready := true);
        ctrl.ClearActiveSignal(ExternalPause);
      }
    }

    method UpdateExtsigReady(winner: Option<Reason>)
      modifies this`pause
      ensures pause == UpdateReady(old(pause), winner)
    {
      if pause.resumePending {
        if pause.remaining > 0 {
          pause := pause.(remaining := pause.remaining - 1);
        }
        pause := pause.(ready := false);
        return;
      }
      if pause.remaining > 0 {
        pause := pause.(remaining := pause.remaining - 1, ready := false);
        return;
      }
      if pause.requested {
        if !pause.delayStarted {
          if winner == Some(ExternalPause) {
            pause := pause.(delayStarted := true, remaining := pause.pauseDelay);
          } else {
            pause := pause.(ready := false);
            return;
          }
        }
        if pause.remaining > 0 {
          pause := pause.(remaining := pause.remaining - 1, ready := false);
        } else {
          pause := pause.(ready := true);
        }
      } else {
        pause := pause.(ready := true);
      }
    }

    // ---- the stages that loop or touch memory ----

    method EvalMem() returns (e: Eval<MemWb>)
      modifies fmem
      ensures (e, fmem.mem) == EvalMEM(agumem, old(fmem.mem))
    {
      var l := agumem;
      if !l.valid {
        return Eval(BUBBLE_MEMWB, Quiet(MEM), DoNothing);
      }
      if l.dma == DmaNop {
        return Eval(MemWb(true, l.arith, l.ptr, l.wb), Quiet(MEM), DoNothing);
      }
      if l.phys == None {
        return Eval(MemWb(true, None, None, WbNop), Quiet(MEM), DoNothing);
      }
      var a := l.phys.value;
      match l.dma {
        case ReadVec(_) =>
          var d := fmem.MemReadData(a);
          e := Eval(MemWb(true, d, None, l.wb), BlockReq(a, true), DoNothing);
        case ReadPtr(_) =>
          var p := fmem.MemReadFptr(a);
          e := Eval(MemWb(true, None, p, l.wb), BlockReq(a, true), DoNothing);
        case WriteVec(_, d) =>
          e := Eval(MemWb(true, None, None, WbNop), BlockReq(a, false), WriteMemData(a, d));
        case WritePtr(_, p) =>
          e := Eval(MemWb(true, None, None, WbNop), BlockReq(a, false), WriteMemPtr(a, p));
      }
    }

    method EvalEx() returns (e: Eval<ExAgu>)
      requires rf.Valid()
      ensures e == EvalEX(CoreValue())
    {
      hide ExVReg; hide Lanes4;
      var l := idex;
      if !l.valid {
        return Eval(BUBBLE_EXAGU, Quiet(EX), DoNothing);
      }
      if l.alu.AluNop? {
        return Eval(ExAgu(true, None, l.agu, l.dma, l.wb), Quiet(EX), DoNothing);
      }
      var a := ExVReg(CoreValue(), l.alu.rs1, l.alu.lit1);
      var b := ExVReg(CoreValue(), l.alu.rs2, l.alu.lit2);
      if a == None || b == None {
        return EX_RAW;
      }
      match l.alu.kind {
        case Lanes(op) =>
          var tmp := ComputeLanes(op, a.value, b.value);
          e := Eval(ExAgu(true, Some(tmp), l.agu, l.dma, l.wb), Quiet(EX), DoNothing);
        case TEST =>
          var equal := LanesEqual(a.value, b.value);
          var out := ExAgu(true, None, AguNop, DmaNop, WbNop);
          if equal {
            e := Eval(out, SignalReq(ProgEnd, EX, Some({IF, ID})), DoNothing);
          } else {
            e := Eval(out, SignalReq(NoReason, EX, Some({IF, ID})), HoldPC);
          }
      }
    }

    // ---- commit ----

    /** Commits the actions of a tick. A destination named twice would be a panic; the caller has to
        rule it out. */
    method ArchUpdate(acts: seq<ArchAction>)
      requires rf.Valid() && !Duplicated(acts)
      modifies rf, rf.vregs, rf.fregs, fmem
      ensures rf.Valid()
      ensures var s := ApplyAll(Commit(old(rf.Value()), old(fmem.mem), IncPc(old(rf.pc))), acts);
              rf.Value() == s.rf.(pc := s.pcNext) && fmem.mem == s.mem
    {
      var seen: set<ArchDest> := {};
      var ops: seq<ArchAction> := [];
      for i := 0 to |acts|
        invariant forall d :: d in seen ==> exists k :: 0 <= k < i && Dest(acts[k]) == Some(d)
        invariant ops == Kept(Real, acts[..i])
      {
        assert acts[..i + 1][..i] == acts[..i];
        var dest := Dest(acts[i]);
        if dest != None {
          assert dest.value !in seen;
          seen := seen + {dest.value};
          ops := ops + [acts[i]];
        }
      }
      assert acts[..|acts|] == acts;
      FilteredApply(Commit(rf.Value(), fmem.mem, IncPc(rf.pc)), acts);
      CommitReal(ops);
    }

    method CommitReal(ops: seq<ArchAction>)
      requires rf.Valid()
      modifies rf, rf.vregs, rf.fregs, fmem
      ensures rf.Valid()
      ensures var s := ApplyAll(Commit(old(rf.Value()), old(fmem.mem), IncPc(old(rf.pc))), ops);
              rf.Value() == s.rf.(pc := s.pcNext) && fmem.mem == s.mem
    {
      var pcNext := IncPc(rf.pc);
      ghost var s0 := Commit(rf.Value(), fmem.mem, IncPc(rf.pc));
      var currentPc := rf.pc;
      for i := 0 to |ops|
        invariant rf.Valid() && rf.pc == currentPc
        invariant Commit(rf.Value(), fmem.mem, pcNext) == ApplyAll(s0, ops[..i])
      {
        ApplyOne(s0, ops[..i], ops[i]);
        assert ops[..i + 1] == ops[..i] + [ops[i]];
        match ops[i] {
          case DoNothing =>
          case WritePC(p) => pcNext := p;
          case HoldPC => pcNext := currentPc;
          case WriteVRF(rd, x) => rf.WriteVregs(rd, x);
          case WriteFPTR(frd, p) => rf.WriteFregs(frd, p);
          case WriteMemData(addr, x) => var _ := fmem.MemWriteData(addr, x);
          case WriteMemPtr(addr, p) => var _ := fmem.MemWriteFptr(addr, p);
        }
      }
      assert ops[..|ops|] == ops;
      rf.pc := pcNext;
    }

    /** Every stage computes from the latches of the last tick and raises its signal. */
    method Evaluate() returns (e: Evals)
      requires Valid()
      modifies fmem, ctrl`active
      ensures Valid()
      ensures e == EvalAll(Running(), old(CoreValue()), pause.requested)
      ensures CoreValue() == old(CoreValue()).(mem := e.claimed) && fmem.mem == e.claimed
      ensures ctrl.active == SubmitAll(old(ctrl.active), e)
    {
      hide EvalWB; hide EvalMEM; hide EvalAGU; hide EvalEX; hide EvalID; hide EvalIF;
      hide Scoreboard.SubmitSignal; hide MaskReq; hide MaskAct; hide Keyed;
      ghost var c := CoreValue();
      var (wbReq, wbAct) := EvalWB(memwb);
      var mem := EvalMem();
      var claimed := fmem.mem;
      MemoryIgnored(Running(), c, claimed);
      assert CoreValue() == c.(mem := claimed);
      var agu := Masked(pause.requested, EvalAGU(Running(), CoreValue()));
      var ex0 := EvalEx();
      var ex := Masked(pause.requested, ex0);
      var id := Masked(pause.requested, EvalID(ifid, rf.Value()));
      var iF := Masked(pause.requested, EvalIF(Running(), rf.Value()));
      e := Evals(wbReq, wbAct, mem, claimed, agu, ex, id, iF);
      Raise(e);
    }

    method Raise(e: Evals)
      requires Keyed(ctrl.active)
      modifies ctrl`active
      ensures Keyed(ctrl.active) && ctrl.active == SubmitAll(old(ctrl.active), e)
    {
      hide Scoreboard.SubmitSignal; hide Keyed;
      SubmitAllKeyed(ctrl.active, e);
      ctrl.SubmitSignal(e.wbReq);
      ctrl.SubmitSignal(e.mem.req);
      ctrl.SubmitSignal(e.agu.req);
      ctrl.SubmitSignal(e.ex.req);
      ctrl.SubmitSignal(e.id.req);
      ctrl.SubmitSignal(e.iF.req);
    }

    /** Moves the latches behind EX: a stage's result is taken over, held back or dropped. */
    method UpdateBack(e: Evals, ops: Ops)
      requires rf.Valid()
      modifies this`exagu, this`agumem, this`memwb, this`wbForward
      ensures var c := old(CoreValue());
              CoreValue() == c.(exagu := NextExAgu(c, e, ops), agumem := NextAguMem(c, e, ops),
                                memwb := NextMemWb(c, e, ops), fwd := NextFwd(c, e, ops))
    {
      var memOp, aguOp, exOp := StageOp(ops.mem, ops.wb), StageOp(ops.agu, ops.mem), StageOp(ops.ex, ops.agu);
      if memOp == Normal {
        memwb := e.mem.next;
        if memwb.valid {
          wbForward := memwb;
        }
      } else if memOp != Stall {
        memwb := memwb.(valid := false);
      }
      if aguOp == Normal {
        agumem := e.agu.next;
      } else if aguOp != Stall {
        agumem := agumem.(valid := false);
      }
      if exOp == Normal {
        exagu := e.ex.next;
      } else if exOp != Stall {
        exagu := exagu.(valid := false);
      }
    }

    /** The same for the latches before EX. */
    method UpdateFront(e: Evals, ops: Ops)
      requires rf.Valid()
      modifies this`ifid, this`idex
      ensures var c := old(CoreValue());
              CoreValue() == c.(ifid := NextIfId(c, e, ops), idex := NextIdEx(c, e, ops))
    {
      var idOp, ifOp := StageOp(ops.id, ops.ex), StageOp(ops.iF, ops.id);
      if idOp == Normal {
        idex := e.id.next;
      } else if idOp != Stall {
        idex := idex.(valid := false);
      }
      if ifOp == Normal {
        ifid := e.iF.next;
      } else if ifOp != Stall {
        ifid := ifid.(valid := false);
      }
    }

    /** The CPU is finished once the exit was seen and nothing behind EX is left. */
    method CheckFinished()
      requires rf.Valid() && !finished
      modifies this`finished
      ensures CoreValue() == old(CoreValue())
      ensures var c := CoreValue();
              finished == (progEndSeen && !c.exagu.valid && !c.agumem.valid && !c.memwb.valid)
    {
      if progEndSeen && !exagu.valid && !agumem.valid && !memwb.valid {
        finished := true;
      }
    }

    /** Commits what the decision lets through and moves the latches. */
    method Retire(ghost c: Core, e: Evals, ops: Ops)
      requires rf.Valid() && !Duplicated(Collected(e, ops))
      requires c == CoreValue().(mem := c.mem) && fmem.mem == e.claimed
      modifies rf, rf.vregs, rf.fregs, fmem
      modifies this`ifid, this`idex, this`exagu, this`agumem, this`memwb, this`wbForward
      ensures rf.Valid() && CoreValue() == NextCore(c, e, ops)
    {
      hide Collected; hide CommitAll; hide ApplyAll; hide Duplicated; hide RegisterFile.Valid;
      hide NextIfId; hide NextIdEx; hide NextExAgu; hide NextAguMem; hide NextMemWb; hide NextFwd;
      CollectedCommit(c, e, ops);
      ArchUpdate(Collected(e, ops));
      ghost var c1 := CoreValue();
      SameNext(c, c1, e, ops);
      UpdateBack(e, ops);
      SameNext(c1, CoreValue(), e, ops);
      UpdateFront(e, ops);
    }

    /** All stages raise their signals, and one of these wins. */
    method Arbitrate(port: DramPortal) returns (e: Evals, ops: Ops)
      requires Valid()
      modifies fmem, ctrl, port
      ensures Valid() && e == EvalAll(Running(), old(CoreValue()), pause.requested)
      ensures CoreValue() == old(CoreValue()).(mem := e.claimed) && fmem.mem == e.claimed
      ensures Decision(ops, ctrl.active, ctrl.lastWinner, port.Value()) == Decided(old(Value()), old(port.Value()))
    {
      hide CoreValue; hide Running; hide RegisterFile.Valid;
      hide EvalAll; hide SubmitAll; hide Keyed; hide Decided; hide Decide;
      ghost var was, wasPort := Value(), port.Value();
      e := Evaluate();
      ops := ctrl.GetDecision(port);
      DecidedIs(was, wasPort, e);
    }

    /** A tick of an unfinished CPU. */
    method RunTick(port: DramPortal)
      requires Valid() && !finished
      requires !Duplicated(Collected(EvalAll(Running(), CoreValue(), pause.requested),
            Decided(Value(), port.Value()).ops))
      modifies this, rf, rf.vregs, rf.fregs, ctrl, fmem, port
      ensures Valid() && (Value(), port.Value()) == Run(old(Value()), old(port.Value()))
    {
      hide CoreValue; hide Running; hide RegisterFile.Valid;
      hide EvalAll; hide Collected; hide NextCore; hide Duplicated; hide UpdateReady; hide Keyed; hide Run;
      hide Decided;
      ghost var was, wasPort, c := Value(), port.Value(), CoreValue();
      var e, ops := Arbitrate(port);
      var winner := ctrl.lastWinner;
      if winner == Some(ProgEnd) {
        progEndSeen := true;
      }
      UpdateExtsigReady(winner);
      Retire(c, e, ops);
      CheckFinished();
      RunIs(was, wasPort, Value());
    }

    /** One clock tick. What it does is the function of the old state that the refinement theorems are
        about; the ticks that would panic are excluded. */
    method Tick(port: DramPortal)
      requires Valid() && !Panics(Value(), port.Value())
      modifies this, rf, rf.vregs, rf.fregs, ctrl, fmem, port
      ensures Valid()
      ensures (Value(), port.Value()) == CpuPipeline.Tick(old(Value()), old(port.Value()))
    {
      hide Run; hide Collected; hide Duplicated; hide EvalAll; hide Decided; hide IdPanics; hide AguPanics;
      PrepareResumeTick();
      if finished {
        return;
      }
      RunTick(port);
    }
  }

  lemma ClearKeyed(m: ActiveMap, r: Reason)
    requires Keyed(m)
    ensures Keyed(ClearActive(m, r))
  {
  }

  lemma DecidedIs(c: Cpu, port: Portal, e: Evals)
    requires e == EvalAll(c.prog, c.core, c.pause.requested)
    ensures Decided(c, port) == Decide(SubmitAll(c.active, e), port)
  {
    hide EvalAll; hide SubmitAll; hide Decide;
  }

  lemma RunIs(c: Cpu, port: Portal, c': Cpu)
    requires !c.finished
    requires var d := Decided(c, port);
             var seen := c.progEndSeen || d.winner == Some(ProgEnd);
             && c'.prog == c.prog && c'.started == c.started && c'.active == d.active && c'.lastWinner == d.winner
             && c'.core == NextCore(c.core, EvalAll(c.prog, c.core, c.pause.requested), d.ops)
             && c'.pause == UpdateReady(c.pause, d.winner) && c'.progEndSeen == seen
             && c'.finished == (seen && !c'.core.exagu.valid && !c'.core.agumem.valid && !c'.core.memwb.valid)
    ensures Run(c, port) == (c', Decided(c, port).port)
  {
    hide EvalAll; hide NextCore; hide Decided; hide UpdateReady;
  }

  /** Only MEM looks at the memory. */
  lemma MemoryIgnored(prog: Program, c: Core, m: Mem)
    ensures EvalAGU(prog, c.(mem := m)) == EvalAGU(prog, c) && EvalEX(c.(mem := m)) == EvalEX(c)
  {
    hide Accept; hide Translate; hide PtrArith; hide Lanes4;
    assert forall rs, lit :: ExVReg(c.(mem := m), rs, lit) == ExVReg(c, rs, lit);
  }

  lemma SubmitKeyed(m: ActiveMap, q: SignalReq)
    requires Keyed(m)
    ensures Keyed(Scoreboard.SubmitSignal(m, q))
  {
  }

  lemma SubmitAllKeyed(m: ActiveMap, e: Evals)
    requires Keyed(m)
    ensures Keyed(SubmitAll(m, e))
  {
    hide Scoreboard.SubmitSignal; hide Keyed;
    var m1 := Scoreboard.SubmitSignal(m, e.wbReq);
    SubmitKeyed(m, e.wbReq);
    var m2 := Scoreboard.SubmitSignal(m1, e.mem.req);
    SubmitKeyed(m1, e.mem.req);
    var m3 := Scoreboard.SubmitSignal(m2, e.agu.req);
    SubmitKeyed(m2, e.agu.req);
    var m4 := Scoreboard.SubmitSignal(m3, e.ex.req);
    SubmitKeyed(m3, e.ex.req);
    var m5 := Scoreboard.SubmitSignal(m4, e.id.req);
    SubmitKeyed(m4, e.id.req);
    SubmitKeyed(m5, e.iF.req);
  }

  /** A latch's next value depends on that latch only. */
  lemma SameNext(c: Core, c1: Core, e: Evals, ops: Ops)
    ensures c1.ifid == c.ifid ==> NextIfId(c1, e, ops) == NextIfId(c, e, ops)
    ensures c1.idex == c.idex ==> NextIdEx(c1, e, ops) == NextIdEx(c, e, ops)
    ensures c1.exagu == c.exagu ==> NextExAgu(c1, e, ops) == NextExAgu(c, e, ops)
    ensures c1.agumem == c.agumem ==> NextAguMem(c1, e, ops) == NextAguMem(c, e, ops)
    ensures c1.memwb == c.memwb ==> NextMemWb(c1, e, ops) == NextMemWb(c, e, ops)
    ensures c1.fwd == c.fwd ==> NextFwd(c1, e, ops) == NextFwd(c, e, ops)
  {
  }
}
