/** Operand forwarding is exact: each stage sees the operands the sequential machine would read. */
module CpuForwarding {
  import opened Words
  import opened FlatMemory
  import opened AguUnits
  import opened CpuTypes
  import opened Scoreboard
  import opened CpuStages
  import opened Isa
  import opened CpuDrain

  /** A vector load that has not produced its value yet. */
  predicate VecPending(c: Core, rs: Reg) {
    c.agumem.valid && c.agumem.dma == ReadVec(rs)
  }

  predicate PtrPending(c: Core, frs: Reg) {
    c.agumem.valid && c.agumem.dma == ReadPtr(frs)
  }

  predicate MemPending(c: Core) {
    c.agumem.valid && c.agumem.dma != DmaNop
  }

  predicate IsTest(l: IdEx) {
    l.valid && l.alu.Alu? && l.alu.kind == TEST
  }

  /** EX holds an exit test that is decided and taken: the tick in which the program ends. */
  predicate ExitNow(c: Core) {
    EvalEX(c).req.reason == ProgEnd
  }

  // ---- what draining a latch does to the register files ----

  /** A bubble drains to nothing, and only a running state drains to a running state. */
  lemma DrainMemStatus(l: AguMem, submitted: bool, d: Data)
    ensures !l.valid ==> DrainMem(l, submitted, d) == d
    ensures DrainMem(l, submitted, d).status == Running ==> d.status == Running
    ensures DrainMem(l, submitted, d).status == Exited ==> d.status == Exited
  {
  }

  lemma DrainAguStatus(t: AguTable, l: ExAgu, d: Data)
    ensures !l.valid ==> DrainAgu(t, l, d) == d
    ensures DrainAgu(t, l, d).status == Running ==> d.status == Running
    ensures DrainAgu(t, l, d).status == Exited ==> d.status == Exited
  {
  }

  /** What is left of an exit test behind EX changes nothing. */
  lemma TestLeavesNothing(t: AguTable, submitted: bool, d: Data)
    ensures DrainAgu(t, ExAgu(true, None, AguNop, DmaNop, WbNop), d) == d
    ensures DrainMem(AguMem(true, None, None, None, DmaNop, WbNop), submitted, d) == d
  {
  }

  lemma DrainMemRegs(l: AguMem, submitted: bool, d: Data, r: Reg)
    requires AguMemOk(l) && DrainMem(l, submitted, d).status == Running
    ensures d.status == Running
    ensures !(l.valid && l.wb == WbVec(r)) ==> DrainMem(l, submitted, d).v[r] == d.v[r]
    ensures !(l.valid && l.wb == WbPtr(r)) ==> DrainMem(l, submitted, d).f[r] == d.f[r]
    ensures l.valid && l.dma == DmaNop && l.wb == WbVec(r) && r != 0 ==>
              DrainMem(l, submitted, d).v[r] == l.arith.value
    ensures l.valid && l.dma == DmaNop && l.wb == WbPtr(r) ==> DrainMem(l, submitted, d).f[r] == l.ptr
  {
    hide ReadData; hide ReadFptr; hide WriteData; hide WriteFptr;
  }

  lemma DrainAguRegs(t: AguTable, l: ExAgu, d: Data, r: Reg)
    requires ExAguOk(l) && DrainAgu(t, l, d).status == Running
    ensures d.status == Running
    ensures !(l.valid && l.wb == WbVec(r)) ==> DrainAgu(t, l, d).v[r] == d.v[r]
    ensures !(l.valid && l.wb == WbPtr(r)) ==> DrainAgu(t, l, d).f[r] == d.f[r]
    ensures l.valid && l.dma == DmaNop && l.wb == WbVec(r) && r != 0 ==>
              DrainAgu(t, l, d).v[r] == l.arith.value
  {
    hide ReadData; hide ReadFptr; hide WriteData; hide WriteFptr; hide PtrArith; hide Translate;
  }

  lemma DrainMemRegsOk(l: AguMem, submitted: bool, d: Data)
    requires RegsOk(d.v, d.f) && DrainMem(l, submitted, d).status == Running
    ensures RegsOk(DrainMem(l, submitted, d).v, DrainMem(l, submitted, d).f)
  {
    hide ReadData; hide ReadFptr; hide WriteData; hide WriteFptr;
  }

  lemma DrainAguRegsOk(t: AguTable, l: ExAgu, d: Data)
    requires RegsOk(d.v, d.f) && DrainAgu(t, l, d).status == Running
    ensures RegsOk(DrainAgu(t, l, d).v, DrainAgu(t, l, d).f)
  {
    hide PtrArith; hide Translate; hide DrainMem;
    if l.valid && StoreOperand(d, l.dma).Some? {
      var dma := StoreOperand(d, l.dma).value;
      match l.agu
      case AguNop => DrainMemRegsOk(AguMem(true, None, l.arith, None, dma, l.wb), false, d);
      case Chk(frs, _) =>
        DrainMemRegsOk(AguMem(true, AddrOf(t, d, frs), l.arith, None, dma, l.wb), false, d);
      case Offset(pop, frs, rs1, _, lit, idx) =>
        if d.f[frs].Some? {
          var q := PtrArith(t, pop, d.f[frs].value, Operand(d, rs1, lit), idx);
          DrainMemRegsOk(AguMem(true, None, l.arith, q, dma, l.wb), false, d);
        }
    }
  }

  lemma DrainKeepsRegsOk(t: AguTable, c: Core, submitted: bool, log: seq<Access>)
    requires CoreOk(c) && AfterAgu(t, c, submitted, log).status == Running
    ensures AfterWb(c, log).status == Running && AfterMem(c, submitted, log).status == Running
    ensures RegsOk(AfterMem(c, submitted, log).v, AfterMem(c, submitted, log).f)
    ensures RegsOk(AfterAgu(t, c, submitted, log).v, AfterAgu(t, c, submitted, log).f)
  {
    DrainAguStatus(t, c.exagu, AfterMem(c, submitted, log));
    DrainMemStatus(c.agumem, submitted, AfterWb(c, log));
    assert RegsOk(AfterWb(c, log).v, AfterWb(c, log).f);
    hide DrainAgu; hide DrainMem; hide DrainWb;
    DrainMemRegsOk(c.agumem, submitted, AfterWb(c, log));
    DrainAguRegsOk(t, c.exagu, AfterMem(c, submitted, log));
  }

  // ---- forwarding ----

  lemma LateVRegExact(c: Core, log: seq<Access>, rs: Reg)
    requires CoreOk(c) && AfterWb(c, log).status == Running && rs != 0
    ensures LateVReg(c, rs) == Some(AfterWb(c, log).v[rs])
  {
  }

  lemma AguVRegExact(c: Core, submitted: bool, log: seq<Access>, rs: Reg, lit: Vec4)
    requires CoreOk(c) && AfterMem(c, submitted, log).status == Running
    ensures AguVReg(c, rs, lit) ==
            if VecPending(c, rs) && rs != 0 then None
            else Some(Operand(AfterMem(c, submitted, log), rs, lit))
  {
    DrainMemRegs(c.agumem, submitted, AfterWb(c, log), rs);
    if rs != 0 {
      LateVRegExact(c, log, rs);
    }
  }

  lemma AguFRegExact(c: Core, submitted: bool, log: seq<Access>, frs: Reg)
    requires CoreOk(c) && AfterMem(c, submitted, log).status == Running
    ensures AguFReg(c, frs) ==
            if PtrPending(c, frs) then None else AfterMem(c, submitted, log).f[frs]
  {
    DrainMemRegs(c.agumem, submitted, AfterWb(c, log), frs);
  }

  lemma ExVRegExact(t: AguTable, c: Core, submitted: bool, log: seq<Access>, rs: Reg, lit: Vec4)
    requires CoreOk(c) && AfterAgu(t, c, submitted, log).status == Running
    ensures ExVReg(c, rs, lit) == None ==>
              (c.exagu.valid && c.exagu.dma == ReadVec(rs)) || VecPending(c, rs)
    ensures ExVReg(c, rs, lit).Some? ==>
              ExVReg(c, rs, lit).value == Operand(AfterAgu(t, c, submitted, log), rs, lit)
  {
    hide DrainAgu; hide DrainMem;
    DrainAguRegs(t, c.exagu, AfterMem(c, submitted, log), rs);
    AguVRegExact(c, submitted, log, rs, lit);
  }

  // ---- stage by stage ----

  lemma AguDmaExact(c: Core, submitted: bool, log: seq<Access>, dma: DmaOp)
    requires CoreOk(c) && AfterMem(c, submitted, log).status == Running
    requires RegsOk(AfterMem(c, submitted, log).v, AfterMem(c, submitted, log).f)
    ensures AguDma(c, dma) == None ==> MemPending(c)
    ensures AguDma(c, dma).Some? ==> AguDma(c, dma) == StoreOperand(AfterMem(c, submitted, log), dma)
  {
    match dma
    case WriteVec(rs, lit) => AguVRegExact(c, submitted, log, rs, lit);
    case WritePtr(frs, _) => AguFRegExact(c, submitted, log, frs);
    case _ =>
  }

  /** AGU either waits for a load in MEM or hands MEM exactly what finishes its instruction. */
  lemma AguExact(prog: Program, c: Core, submitted: bool, log: seq<Access>)
    requires CoreOk(c) && AfterAgu(prog.agu, c, submitted, log).status == Running
    ensures EvalAGU(prog, c) == AGU_RAW ==> MemPending(c)
    ensures EvalAGU(prog, c) != AGU_RAW ==>
              var e := EvalAGU(prog, c);
              && e.req == Quiet(AGU) && e.act == DoNothing
              && AguMemOk(e.next) && e.next.valid == c.exagu.valid
              && (c.exagu.valid ==> (e.next.dma == DmaNop) == (c.exagu.dma == DmaNop))
              && DrainMem(e.next, false, AfterMem(c, submitted, log))
                 == AfterAgu(prog.agu, c, submitted, log)
  {
    hide DrainMem; hide PtrArith; hide Accept;
    DrainKeepsRegsOk(prog.agu, c, submitted, log);
    DrainMemStatus(EvalAGU(prog, c).next, false, AfterMem(c, submitted, log));
    if c.exagu.valid {
      AguDmaExact(c, submitted, log, c.exagu.dma);
      match c.exagu.agu
      case AguNop =>
      case Chk(frs, _) => AguFRegExact(c, submitted, log, frs);
      case Offset(_, frs, rs1, _, lit, _) =>
        AguFRegExact(c, submitted, log, frs);
        AguVRegExact(c, submitted, log, rs1, lit);
    }
  }

  /** EX decides an exit test as the sequential machine does. */
  lemma TestExact(prog: Program, c: Core, submitted: bool, log: seq<Access>)
    requires CoreOk(c) && AfterAgu(prog.agu, c, submitted, log).status == Running
    requires IsTest(c.idex) && EvalEX(c) != EX_RAW
    ensures var d := AfterAgu(prog.agu, c, submitted, log);
            ExitNow(c) <==> Operand(d, c.idex.alu.rs1, c.idex.alu.lit1) == Operand(d, c.idex.alu.rs2, c.idex.alu.lit2)
  {
    hide DrainAgu; hide DrainMem;
    ExVRegExact(prog.agu, c, submitted, log, c.idex.alu.rs1, c.idex.alu.lit1);
    ExVRegExact(prog.agu, c, submitted, log, c.idex.alu.rs2, c.idex.alu.lit2);
  }

  /** EX either waits for a load in AGU or MEM or hands AGU exactly what finishes its instruction. An
      exit test that is not taken asks IF to keep the program counter. */
  lemma ExExact(prog: Program, c: Core, submitted: bool, log: seq<Access>)
    requires CoreOk(c) && AfterAgu(prog.agu, c, submitted, log).status == Running
    requires AfterEx(prog.agu, c, submitted, log).status != Faulted && !ExitNow(c)
    ensures EvalEX(c) == EX_RAW ==> MemPending(c) || (c.exagu.valid && c.exagu.dma != DmaNop)
    ensures EvalEX(c) != EX_RAW ==>
              var e := EvalEX(c);
              && e.req.reason == NoReason && e.act == (if IsTest(c.idex) then HoldPC else DoNothing)
              && ExAguOk(e.next) && e.next.valid == c.idex.valid
              && (c.idex.valid ==> e.next.dma == c.idex.dma)
              && AfterEx(prog.agu, c, submitted, log).status == Running
              && DrainAgu(prog.agu, e.next, AfterAgu(prog.agu, c, submitted, log))
                 == AfterEx(prog.agu, c, submitted, log)
  {
    hide DrainAgu; hide DrainMem; hide Lanes4;
    DrainAguStatus(prog.agu, EvalEX(c).next, AfterAgu(prog.agu, c, submitted, log));
    TestLeavesNothing(prog.agu, submitted, AfterAgu(prog.agu, c, submitted, log));
    if c.idex.valid && c.idex.alu.Alu? {
      ExVRegExact(prog.agu, c, submitted, log, c.idex.alu.rs1, c.idex.alu.lit1);
      ExVRegExact(prog.agu, c, submitted, log, c.idex.alu.rs2, c.idex.alu.lit2);
    }
  }

  /** Decoding loses nothing: the micro-operations drain to the instruction's own effect. */
  lemma DecodeExact(t: AguTable, i: Inst, rf: Rf, d: Data)
    requires RegsOk(rf.v, rf.f) && RegsOk(d.v, d.f)
    requires !i.JUMP?
    ensures d.status == Running ==> DrainEx(t, Decode(i, rf), d) == Exec(t, i, d)
    ensures IdExOk(Decode(i, rf))
  {
    hide ReadData; hide ReadFptr; hide WriteData; hide WriteFptr; hide PtrArith; hide Lanes4; hide Translate;
  }
}
