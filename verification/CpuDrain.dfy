/** Draining the pipeline: the architectural state once every instruction in flight has finished. */
module CpuDrain {
  import opened Words
  import opened AguUnits
  import opened CpuTypes
  import opened CpuStages
  import opened Isa

  // Each function finishes the instruction held by one latch on the state `d` left by the older
  // ones. The operands come from `d`; the literals of the latch count only for register 0.

  function DrainWb(l: MemWb, d: Data): Data {
    if !l.valid || d.status != Running then d
    else match l.wb
      case WbNop => d
      case WbVec(rd) => if l.arith == None then Fault(d) else SetV(d, rd, l.arith.value)
      case WbPtr(frd) => if l.ptr == None then Fault(d) else SetF(d, frd, l.ptr.value)
  }

  /** `submitted`: the DRAM request of this access is already part of the trace. */
  function Touched(d: Data, addr: u32, isRead: bool, submitted: bool): Data {
    if submitted then d else Touch(d, addr, isRead)
  }

  function DrainMem(l: AguMem, submitted: bool, d: Data): Data {
    if !l.valid || d.status != Running then d
    else if l.dma == DmaNop then DrainWb(MemWb(true, l.arith, l.ptr, l.wb), d)
    else if l.phys == None then Fault(d)
    else
      var a := l.phys.value;
      match l.dma
      case ReadVec(rd) => LoadVec(Touched(d, a, true, submitted), rd, a)
      case ReadPtr(frd) => LoadPtr(Touched(d, a, true, submitted), frd, a)
      case WriteVec(_, x) => StoreVec(Touched(d, a, false, submitted), a, x)
      case WritePtr(_, p) => StorePtr(Touched(d, a, false, submitted), a, p)
  }

  function Operand(d: Data, rs: Reg, lit: Vec4): Vec4 {
    if rs == 0 then lit else d.v[rs]
  }

  function StoreOperand(d: Data, dma: DmaOp): Option<DmaOp> {
    match dma
    case WriteVec(rs, lit) => Some(WriteVec(rs, Operand(d, rs, lit)))
    case WritePtr(frs, _) => if d.f[frs] == None then None else Some(WritePtr(frs, d.f[frs].value))
    case _ => Some(dma)
  }

  function DrainAgu(t: AguTable, l: ExAgu, d: Data): Data {
    if !l.valid || d.status != Running then d
    else if StoreOperand(d, l.dma) == None then Fault(d)
    else
      var dma := StoreOperand(d, l.dma).value;
      match l.agu
      case AguNop => DrainMem(AguMem(true, None, l.arith, None, dma, l.wb), false, d)
      case Chk(frs, _) =>
        if AddrOf(t, d, frs) == None then Fault(d)
        else DrainMem(AguMem(true, AddrOf(t, d, frs), l.arith, None, dma, l.wb), false, d)
      case Offset(pop, frs, rs1, _, lit, idx) =>
        if d.f[frs] == None then Fault(d)
        else
          var q := PtrArith(t, pop, d.f[frs].value, Operand(d, rs1, lit), idx);
          if q == None then Fault(d)
          else DrainMem(AguMem(true, None, l.arith, q, dma, l.wb), false, d)
  }

  function DrainEx(t: AguTable, l: IdEx, d: Data): Data {
    if !l.valid || d.status != Running then d
    else match l.alu
      case AluNop => DrainAgu(t, ExAgu(true, None, l.agu, l.dma, l.wb), d)
      case Alu(kind, rs1, rs2, lit1, lit2) =>
        (match kind
         case TEST => if Operand(d, rs1, lit1) == Operand(d, rs2, lit2) then d.(status := Exited) else d
         case Lanes(op) =>
           DrainAgu(t, ExAgu(true, Some(Lanes4(op, Operand(d, rs1, lit1), Operand(d, rs2, lit2))),
                             l.agu, l.dma, l.wb), d))
  }

  function DrainId(t: AguTable, l: IfId, d: Data): Data {
    if !l.valid || d.status != Running then d else Exec(t, l.inst, d)
  }

  // ---- the states between the stages ----

  function Base(c: Core, log: seq<Access>): Data {
    Data(c.rf.v, c.rf.f, c.mem, log, Running)
  }

  function AfterWb(c: Core, log: seq<Access>): Data {
    DrainWb(c.memwb, Base(c, log))
  }

  function AfterMem(c: Core, submitted: bool, log: seq<Access>): Data {
    DrainMem(c.agumem, submitted, AfterWb(c, log))
  }

  function AfterAgu(t: AguTable, c: Core, submitted: bool, log: seq<Access>): Data {
    DrainAgu(t, c.exagu, AfterMem(c, submitted, log))
  }

  function AfterEx(t: AguTable, c: Core, submitted: bool, log: seq<Access>): Data {
    DrainEx(t, c.idex, AfterAgu(t, c, submitted, log))
  }

  /** The sequential state at the next fetch point. */
  function Drain(t: AguTable, c: Core, submitted: bool, log: seq<Access>): Arch {
    Arch(if c.ifid.valid then JumpTarget(c.ifid.inst, c.rf.pc) else c.rf.pc,
         DrainId(t, c.ifid, AfterEx(t, c, submitted, log)))
  }

  // ---- well-formed latches ----

  predicate LitOk(rs: Reg, lit: Vec4) {
    rs == 0 ==> lit == ZERO4
  }

  predicate DmaLitOk(dma: DmaOp) {
    dma.WriteVec? ==> LitOk(dma.rs, dma.dataLit)
  }

  /** The write-back operation that goes with a memory operation. */
  predicate WbMatches(dma: DmaOp, wb: WbOp) {
    match dma
    case DmaNop => true
    case ReadVec(rd) => wb == WbVec(rd)
    case ReadPtr(frd) => wb == WbPtr(frd)
    case _ => wb == WbNop
  }

  predicate AguOk(arith: Option<Vec4>, agu: AguOp, dma: DmaOp, wb: WbOp) {
    && WbMatches(dma, wb) && DmaLitOk(dma)
    && match agu
       case AguNop => dma == DmaNop && !wb.WbPtr? && (wb.WbVec? ==> arith.Some?)
       case Chk(_, _) => dma != DmaNop
       case Offset(_, _, rs1, _, lit, _) => dma == DmaNop && wb.WbPtr? && LitOk(rs1, lit)
  }

  predicate ExAguOk(l: ExAgu) {
    l.valid ==> AguOk(l.arith, l.agu, l.dma, l.wb)
  }

  predicate IdExOk(l: IdEx) {
    l.valid ==>
      match l.alu
      case AluNop => AguOk(None, l.agu, l.dma, l.wb)
      case Alu(kind, rs1, rs2, lit1, lit2) =>
        && l.agu == AguNop && l.dma == DmaNop
        && (kind == TEST || l.wb.WbVec?)
        && LitOk(rs1, lit1) && LitOk(rs2, lit2)
  }

  predicate AguMemOk(l: AguMem) {
    l.valid ==>
      && WbMatches(l.dma, l.wb)
      && (l.dma == DmaNop ==> (l.wb.WbVec? ==> l.arith.Some?) && (l.wb.WbPtr? ==> l.ptr.Some?))
      && (l.dma != DmaNop ==> l.phys.Some?)
  }

  /** The forwarding latch repeats the pending write-back, or a write the registers already hold. */
  predicate FwdOk(c: Core) {
    if c.memwb.valid then c.fwd == c.memwb
    else c.fwd.valid ==>
      && (c.fwd.wb.WbVec? && c.fwd.wb.rd != 0 ==> c.fwd.arith == Some(c.rf.v[c.fwd.wb.rd]))
      && (c.fwd.wb.WbPtr? ==> c.fwd.ptr == c.rf.f[c.fwd.wb.frd])
  }

  predicate RegsOk(v: VRegs, f: FRegs) {
    v[0] == ZERO4 && forall r: Reg :: f[r].Some?
  }

  predicate CoreOk(c: Core) {
    && RegsOk(c.rf.v, c.rf.f)
    && IdExOk(c.idex) && ExAguOk(c.exagu) && AguMemOk(c.agumem) && FwdOk(c)
  }
}
