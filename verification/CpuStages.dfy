/** The combinational part of the CPU: what each stage computes from the current latches. */
module CpuStages {
  import opened Words
  import opened FlatMemory
  import opened AguUnits
  import opened CpuTypes
  import opened Scoreboard

  /** What the processor runs: instruction memory and AGU table, fixed once booted. */
  datatype Program = Program(imem: seq<Inst>, agu: AguTable)

  /** Architectural state and latches. `fwd` is the last valid value ever put into `memwb`. */
  datatype Core = Core(
    rf: Rf, mem: Mem, ifid: IfId, idex: IdEx, exagu: ExAgu, agumem: AguMem, memwb: MemWb, fwd: MemWb)

  datatype Eval<T> = Eval(next: T, req: SignalReq, act: ArchAction)

  function Quiet(s: Stage): SignalReq {
    SignalReq(NoReason, s, None)
  }

  const ALL_STAGES: set<Stage> := {IF, ID, EX, AGU, MEM, WB}

  // ---- operand bypassing ----

  /** Newest older producer in MEM/WB or the forwarding latch, else the register file. */
  function LateVReg(c: Core, rs: Reg): Option<Vec4> {
    if c.memwb.valid && c.memwb.wb == WbVec(rs) then c.memwb.arith
    else if c.fwd.valid && c.fwd.wb == WbVec(rs) then c.fwd.arith
    else Some(c.rf.v[rs])
  }

  function AguVReg(c: Core, rs: Reg, lit: Vec4): Option<Vec4> {
    if rs == 0 then Some(lit)
    else if c.agumem.valid && c.agumem.wb == WbVec(rs) then
      if c.agumem.dma.ReadVec? then None else c.agumem.arith
    else LateVReg(c, rs)
  }

  function ExVReg(c: Core, rs: Reg, lit: Vec4): Option<Vec4> {
    if rs == 0 then Some(lit)
    else if c.exagu.valid && c.exagu.wb == WbVec(rs) then
      if c.exagu.dma.ReadVec? then None else c.exagu.arith
    else AguVReg(c, rs, lit)
  }

  function AguFReg(c: Core, frs: Reg): Option<FatPtr> {
    if c.agumem.valid && c.agumem.wb == WbPtr(frs) then
      if c.agumem.dma.ReadPtr? then None else c.agumem.ptr
    else if c.memwb.valid && c.memwb.wb == WbPtr(frs) then c.memwb.ptr
    else if c.fwd.valid && c.fwd.wb == WbPtr(frs) then c.fwd.ptr
    else c.rf.f[frs]
  }

  /** The data operand of a store, refreshed in AGU. */
  function AguDma(c: Core, dma: DmaOp): Option<DmaOp> {
    match dma
    case WriteVec(rs, lit) =>
      (var x := AguVReg(c, rs, lit); if x.Some? then Some(WriteVec(rs, x.value)) else None)
    case WritePtr(frs, _) =>
      (var p := AguFReg(c, frs); if p.Some? then Some(WritePtr(frs, p.value)) else None)
    case _ => Some(dma)
  }

  // ---- WB ----

  function EvalWB(l: MemWb): (SignalReq, ArchAction) {
    if !l.valid then (Quiet(WB), DoNothing)
    else match l.wb
      case WbNop => (Quiet(WB), DoNothing)
      case WbVec(rd) =>
        if l.arith.Some? then (Quiet(WB), WriteVRF(rd, l.arith.value))
        else (SignalReq(Exception, WB, None), DoNothing)
      case WbPtr(frd) =>
        if l.ptr.Some? then (Quiet(WB), WriteFPTR(frd, l.ptr.value))
        else (SignalReq(Exception, WB, None), DoNothing)
  }

  // ---- MEM ----

  function BlockReq(addr: u32, isRead: bool): SignalReq {
    SignalReq(MemBlock(addr / ENTRIES_PER_CACHELINE, isRead), MEM, Some(ALL_STAGES))
  }

  /** MEM may claim the type of the entry it reads, every tick the load waits there. */
  function EvalMEM(l: AguMem, m: Mem): (Eval<MemWb>, Mem) {
    if !l.valid then (Eval(BUBBLE_MEMWB, Quiet(MEM), DoNothing), m)
    else if l.dma == DmaNop then (Eval(MemWb(true, l.arith, l.ptr, l.wb), Quiet(MEM), DoNothing), m)
    else if l.phys == None then (Eval(MemWb(true, None, None, WbNop), Quiet(MEM), DoNothing), m)
    else
      var a := l.phys.value;
      match l.dma
      case ReadVec(_) =>
        var (d, m') := ReadData(m, a);
        (Eval(MemWb(true, d, None, l.wb), BlockReq(a, true), DoNothing), m')
      case ReadPtr(_) =>
        var (p, m') := ReadFptr(m, a);
        (Eval(MemWb(true, None, p, l.wb), BlockReq(a, true), DoNothing), m')
      case WriteVec(_, d) =>
        (Eval(MemWb(true, None, None, WbNop), BlockReq(a, false), WriteMemData(a, d)), m)
      case WritePtr(_, p) =>
        (Eval(MemWb(true, None, None, WbNop), BlockReq(a, false), WriteMemPtr(a, p)), m)
  }

  // ---- AGU ----

  const AGU_RAW: Eval<AguMem> :=
    Eval(BUBBLE_AGUMEM, SignalReq(RawResolution, AGU, Some({IF, ID, EX})), DoNothing)

  const AGU_FAULT: Eval<AguMem> :=
    Eval(BUBBLE_AGUMEM, SignalReq(Exception, AGU, Some({IF, ID, EX})), HoldPC)

  function PtrArith(t: AguTable, op: PtrOp, p: FatPtr, x: Vec4, idx: u8): Option<FatPtr> {
    match op
    case PADD => Addition(t, p, x, idx)
    case PSUB => Subtraction(t, p, x, idx)
  }

  function EvalAGU(prog: Program, c: Core): Eval<AguMem> {
    var l := c.exagu;
    if !l.valid then Eval(BUBBLE_AGUMEM, Quiet(AGU), DoNothing)
    else match l.agu
      case AguNop =>
        var dma := AguDma(c, l.dma);
        if dma == None then AGU_RAW
        else Eval(AguMem(true, None, l.arith, None, dma.value, l.wb), Quiet(AGU), DoNothing)
      case Chk(frs, _) =>
        var p := AguFReg(c, frs);
        var dma := AguDma(c, l.dma);
        if p == None || dma == None then AGU_RAW
        else if Accept(prog.agu, p.value) then
          Eval(AguMem(true, Translate(prog.agu, p.value), l.arith, None, dma.value, l.wb),
               Quiet(AGU), DoNothing)
        else AGU_FAULT
      case Offset(pop, frs, rs1, _, rs1Lit, idx) =>
        var p := AguFReg(c, frs);
        var x := AguVReg(c, rs1, rs1Lit);
        var dma := AguDma(c, l.dma);
        if p == None || x == None || dma == None then AGU_RAW
        else
          var q := PtrArith(prog.agu, pop, p.value, x.value, idx);
          if q == None then AGU_FAULT
          else Eval(AguMem(true, None, l.arith, q, dma.value, l.wb), Quiet(AGU), DoNothing)
  }

  // ---- EX ----

  const EX_RAW: Eval<ExAgu> :=
    Eval(BUBBLE_EXAGU, SignalReq(RawResolution, EX, Some({IF, ID, EX})), DoNothing)

  function EvalEX(c: Core): Eval<ExAgu> {
    var l := c.idex;
    if !l.valid then Eval(BUBBLE_EXAGU, Quiet(EX), DoNothing)
    else match l.alu
      case AluNop => Eval(ExAgu(true, None, l.agu, l.dma, l.wb), Quiet(EX), DoNothing)
      case Alu(kind, rs1, rs2, lit1, lit2) =>
        var a := ExVReg(c, rs1, lit1);
        var b := ExVReg(c, rs2, lit2);
        if a == None || b == None then EX_RAW
        else match kind
          case Lanes(op) =>
            Eval(ExAgu(true, Some(Lanes4(op, a.value, b.value)), l.agu, l.dma, l.wb), Quiet(EX), DoNothing)
          case TEST =>
            if a == b then
              Eval(ExAgu(true, None, AguNop, DmaNop, WbNop), SignalReq(ProgEnd, EX, Some({IF, ID})), DoNothing)
            else
              Eval(ExAgu(true, None, AguNop, DmaNop, WbNop), SignalReq(NoReason, EX, Some({IF, ID})), HoldPC)
  }

  // ---- ID ----

  /** ID reads fat pointers straight from the register file and insists that they exist. */
  function FLit(rf: Rf, r: Reg): FatPtr {
    if rf.f[r].Some? then rf.f[r].value else FatPtr(0, 0)
  }

  function Decode(i: Inst, rf: Rf): IdEx {
    match i
    case NOP => IdEx(true, AluNop, AguNop, DmaNop, WbNop)
    case Vec128(op, rd, rs1, rs2) =>
      IdEx(true, Alu(Lanes(op), rs1, rs2, rf.v[rs1], rf.v[rs2]), AguNop, DmaNop, WbVec(rd))
    case LD128(rd, frs) => IdEx(true, AluNop, Chk(frs, FLit(rf, frs)), ReadVec(rd), WbVec(rd))
    case ST128(rs, frd) => IdEx(true, AluNop, Chk(frd, FLit(rf, frd)), WriteVec(rs, rf.v[rs]), WbNop)
    case FatPtrLD(frd, frs) => IdEx(true, AluNop, Chk(frs, FLit(rf, frs)), ReadPtr(frd), WbPtr(frd))
    case FatPtrST(frd, frs) =>
      IdEx(true, AluNop, Chk(frd, FLit(rf, frd)), WritePtr(frs, FLit(rf, frs)), WbNop)
    case FatPtrArith(pop, frd, frs, rs1, idx) =>
      IdEx(true, AluNop, Offset(pop, frs, rs1, FLit(rf, frs), rf.v[rs1], idx), DmaNop, WbPtr(frd))
    case JUMP(_) => BUBBLE_IDEX
    case EqualExit(rd, rs1) =>
      IdEx(true, Alu(TEST, rs1, rd, rf.v[rs1], rf.v[rd]), AguNop, DmaNop, WbNop)
  }

  function EvalID(l: IfId, rf: Rf): Eval<IdEx> {
    if !l.valid then Eval(BUBBLE_IDEX, Quiet(ID), DoNothing)
    else match l.inst
      case JUMP(target) =>
        Eval(BUBBLE_IDEX, SignalReq(JumpResolution, ID, Some({IF})), WritePC(target))
      case _ => Eval(Decode(l.inst, rf), Quiet(ID), DoNothing)
  }

  // ---- IF ----

  /** Beyond the program the instruction memory reads as NOP. */
  function Fetch(imem: seq<Inst>, pc: u16): Inst {
    if pc < |imem| then imem[pc] else NOP
  }

  function EvalIF(prog: Program, rf: Rf): Eval<IfId> {
    Eval(IfId(true, rf.pc, Fetch(prog.imem, rf.pc)), Quiet(IF), DoNothing)
  }
}
