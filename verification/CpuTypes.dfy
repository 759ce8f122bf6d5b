/** Instructions, micro-operations and pipeline latches of the CPU. */
module CpuTypes {
  import opened Words

  datatype VecOp = ADD | SUB | MUL | AND
  datatype PtrOp = PADD | PSUB

  datatype Inst =
    | NOP
    | Vec128(op: VecOp, rd: Reg, rs1: Reg, rs2: Reg)
    | LD128(rd: Reg, frs: Reg)
    | ST128(rs: Reg, frd: Reg)
    | FatPtrLD(frd: Reg, frs: Reg)
    | FatPtrST(frd: Reg, frs: Reg)
    | FatPtrArith(pop: PtrOp, frd: Reg, frs: Reg, rs1: Reg, immIdx: u8)
    | JUMP(target: u16)
    | EqualExit(rd: Reg, rs1: Reg)

  datatype AluKind = Lanes(op: VecOp) | TEST

  /** The literals are the register values read in ID; they are stale unless the register is 0. */
  datatype AluOp = AluNop | Alu(kind: AluKind, rs1: Reg, rs2: Reg, lit1: Vec4, lit2: Vec4)

  datatype AguOp =
    | AguNop
    | Chk(frs: Reg, fptrLit: FatPtr)
    | Offset(pop: PtrOp, frs: Reg, rs1: Reg, fptrLit: FatPtr, rs1Lit: Vec4, idxImm: u8)

  datatype DmaOp =
    | DmaNop
    | ReadVec(rd: Reg)
    | WriteVec(rs: Reg, dataLit: Vec4)
    | ReadPtr(frd: Reg)
    | WritePtr(frs: Reg, ptrLit: FatPtr)

  datatype WbOp = WbNop | WbVec(rd: Reg) | WbPtr(frd: Reg)

  datatype ArchAction =
    | DoNothing
    | WritePC(newPc: u16)
    | HoldPC
    | WriteVRF(rd: Reg, vcontent: Vec4)
    | WriteFPTR(frd: Reg, pcontent: FatPtr)
    | WriteMemData(addr: u32, vcontent: Vec4)
    | WriteMemPtr(addr: u32, pcontent: FatPtr)

  datatype ArchDest = PcDest | VecRF(r: Reg) | PtrRF(r: Reg) | VecMem(a: u32) | PtrMem(a: u32)

  function Dest(op: ArchAction): Option<ArchDest> {
    match op
    case DoNothing => None
    case WritePC(_) => Some(PcDest)
    case HoldPC => Some(PcDest)
    case WriteVRF(rd, _) => Some(VecRF(rd))
    case WriteFPTR(frd, _) => Some(PtrRF(frd))
    case WriteMemData(a, _) => Some(VecMem(a))
    case WriteMemPtr(a, _) => Some(PtrMem(a))
  }

  // ---- latches: each is named after the two stages it separates ----

  datatype IfId = IfId(valid: bool, pc: u16, inst: Inst)
  datatype IdEx = IdEx(valid: bool, alu: AluOp, agu: AguOp, dma: DmaOp, wb: WbOp)
  datatype ExAgu = ExAgu(valid: bool, arith: Option<Vec4>, agu: AguOp, dma: DmaOp, wb: WbOp)
  datatype AguMem = AguMem(
    valid: bool, phys: Option<u32>, arith: Option<Vec4>, ptr: Option<FatPtr>, dma: DmaOp, wb: WbOp)
  datatype MemWb = MemWb(valid: bool, arith: Option<Vec4>, ptr: Option<FatPtr>, wb: WbOp)

  const BUBBLE_IFID: IfId := IfId(false, 0, NOP)
  const BUBBLE_IDEX: IdEx := IdEx(false, AluNop, AguNop, DmaNop, WbNop)
  const BUBBLE_EXAGU: ExAgu := ExAgu(false, None, AguNop, DmaNop, WbNop)
  const BUBBLE_AGUMEM: AguMem := AguMem(false, None, None, None, DmaNop, WbNop)
  const BUBBLE_MEMWB: MemWb := MemWb(false, None, None, WbNop)

  type VRegs = s: seq<Vec4> | |s| == 8
    witness [ZERO4, ZERO4, ZERO4, ZERO4, ZERO4, ZERO4, ZERO4, ZERO4]
  type FRegs = s: seq<Option<FatPtr>> | |s| == 8
    witness [None, None, None, None, None, None, None, None]

  /** The architectural register file; vector register 0 ignores writes. */
  datatype Rf = Rf(pc: u16, v: VRegs, f: FRegs)

  function WriteVReg(v: VRegs, r: Reg, x: Vec4): VRegs {
    if r == 0 then v else v[r := x]
  }

  function WriteFReg(f: FRegs, r: Reg, p: FatPtr): FRegs {
    f[r := Some(p)]
  }

  // ---- lane arithmetic: every lane wraps modulo 2^32 ----

  function Bits(x: u32): bv32 {
    x as bv32
  }

  function OfBits(x: bv32): u32 {
    x as u32
  }

  function BitAnd(x: bv32, y: bv32): bv32 {
    x & y
  }

  function LaneOp(op: VecOp, a: u32, b: u32): u32 {
    match op
    case ADD => Wrap32(a + b)
    case SUB => Wrap32(a - b)
    case MUL => Wrap32(a * b)
    case AND => OfBits(BitAnd(Bits(a), Bits(b)))
  }

  function Lanes4(op: VecOp, a: Vec4, b: Vec4): Vec4 {
    Vec4(LaneOp(op, a.x0, b.x0), LaneOp(op, a.x1, b.x1),
         LaneOp(op, a.x2, b.x2), LaneOp(op, a.x3, b.x3))
  }
}
