/** Instructions, micro-operations, ALU and sequential meaning of the processing element. */
module PeTypes {
  import opened Words
  import opened FlatMemory

  /** Register numbers the register file accepts; it panics on any other. */
  type VId = x: int | 0 <= x < 16
  type SId = x: int | 0 <= x < 8

  datatype ArithOp = ADD | SUB | MUL

  datatype PeInst =
    | NOP
    | LD128(vrd: VId, addr: u32)
    | ST128(vrs: VId, addr: u32)
    | LD32(srd: SId, addr: u32)
    | ST32(srs: SId, addr: u32)
    | Arith(op: ArithOp, vrd: VId, vrs0: VId, vrs1: VId)
    | MAC128(srd: SId, srs0: SId, vrs0: VId, vrs1: VId)
    | ReLU(vrd: VId, vrs0: VId)

  /** Operand values travel with the operation; EX replaces the ones that were forwarded. */
  datatype PeAlu =
    | AluIdle
    | Lanes(op: ArithOp, v0: VId, v1: VId, lit0: Vec8, lit1: Vec8)
    | Mac(s0: SId, v0: VId, v1: VId, slit: i32, lit0: Vec8, lit1: Vec8)
    | Relu(v0: VId, lit0: Vec8)

  datatype PeMem =
    | MemIdle
    | ReadVec(addr: u32)
    | WriteVec(addr: u32, vrs: VId, vdata: Vec8)
    | ReadScl(addr: u32)
    | WriteScl(addr: u32, srs: SId, sdata: i32)

  datatype PeWb = WbIdle | VWrite(vrd: VId) | SWrite(srd: SId)

  datatype PeAct =
    | DoNothing
    | WriteVRF(vrd: VId, vec: Vec8)
    | WriteSRF(srd: SId, scl: i32)
    | WriteMemV(addr: u32, vec: Vec8)
    | WriteMemS(addr: u32, scl: i32)

  datatype PeDest = VecRF(v: VId) | SclRF(s: SId) | VecMem(a: u32) | SclMem(a: u32)

  function Dest(a: PeAct): Option<PeDest> {
    match a
    case DoNothing => None
    case WriteVRF(r, _) => Some(VecRF(r))
    case WriteSRF(r, _) => Some(SclRF(r))
    case WriteMemV(addr, _) => Some(VecMem(addr))
    case WriteMemS(addr, _) => Some(SclMem(addr))
  }

  type VFile = s: seq<Vec8> | |s| == 16 witness seq<Vec8>(16, i => ZERO8)
  type SFile = s: seq<i32> | |s| == 8 witness [0, 0, 0, 0, 0, 0, 0, 0]

  const ZERO8: Vec8 := [0, 0, 0, 0, 0, 0, 0, 0]

  // ---- register file: register 0 reads as zero and ignores writes ----

  function ReadVR(v: VFile, r: VId): Vec8 {
    if r == 0 then ZERO8 else v[r]
  }

  function WriteVR(v: VFile, r: VId, x: Vec8): VFile {
    if r == 0 then v else v[r := x]
  }

  function ReadSR(s: SFile, r: SId): i32 {
    if r == 0 then 0 else s[r]
  }

  function WriteSR(s: SFile, r: SId, x: i32): SFile {
    if r == 0 then s else s[r := x]
  }

  // ---- ALU ----

  function Lane16(op: ArithOp, a: i16, b: i16): i16 {
    match op
    case ADD => Signed16(a + b)
    case SUB => Signed16(a - b)
    case MUL => Signed16(a * b)
  }

  function Zip(op: ArithOp, a: Vec8, b: Vec8): Vec8 {
    seq(8, i requires 0 <= i < 8 => Lane16(op, a[i], b[i]))
  }

  function Product(a: i16, b: i16): int {
    (a as int) * (b as int)
  }

  /** The first n products, added up with 32-bit wrap-around after every addition. */
  function DotFold(a: Vec8, b: Vec8, n: nat): i32
    requires n <= 8
  {
    if n == 0 then 0 else Signed32(DotFold(a, b, n - 1) + Product(a[n - 1], b[n - 1]))
  }

  function ReluVec(a: Vec8): Vec8 {
    seq(8, i requires 0 <= i < 8 => if a[i] > 0 then a[i] else 0)
  }

  function Mac32(acc: i32, a: Vec8, b: Vec8): i32 {
    Signed32(acc + DotFold(a, b, 8))
  }

  /** The exact dot product, without any wrap-around. */
  function ExactDot(a: Vec8, b: Vec8, n: nat): int
    requires n <= 8
  {
    if n == 0 then 0 else ExactDot(a, b, n - 1) + Product(a[n - 1], b[n - 1])
  }

  lemma {:induction false} FoldIsExact(a: Vec8, b: Vec8, n: nat)
    requires n <= 8
    ensures DotFold(a, b, n) == Signed32(ExactDot(a, b, n))
  {
    if n > 0 {
      FoldIsExact(a, b, n - 1);
      SignedAdd(ExactDot(a, b, n - 1), Product(a[n - 1], b[n - 1]));
    }
  }

  lemma SignedAdd(x: int, y: int)
    ensures Signed32(Signed32(x) + y) == Signed32(x + y)
  {
    var q := (x + 0x8000_0000) / 0x1_0000_0000;
    assert Signed32(x) == x - q * 0x1_0000_0000;
    var z := x + y + 0x8000_0000;
    assert (z - q * 0x1_0000_0000) % 0x1_0000_0000 == z % 0x1_0000_0000;
  }

  /** Wrapping after every addition is wrapping once: the multiply-accumulate result is the exact
      sum of accumulator and dot product, truncated to 32 bits. */
  lemma MacIsExact(acc: i32, a: Vec8, b: Vec8)
    ensures Mac32(acc, a, b) == Signed32(acc + ExactDot(a, b, 8))
  {
    FoldIsExact(a, b, 8);
    SignedAdd(ExactDot(a, b, 8), acc);
  }

  // ---- the sequential machine ----

  datatype PeState = PeState(v: VFile, s: SFile, mem: Mem)

  /** One instruction. A load from an entry of another type leaves its register alone, a store to one
      leaves the memory alone. */
  function Exec(i: PeInst, st: PeState): PeState {
    match i
    case NOP => st
    case LD128(rd, a) =>
      var (x, m) := ReadV(st.mem, a);
      st.(v := if x.Some? then WriteVR(st.v, rd, x.value) else st.v, mem := m)
    case ST128(rs, a) => st.(mem := WriteV(st.mem, a, ReadVR(st.v, rs)).1)
    case LD32(rd, a) =>
      var (x, m) := ReadS(st.mem, a);
      st.(s := if x.Some? then WriteSR(st.s, rd, x.value) else st.s, mem := m)
    case ST32(rs, a) => st.(mem := WriteS(st.mem, a, ReadSR(st.s, rs)).1)
    case Arith(op, rd, r0, r1) => st.(v := WriteVR(st.v, rd, Zip(op, ReadVR(st.v, r0), ReadVR(st.v, r1))))
    case MAC128(rd, acc, r0, r1) =>
      st.(s := WriteSR(st.s, rd, Mac32(ReadSR(st.s, acc), ReadVR(st.v, r0), ReadVR(st.v, r1))))
    case ReLU(rd, r0) => st.(v := WriteVR(st.v, rd, ReluVec(ReadVR(st.v, r0))))
  }
}
