/** The sequential machine of the CPU's instruction set: one instruction at a time. */
module Isa {
  import opened Words
  import opened FlatMemory
  import opened AguUnits
  import opened CpuTypes
  import opened CpuStages

  /** One cache-line access of a load or store. */
  datatype Access = Access(line: u64, isRead: bool)

  datatype Status = Running | Exited | Faulted

  /** Registers, memory, and the memory accesses made so far. */
  datatype Data = Data(v: VRegs, f: FRegs, mem: Mem, trace: seq<Access>, status: Status)

  datatype Arch = Arch(pc: u16, d: Data)

  function Fault(d: Data): Data {
    d.(status := Faulted)
  }

  function SetV(d: Data, rd: Reg, x: Vec4): Data {
    d.(v := WriteVReg(d.v, rd, x))
  }

  function SetF(d: Data, frd: Reg, p: FatPtr): Data {
    d.(f := WriteFReg(d.f, frd, p))
  }

  function Touch(d: Data, addr: u32, isRead: bool): Data {
    d.(trace := d.trace + [Access(addr / ENTRIES_PER_CACHELINE, isRead)])
  }

  /** The entry a fat-pointer register points at, if the AGU accepts the pointer. */
  function AddrOf(t: AguTable, d: Data, frs: Reg): Option<u32> {
    if d.f[frs].Some? then Translate(t, d.f[frs].value) else None
  }

  function LoadVec(d: Data, rd: Reg, addr: u32): Data {
    var (x, m) := ReadData(d.mem, addr);
    if x == None then Fault(d) else SetV(d.(mem := m), rd, x.value)
  }

  function LoadPtr(d: Data, frd: Reg, addr: u32): Data {
    var (p, m) := ReadFptr(d.mem, addr);
    if p == None then Fault(d) else SetF(d.(mem := m), frd, p.value)
  }

  function StoreVec(d: Data, addr: u32, x: Vec4): Data {
    d.(mem := WriteData(d.mem, addr, x).1)
  }

  function StorePtr(d: Data, addr: u32, p: FatPtr): Data {
    d.(mem := WriteFptr(d.mem, addr, p).1)
  }

  /** The effect of one instruction on registers, memory and status. */
  function Exec(t: AguTable, i: Inst, d: Data): Data {
    match i
    case NOP => d
    case Vec128(op, rd, rs1, rs2) => SetV(d, rd, Lanes4(op, d.v[rs1], d.v[rs2]))
    case LD128(rd, frs) =>
      var a := AddrOf(t, d, frs);
      if a == None then Fault(d) else LoadVec(Touch(d, a.value, true), rd, a.value)
    case ST128(rs, frd) =>
      var a := AddrOf(t, d, frd);
      if a == None then Fault(d) else StoreVec(Touch(d, a.value, false), a.value, d.v[rs])
    case FatPtrLD(frd, frs) =>
      var a := AddrOf(t, d, frs);
      if a == None then Fault(d) else LoadPtr(Touch(d, a.value, true), frd, a.value)
    case FatPtrST(frd, frs) =>
      var a := AddrOf(t, d, frd);
      if a == None || d.f[frs] == None then Fault(d)
      else StorePtr(Touch(d, a.value, false), a.value, d.f[frs].value)
    case FatPtrArith(pop, frd, frs, rs1, idx) =>
      if d.f[frs] == None then Fault(d)
      else
        var q := PtrArith(t, pop, d.f[frs].value, d.v[rs1], idx);
        if q == None then Fault(d) else SetF(d, frd, q.value)
    case JUMP(_) => d
    case EqualExit(rd, rs1) => if d.v[rs1] == d.v[rd] then d.(status := Exited) else d
  }

  function JumpTarget(i: Inst, pc: u16): u16 {
    if i.JUMP? then i.target else pc
  }

  /** One step of the sequential machine. */
  function Step(prog: Program, s: Arch): Arch {
    if s.d.status != Running then s
    else
      var i := Fetch(prog.imem, s.pc);
      Arch(JumpTarget(i, (s.pc + 1) % 0x1_0000), Exec(prog.agu, i, s.d))
  }

  function Steps(prog: Program, s: Arch, n: nat): Arch {
    if n == 0 then s else Step(prog, Steps(prog, s, n - 1))
  }
}
