/** PE instructions as commands: the slot in the command page names the operation, the first word of the payload
    packs the operands. */
module PeCommands {
  import opened Words
  import opened DramPortals
  import opened PeTypes
  import opened RequestRouter

  /** Four register numbers of four bits and an entry address of 32 bits. */
  datatype Fields = Fields(a: VId, b: VId, c: VId, d: VId, addr: u32)

  function Split(w: u64): Fields {
    Fields(w % 16, w / 16 % 16, w / 256 % 16, w / 4096 % 16, w / 0x1_0000 % 0x1_0000_0000)
  }

  /** None stands for a scalar register the register file does not have: it panics when the instruction runs. */
  function DecodePe(addr: u64, payload: Payload): Option<PeInst>
    requires KindOf(addr) == FgoInst
  {
    var f := Split(payload[0]);
    match (addr - PIM_CMD_PAGE_BASE) / PIM_CMD_SLOT_SIZE
    case 0 => Some(NOP)
    case 1 => Some(Arith(ADD, f.a, f.b, f.c))
    case 2 => Some(Arith(SUB, f.a, f.b, f.c))
    case 3 => Some(Arith(MUL, f.a, f.b, f.c))
    case 4 => if f.a < 8 && f.d < 8 then Some(MAC128(f.a, f.d, f.b, f.c)) else None
    case 5 => Some(ReLU(f.a, f.b))
    case 6 => Some(LD128(f.a, f.addr))
    case 7 => Some(ST128(f.a, f.addr))
    case 8 => if f.a < 8 then Some(LD32(f.a, f.addr)) else None
    case 9 => if f.a < 8 then Some(ST32(f.a, f.addr)) else None
    case _ => None
  }

  // ---- the host's side ----

  /** The address the host writes an instruction to. */
  function SlotOf(i: PeInst): u64 {
    0xfffe_f000 + 64 *
    match i
    case NOP => 0
    case Arith(op, _, _, _) => (match op case ADD => 1 case SUB => 2 case MUL => 3)
    case MAC128(_, _, _, _) => 4
    case ReLU(_, _) => 5
    case LD128(_, _) => 6
    case ST128(_, _) => 7
    case LD32(_, _) => 8
    case ST32(_, _) => 9
  }

  function Pack(a: VId, b: VId, c: VId, d: VId, addr: u32): u64 {
    a + 0x10 * b + 0x100 * c + 0x1000 * d + 0x1_0000 * addr
  }

  function PackInst(i: PeInst): u64 {
    match i
    case NOP => 0
    case Arith(_, rd, r0, r1) => Pack(rd, r0, r1, 0, 0)
    case MAC128(rd, acc, r0, r1) => Pack(rd, r0, r1, acc, 0)
    case ReLU(rd, r0) => Pack(rd, r0, 0, 0, 0)
    case LD128(rd, addr) => Pack(rd, 0, 0, 0, addr)
    case ST128(rs, addr) => Pack(rs, 0, 0, 0, addr)
    case LD32(rd, addr) => Pack(rd, 0, 0, 0, addr)
    case ST32(rs, addr) => Pack(rs, 0, 0, 0, addr)
  }

  lemma OneField(rest: nat, field: nat)
    requires field < 16
    ensures (16 * rest + field) / 16 == rest && (16 * rest + field) % 16 == field
  {
  }

  lemma Divide16(w: nat)
    ensures w / 0x100 == w / 0x10 / 0x10 && w / 0x1000 == w / 0x100 / 0x10 && w / 0x1_0000 == w / 0x1000 / 0x10
  {
  }

  lemma SplitPack(a: VId, b: VId, c: VId, d: VId, addr: u32)
    ensures Split(Pack(a, b, c, d, addr)) == Fields(a, b, c, d, addr)
  {
    Divide16(Pack(a, b, c, d, addr));
    OneField(0x1000 * addr + 0x100 * d + 0x10 * c + b, a);
    OneField(0x100 * addr + 0x10 * d + c, b);
    OneField(0x10 * addr + d, c);
    OneField(addr, d);
  }

  /** Every instruction the host packs comes back: its slot is one of the ten of the PE, and slot and operand word
      decode to the instruction. */
  lemma CommandRoundTrip(i: PeInst, payload: Payload)
    requires payload[0] == PackInst(i)
    ensures KindOf(SlotOf(i)) == FgoInst && DecodePe(SlotOf(i), payload) == Some(i)
  {
    hide Split; hide Pack;
    KindsAre(SlotOf(i));
    assert (SlotOf(i) - PIM_CMD_PAGE_BASE) / PIM_CMD_SLOT_SIZE == (SlotOf(i) - 0xfffe_f000) / 64;
    match i
    case NOP =>
    case Arith(_, rd, r0, r1) => SplitPack(rd, r0, r1, 0, 0);
    case MAC128(rd, acc, r0, r1) => SplitPack(rd, r0, r1, acc, 0);
    case ReLU(rd, r0) => SplitPack(rd, r0, 0, 0, 0);
    case LD128(rd, addr) => SplitPack(rd, 0, 0, 0, addr);
    case ST128(rs, addr) => SplitPack(rs, 0, 0, 0, addr);
    case LD32(rd, addr) => SplitPack(rd, 0, 0, 0, addr);
    case ST32(rs, addr) => SplitPack(rs, 0, 0, 0, addr);
  }

  /** What does not decode: a multiply-accumulate, or a load or store of a scalar, with a register number above 7. */
  lemma DecodesExactly(addr: u64, payload: Payload)
    requires KindOf(addr) == FgoInst
    ensures var f := Split(payload[0]);
            DecodePe(addr, payload) == None <==>
              || (addr == 0xfffe_f100 && (f.a >= 8 || f.d >= 8))
              || ((addr == 0xfffe_f200 || addr == 0xfffe_f240) && f.a >= 8)
  {
    hide Split;
    KindsAre(addr);
    var d := addr - PIM_CMD_PAGE_BASE;
    assert d % 64 == 0 && d == 64 * (d / 64);
  }
}
