/** Which host requests are commands: one cache line of the command page for every opcode. */
module RequestRouter {
  import opened Words

  const MEM_BEGIN := 0x8000_0000
  const PIM_CMD_PAGE_BASE := 0x1_7ffe_f000 - MEM_BEGIN
  const PIM_CMD_PAGE_END := 0x1_7ffe_ffff - MEM_BEGIN
  const PIM_CMD_SLOT_SIZE := 64

  datatype Kind = Memory | FgoInst | CgoStart | CgoQuery | CgoAlloc | FgoAlloc | Invalid

  /** The kind of a request depends on its address only; the payload holds operands. */
  function KindOf(addr: u64): Kind {
    if addr < PIM_CMD_PAGE_BASE || addr > PIM_CMD_PAGE_END then Memory
    else if (addr - PIM_CMD_PAGE_BASE) % PIM_CMD_SLOT_SIZE != 0 then Invalid
    else
      var opcode := (addr - PIM_CMD_PAGE_BASE) / PIM_CMD_SLOT_SIZE;
      if opcode < 10 then FgoInst
      else if opcode == 10 then CgoStart
      else if opcode == 11 then CgoQuery
      else if opcode == 12 then CgoAlloc
      else if opcode == 13 then FgoAlloc
      else Invalid
  }

  /** Commands that are broadcast to engines. */
  predicate IsBroadcast(addr: u64) {
    KindOf(addr) == FgoInst || KindOf(addr) == CgoStart || KindOf(addr) == CgoQuery
  }

  /** A query reads, every other command writes. */
  predicate ExpectsWrite(k: Kind) {
    k != CgoQuery
  }

  /** The addresses of the commands: a page of 4096 bytes, one slot of 64 bytes for each of ten PE instructions,
      the start, the query and the two allocations. */
  lemma KindsAre(addr: u64)
    ensures KindOf(addr) == Memory <==> addr < 0xfffe_f000 || addr >= 0xffff_0000
    ensures KindOf(addr) == FgoInst <==> 0xfffe_f000 <= addr < 0xfffe_f280 && addr % 64 == 0
    ensures KindOf(addr) == CgoStart <==> addr == 0xfffe_f280
    ensures KindOf(addr) == CgoQuery <==> addr == 0xfffe_f2c0
    ensures KindOf(addr) == CgoAlloc <==> addr == 0xfffe_f300
    ensures KindOf(addr) == FgoAlloc <==> addr == 0xfffe_f340
  {
    var d := addr - PIM_CMD_PAGE_BASE;
    if d >= 0 {
      assert d % 64 == addr % 64 && d == 64 * (d / 64) + d % 64;
    }
  }
}
