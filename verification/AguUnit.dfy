/** The address generation unit: bound-checked descriptors addressed by fat pointers. */
module AguUnits {
  import opened Words

  const AGU_ENTRY_COUNT := 16
  const BOUND_LIMIT := 0x1000_0000

  datatype AguEntry = NA | Ent(base: u32, bound: u32)

  type AguTable = map<u8, AguEntry>

  /** Both fields fit their bit widths; the accessors of a fat pointer panic otherwise. */
  predicate InRange(p: FatPtr) {
    p.tag < AGU_ENTRY_COUNT && p.offset < BOUND_LIMIT
  }

  predicate Accept(t: AguTable, p: FatPtr) {
    InRange(p) && p.tag in t && t[p.tag].Ent? && p.offset < t[p.tag].bound
  }

  function Translate(t: AguTable, p: FatPtr): Option<u32> {
    if Accept(t, p) then Some(Wrap32(t[p.tag].base + p.offset)) else None
  }

  function Addition(t: AguTable, p: FatPtr, vec: Vec4, idx: u8): Option<FatPtr> {
    if idx >= 4 || !InRange(p) then None
    else
      var q := FatPtr(p.tag, Wrap32(p.offset + vec.Lane(idx)));
      if Accept(t, q) then Some(q) else None
  }

  function Subtraction(t: AguTable, p: FatPtr, vec: Vec4, idx: u8): Option<FatPtr> {
    if idx >= 4 || !InRange(p) || p.offset <= vec.Lane(idx) then None
    else
      var q := FatPtr(p.tag, p.offset - vec.Lane(idx));
      if Accept(t, q) then Some(q) else None
  }

  function GetEntry(t: AguTable, id: u8): Option<(u32, u32)> {
    if id < AGU_ENTRY_COUNT && id in t && t[id].Ent? then Some((t[id].base, t[id].bound)) else None
  }

  class AguUnit {
    var table: AguTable

    constructor ()
      ensures table == map[]
    {
      table := map[];
    }

    method Insert(id: u8, base: u32, bound: u32)
      requires id < AGU_ENTRY_COUNT && bound < BOUND_LIMIT
      modifies this
      ensures table == old(table)[id := Ent(base, bound)]
    {
      table := table[id := Ent(base, bound)];
    }
  }
}
