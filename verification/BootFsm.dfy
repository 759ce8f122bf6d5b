/** The boot controller: reads the descriptor table and the program through the DRAM, then starts. */
module BootFsm {
  import opened Words
  import opened DramPortals
  import opened FlatMemory
  import opened AguUnits
  import opened CpuTypes

  const DESCRIPTORS_PER_CHUNK := 2
  const AGU_TABLE_CHUNKS := 8
  const MAX_PROGRAM_CHUNKS := 512
  const PSEUDO_BANK_ENTRIES := 0x40_0000
  const PSEUDO_BANK_CACHELINES := 0x10_0000

  /** `Aborted` stands for the fatal exits of the process. */
  datatype BootState =
    | Idle | AguSubmit | AguStall | ReadInsts | ImemSubmit | ImemStall | Finished | Aborted

  datatype Boot = Boot(st: BootState, pending: seq<DramReq>, base: u32, chunks: u32)

  const NEW_BOOT: Boot := Boot(Idle, [], 0, 0)

  /** What the controller works on: flat memory, descriptor table, program and pointer registers. */
  datatype Loaded = Loaded(mem: Mem, agu: AguTable, imem: seq<Inst>, f: FRegs)

  function SetOn(b: Boot): (bool, Boot) {
    if b.st != Idle then (false, b) else (true, b.(st := AguSubmit))
  }

  // ---- reading a range of chunks ----

  function ChunkReq(chunk: u32): DramReq {
    NewReq(chunk / ENTRIES_PER_CACHELINE, true, true)
  }

  function ChunkReqs(first: u32, count: u32): seq<DramReq>
    requires first + count < 0x1_0000_0000
  {
    seq(count, i requires 0 <= i < count => ChunkReq(first + i))
  }

  function Reversed<T>(s: seq<T>): (r: seq<T>)
    ensures |r| == |s|
    ensures forall i :: 0 <= i < |s| ==> r[i] == s[|s| - 1 - i]
  {
    if s == [] then [] else Reversed(s[1..]) + [s[0]]
  }

  /** The stack is filled in reverse, so that it is emptied in ascending order. */
  function SubmitChunks(b: Boot, port: Portal, first: u32, count: u32, next: BootState): (Boot, Portal) {
    if first + count >= 0x1_0000_0000 then (b.(st := Aborted), port)
    else
      var reqs := ChunkReqs(first, count);
      (b.(st := next, pending := reqs), port.(pimReq := port.pimReq + Reversed(reqs)))
  }

  /** The last element takes the place of the removed one. */
  function SwapRemove<T>(s: seq<T>, i: nat): (r: seq<T>)
    requires i < |s|
    ensures |r| == |s| - 1
  {
    if i == |s| - 1 then s[..i] else s[i := s[|s| - 1]][..|s| - 1]
  }

  /** Takes every response that a pending request is waiting for, from position `idx` on. */
  function TakeAll(pending: seq<DramReq>, idx: nat, port: Portal): (seq<DramReq>, Portal)
    requires idx <= |pending|
    decreases |pending| - idx
  {
    if idx == |pending| then (pending, port)
    else
      var (done, port') := port.TakeCompleted(pending[idx]);
      if done.Some? then TakeAll(SwapRemove(pending, idx), idx, port')
      else TakeAll(pending, idx + 1, port)
  }

  predicate PhaseDone(pending: seq<DramReq>, port: Portal) {
    port.Drained(PIM) && pending == []
  }

  // ---- the descriptor table ----

  /** Reading chunks as plain data claims their type; a chunk of another type is fatal. */
  function ReadChunks(m: Mem, first: u32, n: nat): (Option<seq<Vec4>>, Mem)
    requires first + n <= 0x1_0000_0000
  {
    if n == 0 then (Some([]), m)
    else
      var (before, m1) := ReadChunks(m, first, n - 1);
      if before == None then (None, m1)
      else
        var (w, m2) := ReadData(m1, first + (n - 1));
        if w == None then (None, m2) else (Some(before.value + [w.value]), m2)
  }

  /** Descriptor `id`: base and bound. */
  function Descriptor(words: seq<Vec4>, id: nat): (u32, u32)
    requires id < DESCRIPTORS_PER_CHUNK * |words|
  {
    var w := words[id / 2];
    if id % 2 == 0 then (w.x0, w.x1) else (w.x2, w.x3)
  }

  predicate DescriptorOk(d: (u32, u32)) {
    d.0 + d.1 <= PSEUDO_BANK_ENTRIES
  }

  predicate TableOk(words: seq<Vec4>) {
    forall id :: 0 <= id < DESCRIPTORS_PER_CHUNK * |words| ==> DescriptorOk(Descriptor(words, id))
  }

  function InstallTable(t: AguTable, words: seq<Vec4>, n: nat): AguTable
    requires n <= DESCRIPTORS_PER_CHUNK * |words| && n <= 0x100
  {
    if n == 0 then t
    else
      var d := Descriptor(words, n - 1);
      InstallTable(t, words, n - 1)[(n - 1) as u8 := Ent(d.0, d.1)]
  }

  const INITIAL_PTRS: FRegs :=
    [Some(FatPtr(0, 0)), Some(FatPtr(1, 0)), Some(FatPtr(2, 0)), Some(FatPtr(3, 0)),
     Some(FatPtr(4, 0)), Some(FatPtr(5, 0)), Some(FatPtr(6, 0)), Some(FatPtr(7, 0))]

  /** Nothing is installed unless every descriptor is in bounds. */
  function LoadAguTable(l: Loaded): (bool, Loaded) {
    var (words, m) := ReadChunks(l.mem, 0, AGU_TABLE_CHUNKS);
    if words == None || |words.value| != AGU_TABLE_CHUNKS || !TableOk(words.value) then (false, l.(mem := m))
    else (true, l.(mem := m, agu := InstallTable(l.agu, words.value, AGU_ENTRY_COUNT), f := INITIAL_PTRS))
  }

  // ---- the program ----

  function DecodeInst(encoded: u16): Option<Inst> {
    var opcode := encoded / 0x1000;
    var a: Reg := (encoded / 0x200) % 8;
    var b: Reg := (encoded / 0x40) % 8;
    var c: Reg := (encoded / 8) % 8;
    var d: Reg := encoded % 8;
    match opcode
    case 0 => Some(NOP)
    case 1 => Some(Vec128(ADD, a, b, c))
    case 2 => Some(Vec128(SUB, a, b, c))
    case 3 => Some(Vec128(MUL, a, b, c))
    case 4 => Some(Vec128(AND, a, b, c))
    case 5 => Some(LD128(a, b))
    case 6 => Some(ST128(a, b))
    case 7 => Some(FatPtrLD(a, b))
    case 8 => Some(FatPtrST(a, b))
    case 9 => Some(FatPtrArith(PADD, a, b, c, d))
    case 10 => Some(FatPtrArith(PSUB, a, b, c, d))
    case 11 => Some(JUMP(encoded % 0x1000))
    case 12 => Some(EqualExit(b, a))
    case _ => None
  }

  /** The two instructions of a word, low half first. */
  function WordHalves(w: u32): seq<u16> {
    [w % 0x1_0000, w / 0x1_0000]
  }

  function ChunkHalves(v: Vec4): seq<u16> {
    WordHalves(v.x0) + WordHalves(v.x1) + WordHalves(v.x2) + WordHalves(v.x3)
  }

  function Halves(words: seq<Vec4>): seq<u16> {
    if words == [] then [] else Halves(words[..|words| - 1]) + ChunkHalves(words[|words| - 1])
  }

  /** None if any half word is not an instruction. */
  function DecodeAll(halves: seq<u16>): Option<seq<Inst>> {
    if halves == [] then Some([])
    else
      var before := DecodeAll(halves[..|halves| - 1]);
      var last := DecodeInst(halves[|halves| - 1]);
      if before == None || last == None then None else Some(before.value + [last.value])
  }

  function LoadProgram(l: Loaded, first: u32, count: u32): (bool, Loaded) {
    if first + count >= 0x1_0000_0000 then (false, l)
    else
      var (words, m) := ReadChunks(l.mem, first, count);
      if words == None then (false, l.(mem := m))
      else
        var program := DecodeAll(Halves(words.value));
        if program == None then (false, l.(mem := m)) else (true, l.(mem := m, imem := program.value))
  }

  // ---- the tick ----

  function BootTick(b: Boot, l: Loaded, port: Portal): (Boot, Loaded, Portal) {
    match b.st
    case AguSubmit =>
      var (b', port') := SubmitChunks(b, port, 0, AGU_TABLE_CHUNKS, AguStall);
      (b', l, port')
    case AguStall =>
      var (pending, port') := TakeAll(b.pending, 0, port);
      if !PhaseDone(pending, port') then (b.(pending := pending), l, port')
      else
        var (ok, l') := LoadAguTable(l);
        (b.(pending := pending, st := if ok then ReadInsts else Aborted), l', port')
    case ReadInsts =>
      var e := GetEntry(l.agu, 0);
      if e == None || e.value.1 > MAX_PROGRAM_CHUNKS then (b.(st := Aborted), l, port)
      else (b.(base := e.value.0, chunks := e.value.1, st := ImemSubmit), l, port)
    case ImemSubmit =>
      var (b', port') := SubmitChunks(b, port, b.base, b.chunks, ImemStall);
      (b', l, port')
    case ImemStall =>
      var (pending, port') := TakeAll(b.pending, 0, port);
      if !PhaseDone(pending, port') then (b.(pending := pending), l, port')
      else
        var (ok, l') := LoadProgram(l, b.base, b.chunks);
        (b.(pending := pending, st := if ok then Finished else Aborted), l', port')
    case _ => (b, l, port)
  }
}
