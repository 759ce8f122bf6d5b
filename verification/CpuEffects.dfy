/** What the instructions of the CPU do, in numbers: residues, bits and addresses, and what a run of the
    pipeline therefore leaves in its registers. */
module CpuEffects {
  import opened Words
  import opened AguUnits
  import opened CpuTypes
  import opened CpuStages
  import opened CpuPipeline
  import opened Isa
  import opened CpuSteps
  import opened FetchMachine
  import opened WordBits
  import opened CpuRefinement
  import opened CpuRuns
  import M = TypedMemory

  // ---- lanes ----

  /** What one lane of a vector instruction is: below 2^32 and the sum, difference or product up to multiples
      of 2^32, or bit by bit the product of the operands' bits. */
  ghost predicate LaneIs(op: VecOp, a: u32, b: u32, r: u32) {
    r < 0x1_0000_0000 &&
    match op
    case ADD => (r - (a + b)) % 0x1_0000_0000 == 0
    case SUB => (r - (a - b)) % 0x1_0000_0000 == 0
    case MUL => (r - a * b) % 0x1_0000_0000 == 0
    case AND => forall k: nat :: k < 32 ==> BitAt(r, k) == BitAt(a, k) * BitAt(b, k)
  }

  /** A number is congruent to its remainder. */
  lemma RestIs(x: int)
    ensures (Wrap32(x) - x) % 0x1_0000_0000 == 0
  {
  }

  lemma LaneExact(op: VecOp, a: u32, b: u32)
    ensures LaneIs(op, a, b, LaneOp(op, a, b))
  {
    hide OfBits; hide Bits; hide BitAnd; hide Wrap32; hide BitAt;
    match op
    case ADD => RestIs(a + b);
    case SUB => RestIs(a - b);
    case MUL => RestIs(a * b);
    case AND =>
      WordOf(a);
      WordOf(b);
      forall k: nat | k < 32 ensures BitAt(LaneOp(op, a, b), k) == BitAt(a, k) * BitAt(b, k) {
        AndBit(Bits(a), Bits(b), k);
      }
  }

  lemma OneRest(x: int, r: u32, s: u32)
    requires (r - x) % 0x1_0000_0000 == 0 && (s - x) % 0x1_0000_0000 == 0
    ensures r == s
  {
    assert r - s == (r - x) - (s - x);
  }

  /** These conditions leave no choice. */
  lemma LaneUnique(op: VecOp, a: u32, b: u32, r: u32, s: u32)
    requires LaneIs(op, a, b, r) && LaneIs(op, a, b, s)
    ensures r == s
  {
    hide BitAt;
    match op
    case ADD => OneRest(a + b, r, s);
    case SUB => OneRest(a - b, r, s);
    case MUL => OneRest(a * b, r, s);
    case AND => AndUnique(a, b, r, s);
  }

  lemma AndUnique(a: u32, b: u32, r: u32, s: u32)
    requires LaneIs(AND, a, b, r) && LaneIs(AND, a, b, s)
    ensures r == s
  {
    hide BitAt;
    Pow31();
    forall k: nat | k < 32 ensures BitAt(r, k) == BitAt(s, k) {
      assert BitAt(r, k) == BitAt(a, k) * BitAt(b, k);
    }
    SameBits(r, s, 32);
  }

  /** All four lanes. */
  ghost predicate VectorIs(op: VecOp, a: Vec4, b: Vec4, r: Vec4) {
    && LaneIs(op, a.x0, b.x0, r.x0) && LaneIs(op, a.x1, b.x1, r.x1)
    && LaneIs(op, a.x2, b.x2, r.x2) && LaneIs(op, a.x3, b.x3, r.x3)
  }

  lemma VectorExact(op: VecOp, a: Vec4, b: Vec4)
    ensures VectorIs(op, a, b, Lanes4(op, a, b))
  {
    hide LaneOp; hide LaneIs;
    LaneExact(op, a.x0, b.x0);
    LaneExact(op, a.x1, b.x1);
    LaneExact(op, a.x2, b.x2);
    LaneExact(op, a.x3, b.x3);
  }

  // ---- pointers ----

  /** The entry a pointer reaches: it lies in the buffer of its tag. */
  predicate Reaches(t: AguTable, p: Option<FatPtr>) {
    && p.Some? && p.value.tag < 16 && p.value.offset < 0x1000_0000
    && p.value.tag in t && t[p.value.tag].Ent? && p.value.offset < t[p.value.tag].bound
  }

  function Target(t: AguTable, p: Option<FatPtr>): u32
    requires Reaches(t, p)
  {
    (t[p.value.tag].base + p.value.offset) % 0x1_0000_0000
  }

  /** An offset may not be moved below one. */
  predicate Moves(t: AguTable, pop: PtrOp, p: Option<FatPtr>, x: Vec4, idx: u8) {
    && p.Some? && p.value.tag < 16 && p.value.offset < 0x1000_0000 && idx < 4
    && (pop == PSUB ==> p.value.offset > [x.x0, x.x1, x.x2, x.x3][idx])
    && Reaches(t, Some(FatPtr(p.value.tag, Moved(pop, p.value.offset, [x.x0, x.x1, x.x2, x.x3][idx]))))
  }

  function Moved(pop: PtrOp, offset: u32, lane: u32): u32 {
    (if pop == PADD then offset + lane else offset - lane) % 0x1_0000_0000
  }

  // ---- the effect of an instruction ----

  /** Every register but `rd` keeps its value, and register 0 keeps it always. */
  ghost predicate OnlyV(v: VRegs, w: VRegs, rd: Reg) {
    forall r: Reg :: r != rd || r == 0 ==> w[r] == v[r]
  }

  ghost predicate OnlyF(f: FRegs, g: FRegs, frd: Reg) {
    forall r: Reg :: r != frd ==> g[r] == f[r]
  }

  /** A load: the access is recorded, the entry is claimed, and unless the read is refused the register
      gets what the memory holds. */
  ghost predicate LoadIs(d: Data, e: Data, a: u32, ty: M.Ty, r: Reg) {
    var (x, m) := M.Read(d.mem, a, ty);
    && e.mem == m && e.trace == d.trace + [Access(a / 4, true)]
    && match x
       case None => e.v == d.v && e.f == d.f && e.status == Faulted
       case Some(XPtr(p)) => e.v == d.v && OnlyF(d.f, e.f, r) && e.f[r] == Some(p) && e.status == d.status
       case Some(XData(y)) => e.f == d.f && OnlyV(d.v, e.v, r) && (r != 0 ==> e.v[r] == y) && e.status == d.status
       case _ => false
  }

  ghost predicate StoreIs(d: Data, e: Data, a: u32, x: M.Val) {
    e == d.(mem := M.Write(d.mem, a, x).1, trace := d.trace + [Access(a / 4, false)])
  }

  /** The effect of one instruction on registers, memory, access sequence and status. */
  ghost predicate Effect(t: AguTable, i: Inst, d: Data, e: Data) {
    var fault := e == d.(status := Faulted);
    match i
    case NOP => e == d
    case JUMP(_) => e == d
    case EqualExit(rd, rs1) => e == d.(status := if d.v[rd] == d.v[rs1] then Exited else d.status)
    case Vec128(op, rd, rs1, rs2) =>
      e == d.(v := e.v) && OnlyV(d.v, e.v, rd) && (rd != 0 ==> VectorIs(op, d.v[rs1], d.v[rs2], e.v[rd]))
    case LD128(rd, frs) =>
      if Reaches(t, d.f[frs]) then LoadIs(d, e, Target(t, d.f[frs]), M.TData, rd) else fault
    case FatPtrLD(frd, frs) =>
      if Reaches(t, d.f[frs]) then LoadIs(d, e, Target(t, d.f[frs]), M.TPtr, frd) else fault
    case ST128(rs, frd) =>
      if Reaches(t, d.f[frd]) then StoreIs(d, e, Target(t, d.f[frd]), M.XData(d.v[rs])) else fault
    case FatPtrST(frd, frs) =>
      if Reaches(t, d.f[frd]) && d.f[frs].Some? then StoreIs(d, e, Target(t, d.f[frd]), M.XPtr(d.f[frs].value))
      else fault
    case FatPtrArith(pop, frd, frs, rs1, idx) =>
      if Moves(t, pop, d.f[frs], d.v[rs1], idx) then
        var lane := [d.v[rs1].x0, d.v[rs1].x1, d.v[rs1].x2, d.v[rs1].x3][idx];
        && e == d.(f := e.f) && OnlyF(d.f, e.f, frd)
        && e.f[frd] == Some(FatPtr(d.f[frs].value.tag, Moved(pop, d.f[frs].value.offset, lane)))
      else fault
  }

  lemma ReachesExactly(t: AguTable, p: Option<FatPtr>)
    ensures Reaches(t, p) <==> p.Some? && Translate(t, p.value) != None
    ensures Reaches(t, p) ==> Translate(t, p.value) == Some(Target(t, p))
  {
  }

  lemma MovesExactly(t: AguTable, pop: PtrOp, p: FatPtr, x: Vec4, idx: u8)
    ensures var q := PtrArith(t, pop, p, x, idx);
            if Moves(t, pop, Some(p), x, idx) then
              q == Some(FatPtr(p.tag, Moved(pop, p.offset, [x.x0, x.x1, x.x2, x.x3][idx])))
            else q == None
  {
  }

  lemma LoadExact(d: Data, a: u32, r: Reg)
    ensures LoadIs(d, LoadVec(Touch(d, a, true), r, a), a, M.TData, r)
    ensures LoadIs(d, LoadPtr(Touch(d, a, true), r, a), a, M.TPtr, r)
  {
  }

  lemma EffectExact(t: AguTable, i: Inst, d: Data)
    ensures Effect(t, i, d, Exec(t, i, d))
  {
    hide Lanes4; hide VectorIs; hide Reaches; hide Translate; hide Moves; hide PtrArith; hide Target; hide Moved;
    hide LoadVec; hide LoadPtr; hide LoadIs;
    match i
    case Vec128(op, rd, rs1, rs2) => VectorExact(op, d.v[rs1], d.v[rs2]);
    case LD128(rd, frs) => PointerExact(t, d, frs, rd);
    case FatPtrLD(frd, frs) => PointerExact(t, d, frs, frd);
    case ST128(rs, frd) => PointerExact(t, d, frd, rs);
    case FatPtrST(frd, frs) => PointerExact(t, d, frd, frs);
    case FatPtrArith(pop, frd, frs, rs1, idx) =>
      if d.f[frs].Some? {
        MovesExactly(t, pop, d.f[frs].value, d.v[rs1], idx);
      } else {
        NoPointerMoves(t, pop, d.v[rs1], idx);
      }
    case _ =>
  }

  lemma NoPointerMoves(t: AguTable, pop: PtrOp, x: Vec4, idx: u8)
    ensures !Moves(t, pop, None, x, idx)
  {
  }

  lemma PointerExact(t: AguTable, d: Data, frs: Reg, r: Reg)
    ensures Reaches(t, d.f[frs]) <==> AddrOf(t, d, frs).Some?
    ensures Reaches(t, d.f[frs]) ==> AddrOf(t, d, frs) == Some(Target(t, d.f[frs]))
    ensures Reaches(t, d.f[frs]) ==>
              var a := Target(t, d.f[frs]);
              && LoadIs(d, LoadVec(Touch(d, a, true), r, a), a, M.TData, r)
              && LoadIs(d, LoadPtr(Touch(d, a, true), r, a), a, M.TPtr, r)
  {
    hide Reaches; hide Translate; hide LoadVec; hide LoadPtr; hide LoadIs; hide Touch; hide Target;
    ReachesExactly(t, d.f[frs]);
    if Reaches(t, d.f[frs]) {
      LoadExact(d, Target(t, d.f[frs]), r);
    }
  }

  // ---- what a run leaves ----

  /** The machine before the k-th fetch, and the instruction it fetches. */
  ghost function Before(c0: Cpu, k: nat): Arch {
    FetchSteps(c0.prog, Abs(c0, []), k).arch
  }

  ghost function Fetched(c0: Cpu, k: nat): Inst {
    Fetch(c0.prog.imem, Before(c0, k).pc)
  }

  lemma {:induction false} RunsSoFar(c0: Cpu, k: nat, n: nat)
    requires k <= n && Before(c0, n).d.status == Running
    ensures Before(c0, k).d.status == Running
    ensures k < n ==> Effect(c0.prog.agu, Fetched(c0, k), Before(c0, k).d, Before(c0, k + 1).d)
  {
    hide Exec; hide Effect; hide Abs;
    if k < n {
      if k + 1 < n {
        RunsSoFar(c0, k, n - 1);
      }
      EffectExact(c0.prog.agu, Fetched(c0, k), Before(c0, k).d);
    }
  }

  /** After any run without faults, exits and panics, once nothing is in flight: registers, memory and
      requests are the outcome of the fetched instructions' effects, one after the other. */
  lemma RunComputes(c0: Cpu, r: Trace, n: nat, k: nat)
    requires Inv(c0, []) && Regular(c0, r, n) && Occupied(r.states[n].cpu.core) == 0 && k < r.states[n].fetched
    ensures var c := r.states[n].cpu.core;
            Before(c0, r.states[n].fetched).d == Data(c.rf.v, c.rf.f, c.mem, r.states[n].log, Running)
    ensures Effect(c0.prog.agu, Fetched(c0, k), Before(c0, k).d, Before(c0, k + 1).d)
  {
    hide Inv; hide Abs; hide Effect; hide FetchSteps; hide PendingAccesses; hide Smooth; hide Allowed; hide RunOne;
    RunFetches(c0, r, n);
    EmptyIsArchitectural(r.states[n].cpu, r.states[n].log);
    RunsSoFar(c0, k, r.states[n].fetched);
  }

  /** The instruction writes vector register `rd`. */
  predicate WritesV(i: Inst, rd: Reg) {
    (i.Vec128? || i.LD128?) && i.rd == rd
  }

  lemma {:induction false} Unwritten(c0: Cpu, rd: Reg, k: nat, n: nat)
    requires k <= n && Before(c0, n).d.status == Running
    requires forall j :: k <= j < n ==> !WritesV(Fetched(c0, j), rd)
    ensures Before(c0, n).d.v[rd] == Before(c0, k).d.v[rd]
  {
    hide Before; hide Fetched; hide VectorIs; hide Reaches; hide Moves;
    if k < n {
      RunsSoFar(c0, n - 1, n);
      Unwritten(c0, rd, k, n - 1);
      assert !WritesV(Fetched(c0, n - 1), rd);
    }
  }

  /** The value a run leaves in a vector register: if the k-th fetched instruction adds, subtracts,
      multiplies or ands into `rd` and no later one writes `rd`, then once nothing is in flight every lane of
      `rd` is the sum, difference, product or bitwise product of the operands at that point of the
      sequential execution. */
  lemma RunLeaves(c0: Cpu, r: Trace, n: nat, k: nat)
    requires Inv(c0, []) && Regular(c0, r, n) && Occupied(r.states[n].cpu.core) == 0 && k < r.states[n].fetched
    requires Fetched(c0, k).Vec128? && Fetched(c0, k).rd != 0
    requires forall j :: k < j < r.states[n].fetched ==> !WritesV(Fetched(c0, j), Fetched(c0, k).rd)
    ensures var i, d := Fetched(c0, k), Before(c0, k).d;
            VectorIs(i.op, d.v[i.rs1], d.v[i.rs2], r.states[n].cpu.core.rf.v[i.rd])
  {
    hide Inv; hide Before; hide Fetched; hide AllSmooth; hide AllAllowed; hide VectorIs; hide RunOne; hide WritesV;
    RunComputes(c0, r, n, k);
    Unwritten(c0, Fetched(c0, k).rd, k + 1, r.states[n].fetched);
  }
}
