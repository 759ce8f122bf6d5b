/** What the instructions of the PE do, in numbers, and what a run therefore leaves in its registers. */
module PeEffects {
  import opened Words
  import opened FlatMemory
  import opened PeTypes
  import opened PePipeline
  import opened PeRefinement
  import M = TypedMemory

  // ---- the ALU ----

  /** One lane of a vector instruction: in the range of 16 bits, and the sum, difference or product up to
      multiples of 2^16. */
  ghost predicate LaneIs(op: ArithOp, a: i16, b: i16, r: i16) {
    -0x8000 <= r < 0x8000 &&
    match op
    case ADD => (r - (a + b)) % 0x1_0000 == 0
    case SUB => (r - (a - b)) % 0x1_0000 == 0
    case MUL => (r - a * b) % 0x1_0000 == 0
  }

  ghost predicate VectorIs(op: ArithOp, a: Vec8, b: Vec8, r: Vec8) {
    forall i :: 0 <= i < 8 ==> LaneIs(op, a[i], b[i], r[i])
  }

  /** Not negative, not below the lane, and one of the two. */
  ghost predicate ReluIs(a: Vec8, r: Vec8) {
    forall i :: 0 <= i < 8 ==> r[i] >= 0 && r[i] >= a[i] && (r[i] == 0 || r[i] == a[i])
  }

  /** The dot product, written out. */
  function Dot(a: seq<int>, b: seq<int>): int
    requires |a| == 8 && |b| == 8
  {
    a[0] * b[0] + a[1] * b[1] + a[2] * b[2] + a[3] * b[3] + a[4] * b[4] + a[5] * b[5] + a[6] * b[6] + a[7] * b[7]
  }

  ghost predicate MacIs(acc: i32, a: Vec8, b: Vec8, r: i32) {
    -0x8000_0000 <= r < 0x8000_0000 && (r - (acc + Dot(a, b))) % 0x1_0000_0000 == 0
  }

  lemma Rest16(x: int)
    ensures (Signed16(x) - x) % 0x1_0000 == 0
  {
    var q := (x + 0x8000) / 0x1_0000;
    assert Signed16(x) - x == -q * 0x1_0000;
  }

  lemma Rest32(x: int)
    ensures (Signed32(x) - x) % 0x1_0000_0000 == 0
  {
    var q := (x + 0x8000_0000) / 0x1_0000_0000;
    assert Signed32(x) - x == -q * 0x1_0000_0000;
  }

  lemma LaneExact(op: ArithOp, a: i16, b: i16)
    ensures LaneIs(op, a, b, Lane16(op, a, b))
  {
    hide Signed16;
    Rest16(a + b);
    Rest16(a - b);
    Rest16(a * b);
  }

  lemma VectorExact(op: ArithOp, a: Vec8, b: Vec8)
    ensures VectorIs(op, a, b, Zip(op, a, b))
  {
    hide LaneIs; hide Lane16;
    forall i | 0 <= i < 8 ensures LaneIs(op, a[i], b[i], Zip(op, a, b)[i]) {
      LaneExact(op, a[i], b[i]);
    }
  }

  lemma ReluExact(a: Vec8)
    ensures ReluIs(a, ReluVec(a))
  {
  }

  lemma DotExact(a: Vec8, b: Vec8)
    ensures ExactDot(a, b, 8) == Dot(a, b)
  {
    hide Product;
    ProductsAre(a, b);
    assert ExactDot(a, b, 0) == 0;
    assert ExactDot(a, b, 2) == Product(a[0], b[0]) + Product(a[1], b[1]);
    assert ExactDot(a, b, 4) == ExactDot(a, b, 2) + Product(a[2], b[2]) + Product(a[3], b[3]);
    assert ExactDot(a, b, 6) == ExactDot(a, b, 4) + Product(a[4], b[4]) + Product(a[5], b[5]);
    assert ExactDot(a, b, 8) == ExactDot(a, b, 6) + Product(a[6], b[6]) + Product(a[7], b[7]);
  }

  lemma ProductsAre(a: seq<int>, b: seq<int>)
    requires |a| == 8 && |b| == 8 && (forall i :: 0 <= i < 8 ==> -0x8000 <= a[i] < 0x8000 && -0x8000 <= b[i] < 0x8000)
    ensures forall i :: 0 <= i < 8 ==> Product(a[i], b[i]) == a[i] * b[i]
  {
  }

  lemma MacExactly(acc: i32, a: Vec8, b: Vec8)
    ensures MacIs(acc, a, b, Mac32(acc, a, b))
  {
    hide Signed32; hide Mac32; hide ExactDot; hide Dot;
    MacIsExact(acc, a, b);
    DotExact(a, b);
    Rest32(acc + Dot(a, b));
  }

  // ---- the effect of an instruction ----

  /** Register 0 reads as zero. */
  function V(v: VFile, r: VId): Vec8 {
    if r == 0 then [0, 0, 0, 0, 0, 0, 0, 0] else v[r]
  }

  function S(s: SFile, r: SId): i32 {
    if r == 0 then 0 else s[r]
  }

  /** Every register but `rd` keeps its value, and register 0 keeps it always. */
  ghost predicate OnlyV(v: VFile, w: VFile, rd: VId) {
    forall r: VId :: r != rd || r == 0 ==> w[r] == v[r]
  }

  ghost predicate OnlyS(s: SFile, t: SFile, rd: SId) {
    forall r: SId :: r != rd || r == 0 ==> t[r] == s[r]
  }

  /** The effect of one instruction; a refused load leaves its register alone, a refused store the memory. */
  ghost predicate Effect(i: PeInst, d: PeState, e: PeState) {
    match i
    case NOP => e == d
    case Arith(op, rd, r0, r1) =>
      e == d.(v := e.v) && OnlyV(d.v, e.v, rd) && (rd != 0 ==> VectorIs(op, V(d.v, r0), V(d.v, r1), e.v[rd]))
    case ReLU(rd, r0) => e == d.(v := e.v) && OnlyV(d.v, e.v, rd) && (rd != 0 ==> ReluIs(V(d.v, r0), e.v[rd]))
    case MAC128(rd, acc, r0, r1) =>
      e == d.(s := e.s) && OnlyS(d.s, e.s, rd) && (rd != 0 ==> MacIs(S(d.s, acc), V(d.v, r0), V(d.v, r1), e.s[rd]))
    case LD128(rd, a) =>
      var (x, m) := M.Read(d.mem, a, M.TVector);
      && e == d.(v := e.v, mem := m) && OnlyV(d.v, e.v, rd)
      && (rd != 0 ==> if x.Some? then x.value == M.XVector(e.v[rd]) else e.v[rd] == d.v[rd])
    case LD32(rd, a) =>
      var (x, m) := M.Read(d.mem, a, M.TScalar);
      && e == d.(s := e.s, mem := m) && OnlyS(d.s, e.s, rd)
      && (rd != 0 ==> if x.Some? then x.value == M.XScalar(e.s[rd]) else e.s[rd] == d.s[rd])
    case ST128(rs, a) => e == d.(mem := M.Write(d.mem, a, M.XVector(V(d.v, rs))).1)
    case ST32(rs, a) => e == d.(mem := M.Write(d.mem, a, M.XScalar(S(d.s, rs))).1)
  }

  lemma EffectExact(i: PeInst, d: PeState)
    ensures Effect(i, d, Exec(i, d))
  {
    hide Zip; hide VectorIs; hide ReluVec; hide ReluIs; hide Mac32; hide MacIs;
    match i
    case Arith(op, rd, r0, r1) => VectorExact(op, V(d.v, r0), V(d.v, r1));
    case ReLU(rd, r0) => ReluExact(V(d.v, r0));
    case MAC128(rd, acc, r0, r1) => MacExactly(S(d.s, acc), V(d.v, r0), V(d.v, r1));
    case _ =>
  }

  // ---- what a run leaves ----

  /** The state of the sequential machine before the j-th thing that happened. */
  function Before(h: seq<Happened>, j: nat): PeState
    requires j <= |h|
  {
    Spec(h[..j])
  }

  predicate WritesV(x: Happened, rd: VId) {
    x.Retired? && (x.inst.Arith? || x.inst.ReLU? || x.inst.LD128?) && x.inst.vrd == rd
  }

  predicate WritesS(x: Happened, rd: SId) {
    x.Retired? && (x.inst.MAC128? || x.inst.LD32?) && x.inst.srd == rd
  }

  lemma OneHappens(h: seq<Happened>, j: nat)
    requires j < |h|
    ensures Before(h, j + 1) == Then(Before(h, j), h[j])
    ensures h[j].Retired? ==> Effect(h[j].inst, Before(h, j), Before(h, j + 1))
  {
    hide Exec; hide Effect;
    assert h[..j + 1][..j] == h[..j];
    if h[j].Retired? {
      EffectExact(h[j].inst, Before(h, j));
    }
  }

  lemma {:induction false} UnwrittenV(h: seq<Happened>, rd: VId, j: nat, n: nat)
    requires j <= n <= |h| && forall i :: j <= i < n ==> !WritesV(h[i], rd)
    ensures Before(h, n).v[rd] == Before(h, j).v[rd]
  {
    hide Before; hide VectorIs; hide ReluIs; hide MacIs; hide Exec; hide MirrorLine;
    if j < n {
      UnwrittenV(h, rd, j, n - 1);
      OneHappens(h, n - 1);
      assert !WritesV(h[n - 1], rd);
    }
  }

  lemma {:induction false} UnwrittenS(h: seq<Happened>, rd: SId, j: nat, n: nat)
    requires j <= n <= |h| && forall i :: j <= i < n ==> !WritesS(h[i], rd)
    ensures Before(h, n).s[rd] == Before(h, j).s[rd]
  {
    hide Before; hide VectorIs; hide ReluIs; hide MacIs; hide Exec; hide MirrorLine;
    if j < n {
      UnwrittenS(h, rd, j, n - 1);
      OneHappens(h, n - 1);
      assert !WritesS(h[n - 1], rd);
    }
  }

  /** The value of a vector instruction of the ALU, from the state before it. */
  ghost predicate Computes(i: PeInst, d: PeState, x: Vec8) {
    match i
    case Arith(op, _, r0, r1) => VectorIs(op, V(d.v, r0), V(d.v, r1), x)
    case ReLU(_, r0) => ReluIs(V(d.v, r0), x)
    case _ => false
  }

  /** The values a run leaves in the vector registers: what the instruction that wrote a register last
      computes from the registers of the sequential execution at that point, in numbers. */
  lemma RunLeavesV(r: Trace, n: nat, j: nat)
    requires IsRun(r) && n <= |r.evs|
    requires var h := r.states[n].hist;
             && j < |h| && h[j].Retired? && (h[j].inst.Arith? || h[j].inst.ReLU?) && h[j].inst.vrd != 0
             && forall i :: j < i < |h| ==> !WritesV(h[i], h[j].inst.vrd)
    ensures var h := r.states[n].hist;
            Computes(h[j].inst, Before(h, j), r.states[n].pe.st.v[h[j].inst.vrd])
  {
    hide Before; hide VectorIs; hide ReluIs; hide MacIs; hide Exec; hide Executed; hide Insts; hide Accesses;
    hide Requests; hide Panics; hide RunOne; hide QueueOk; hide LatchOk; hide BookOk; hide V;
    PeRefines(r, n);
    var h := r.states[n].hist;
    OneHappens(h, j);
    UnwrittenV(h, h[j].inst.vrd, j + 1, |h|);
    WholeHistory(h);
  }

  lemma WholeHistory(h: seq<Happened>)
    ensures Before(h, |h|) == Spec(h)
  {
    assert h[..|h|] == h;
  }

  /** The same for the scalar registers. */
  lemma RunLeavesS(r: Trace, n: nat, j: nat)
    requires IsRun(r) && n <= |r.evs|
    requires var h := r.states[n].hist;
             && j < |h| && h[j].Retired? && h[j].inst.MAC128? && h[j].inst.srd != 0
             && forall i :: j < i < |h| ==> !WritesS(h[i], h[j].inst.srd)
    ensures var h := r.states[n].hist;
            var i, d := h[j].inst, Before(h, j);
            MacIs(S(d.s, i.srs0), V(d.v, i.vrs0), V(d.v, i.vrs1), r.states[n].pe.st.s[i.srd])
  {
    hide Before; hide VectorIs; hide ReluIs; hide MacIs; hide Exec; hide Executed; hide Insts; hide Accesses;
    hide Requests; hide Panics; hide RunOne; hide QueueOk; hide LatchOk; hide BookOk; hide V; hide S;
    PeRefines(r, n);
    var h := r.states[n].hist;
    OneHappens(h, j);
    UnwrittenS(h, h[j].inst.srd, j + 1, |h|);
    WholeHistory(h);
  }

  lemma {:induction false} ZeroInHistory(h: seq<Happened>, n: nat)
    requires n <= |h|
    ensures Before(h, n).v[0] == [0, 0, 0, 0, 0, 0, 0, 0] && Before(h, n).s[0] == 0
  {
    hide VectorIs; hide ReluIs; hide MacIs; hide Exec; hide MirrorLine;
    if n == 0 {
      assert h[..0] == [];
    } else {
      ZeroInHistory(h, n - 1);
      OneHappens(h, n - 1);
    }
  }

  /** Register 0 of either file holds zero in every run. */
  lemma ZeroRegisters(r: Trace, n: nat)
    requires IsRun(r) && n <= |r.evs|
    ensures r.states[n].pe.st.v[0] == [0, 0, 0, 0, 0, 0, 0, 0] && r.states[n].pe.st.s[0] == 0
  {
    hide Executed; hide Insts; hide Accesses; hide Requests; hide Panics; hide RunOne; hide QueueOk; hide LatchOk;
    hide BookOk; hide Before;
    PeRefines(r, n);
    ZeroInHistory(r.states[n].hist, |r.states[n].hist|);
    WholeHistory(r.states[n].hist);
  }

  // ---- the flag the scheduler asks for ----

  /** An instruction has retired since the flag was last read. */
  function RetiredSince(r: Trace, n: nat): bool
    requires |r.states| == |r.evs| + 1 && n <= |r.evs|
  {
    n > 0 && !r.evs[n - 1].AskFinished?
    && (RetiredSince(r, n - 1) || r.states[n].retired > r.states[n - 1].retired)
  }

  lemma OneFinishes(s: RunState, ev: Event)
    ensures RunOne(s, ev).pe.finished ==
            (!ev.AskFinished? && (s.pe.finished || RunOne(s, ev).retired > s.retired))
  {
    hide EvalEX; hide StopDecision; hide ApplyAll; hide EvalISSUE; hide MirrorLine;
  }

  /** The flag tells exactly that: no retirement is missed, and none is reported twice. */
  lemma {:induction false} FinishedTells(r: Trace, n: nat)
    requires IsRun(r) && n <= |r.evs|
    ensures r.states[n].pe.finished == RetiredSince(r, n)
  {
    hide RunOne;
    if n > 0 {
      FinishedTells(r, n - 1);
      assert Linked(r, n - 1);
      OneFinishes(r.states[n - 1], r.evs[n - 1]);
    }
  }
}
