/** One clock tick of the CPU as a function: arbitration, commit, latch update, pause handshake. */
module CpuPipeline {
  import opened Words
  import opened DramPortals
  import opened FlatMemory
  import opened CpuTypes
  import opened Scoreboard
  import opened CpuStages

  // ---- the external pause / resume handshake ----

  datatype PauseCtl = PauseCtl(
    requested: bool, ready: bool, pauseDelay: nat, resumeDelay: nat,
    remaining: nat, delayStarted: bool, resumePending: bool)

  const NO_PAUSE: PauseCtl := PauseCtl(false, true, 0, 0, 0, false, false)

  datatype Cpu = Cpu(
    prog: Program, core: Core, active: ActiveMap, lastWinner: Option<Reason>, pause: PauseCtl,
    started: bool, progEndSeen: bool, finished: bool)

  function SignalPause(c: Cpu): Cpu {
    c.(pause := c.pause.(
         requested := true, ready := false, delayStarted := false, remaining := 0, resumePending := false))
  }

  function ClearLast(w: Option<Reason>, r: Reason): Option<Reason> {
    if w.Some? && SameKind(w.value, r) then None else w
  }

  function ClearPauseSignal(c: Cpu): Cpu {
    c.(active := ClearActive(c.active, ExternalPause), lastWinner := ClearLast(c.lastWinner, ExternalPause))
  }

  /** With a resume delay the pause stays asserted until every delay cycle has been spent. */
  function SignalResume(c: Cpu): Cpu {
    var pending := c.pause.resumeDelay != 0;
    var c' := c.(pause := c.pause.(
                   delayStarted := false, remaining := c.pause.resumeDelay,
                   resumePending := pending, ready := !pending, requested := pending));
    if pending then c' else ClearPauseSignal(c')
  }

  function UpdateReady(p: PauseCtl, winner: Option<Reason>): PauseCtl {
    if p.resumePending then
      p.(remaining := if p.remaining > 0 then p.remaining - 1 else 0, ready := false)
    else if p.remaining > 0 then p.(remaining := p.remaining - 1, ready := false)
    else if !p.requested then p.(ready := true)
    else if !p.delayStarted && winner != Some(ExternalPause) then p.(ready := false)
    else
      var q := if p.delayStarted then p else p.(delayStarted := true, remaining := p.pauseDelay);
      if q.remaining > 0 then q.(remaining := q.remaining - 1, ready := false) else q.(ready := true)
  }

  function PrepareResume(c: Cpu): Cpu {
    if c.pause.resumePending && c.pause.remaining == 0 then
      ClearPauseSignal(c.(pause := c.pause.(resumePending := false, requested := false, ready := true)))
    else c
  }

  /** A requested pause masks the four younger stages, except for exceptions and program end. */
  function MaskReq(requested: bool, req: SignalReq): SignalReq {
    if req.reason == Exception || req.reason == ProgEnd || !requested then req
    else SignalReq(ExternalPause, req.issuer, None)
  }

  function MaskAct(requested: bool, req: SignalReq, act: ArchAction): ArchAction {
    if req.reason == Exception || req.reason == ProgEnd || !requested then act
    else if req.issuer == IF then HoldPC
    else DoNothing
  }

  // ---- what the six stages compute in one tick ----

  datatype Evals = Evals(
    wbReq: SignalReq, wbAct: ArchAction,
    mem: Eval<MemWb>, claimed: Mem,
    agu: Eval<AguMem>, ex: Eval<ExAgu>, id: Eval<IdEx>, iF: Eval<IfId>)

  function Masked<T>(requested: bool, e: Eval<T>): Eval<T> {
    Eval(e.next, MaskReq(requested, e.req), MaskAct(requested, e.req, e.act))
  }

  function EvalAll(prog: Program, c: Core, requested: bool): Evals {
    var (wbReq, wbAct) := EvalWB(c.memwb);
    var (mem, claimed) := EvalMEM(c.agumem, c.mem);
    Evals(wbReq, wbAct, mem, claimed,
          Masked(requested, EvalAGU(prog, c)), Masked(requested, EvalEX(c)),
          Masked(requested, EvalID(c.ifid, c.rf)), Masked(requested, EvalIF(prog, c.rf)))
  }

  function SubmitAll(m: ActiveMap, e: Evals): ActiveMap {
    var m1 := SubmitSignal(m, e.wbReq);
    var m2 := SubmitSignal(m1, e.mem.req);
    var m3 := SubmitSignal(m2, e.agu.req);
    var m4 := SubmitSignal(m3, e.ex.req);
    var m5 := SubmitSignal(m4, e.id.req);
    SubmitSignal(m5, e.iF.req)
  }

  // ---- commit ----

  datatype Commit = Commit(rf: Rf, mem: Mem, pcNext: u16)

  function IncPc(pc: u16): u16 {
    (pc + 1) % 0x1_0000
  }

  function Apply(s: Commit, a: ArchAction): Commit {
    match a
    case DoNothing => s
    case WritePC(p) => s.(pcNext := p)
    case HoldPC => s.(pcNext := s.rf.pc)
    case WriteVRF(rd, x) => s.(rf := s.rf.(v := WriteVReg(s.rf.v, rd, x)))
    case WriteFPTR(frd, p) => s.(rf := s.rf.(f := WriteFReg(s.rf.f, frd, p)))
    case WriteMemData(addr, x) => s.(mem := WriteData(s.mem, addr, x).1)
    case WriteMemPtr(addr, p) => s.(mem := WriteFptr(s.mem, addr, p).1)
  }

  function ApplyAll(s: Commit, acts: seq<ArchAction>): Commit {
    if acts == [] then s
    else Apply(ApplyAll(s, acts[..|acts| - 1]), acts[|acts| - 1])
  }

  function IsPcAct(a: ArchAction): bool {
    a.WritePC? || a.HoldPC?
  }

  /** A stage's action counts only when the stage runs normally. */
  function Taken(op: Action, a: ArchAction): ArchAction {
    if op == Normal then a else DoNothing
  }

  /** The collected actions; a stage that does not run contributes nothing. */
  function Collected(e: Evals, ops: Ops): seq<ArchAction> {
    [Taken(ops.wb, e.wbAct), Taken(ops.mem, e.mem.act), Taken(ops.agu, e.agu.act),
     Taken(ops.ex, e.ex.act), Taken(ops.id, e.id.act), Taken(ops.iF, e.iF.act), HoldIfIdle(e, ops)]
  }

  /** PC advances by default, so an IF stage that does not run must hold it. */
  function HoldIfIdle(e: Evals, ops: Ops): ArchAction {
    if ops.iF != Normal
       && !IsPcAct(Taken(ops.agu, e.agu.act)) && !IsPcAct(Taken(ops.ex, e.ex.act))
       && !IsPcAct(Taken(ops.id, e.id.act))
    then HoldPC else DoNothing
  }

  /** Committing the same destination twice in one tick is a panic. */
  predicate Duplicated(acts: seq<ArchAction>) {
    exists i, j :: 0 <= i < j < |acts| && Dest(acts[i]) != None && Dest(acts[i]) == Dest(acts[j])
  }

  function CommitAll(c: Core, e: Evals, ops: Ops): Commit {
    var s0 := Commit(c.rf, e.claimed, IncPc(c.rf.pc));
    var s1 := Apply(s0, Taken(ops.wb, e.wbAct));
    var s2 := Apply(s1, Taken(ops.mem, e.mem.act));
    var s3 := Apply(s2, Taken(ops.agu, e.agu.act));
    var s4 := Apply(s3, Taken(ops.ex, e.ex.act));
    var s5 := Apply(s4, Taken(ops.id, e.id.act));
    var s6 := Apply(s5, Taken(ops.iF, e.iF.act));
    Apply(s6, HoldIfIdle(e, ops))
  }

  // ---- latch update ----

  function StageOp(producer: Action, consumer: Action): Action {
    if consumer == Stall then Stall
    else if producer == Normal && consumer == Normal then Normal
    else Flush
  }

  function NextMemWb(c: Core, e: Evals, ops: Ops): MemWb {
    match StageOp(ops.mem, ops.wb)
    case Normal => e.mem.next
    case Stall => c.memwb
    case _ => c.memwb.(valid := false)
  }

  function NextFwd(c: Core, e: Evals, ops: Ops): MemWb {
    if StageOp(ops.mem, ops.wb) == Normal && e.mem.next.valid then e.mem.next else c.fwd
  }

  function NextAguMem(c: Core, e: Evals, ops: Ops): AguMem {
    match StageOp(ops.agu, ops.mem)
    case Normal => e.agu.next
    case Stall => c.agumem
    case _ => c.agumem.(valid := false)
  }

  function NextExAgu(c: Core, e: Evals, ops: Ops): ExAgu {
    match StageOp(ops.ex, ops.agu)
    case Normal => e.ex.next
    case Stall => c.exagu
    case _ => c.exagu.(valid := false)
  }

  function NextIdEx(c: Core, e: Evals, ops: Ops): IdEx {
    match StageOp(ops.id, ops.ex)
    case Normal => e.id.next
    case Stall => c.idex
    case _ => c.idex.(valid := false)
  }

  function NextIfId(c: Core, e: Evals, ops: Ops): IfId {
    match StageOp(ops.iF, ops.id)
    case Normal => e.iF.next
    case Stall => c.ifid
    case _ => c.ifid.(valid := false)
  }

  function NextCore(c: Core, e: Evals, ops: Ops): Core {
    var s := CommitAll(c, e, ops);
    Core(s.rf.(pc := s.pcNext), s.mem, NextIfId(c, e, ops), NextIdEx(c, e, ops), NextExAgu(c, e, ops),
         NextAguMem(c, e, ops), NextMemWb(c, e, ops), NextFwd(c, e, ops))
  }

  // ---- the tick ----

  function Decided(c: Cpu, port: Portal): Decision {
    Decide(SubmitAll(c.active, EvalAll(c.prog, c.core, c.pause.requested)), port)
  }

  /** A tick of an unfinished CPU. */
  function Run(c: Cpu, port: Portal): (Cpu, Portal) {
    var d := Decided(c, port);
    var core := NextCore(c.core, EvalAll(c.prog, c.core, c.pause.requested), d.ops);
    var seen := c.progEndSeen || d.winner == Some(ProgEnd);
    (Cpu(c.prog, core, d.active, d.winner, UpdateReady(c.pause, d.winner), c.started, seen,
         seen && !core.exagu.valid && !core.agumem.valid && !core.memwb.valid),
     d.port)
  }

  function Tick(c0: Cpu, port: Portal): (Cpu, Portal) {
    var c := PrepareResume(c0);
    if c.finished then (c, port) else Run(c, port)
  }

  /** The tick would panic: a pointer register that was never written, a pointer wider than its
      fields, or two commits to one destination. */
  ghost predicate Panics(c0: Cpu, port: Portal) {
    var c := PrepareResume(c0);
    && !c.finished
    && (IdPanics(c.core) || AguPanics(c.core)
        || Duplicated(Collected(EvalAll(c.prog, c.core, c.pause.requested), Decided(c, port).ops)))
  }

  function PtrSources(i: Inst): set<Reg> {
    match i
    case LD128(_, frs) => {frs}
    case ST128(_, frd) => {frd}
    case FatPtrLD(_, frs) => {frs}
    case FatPtrST(frd, frs) => {frd, frs}
    case FatPtrArith(_, _, frs, _, _) => {frs}
    case _ => {}
  }

  predicate IdPanics(c: Core) {
    c.ifid.valid && exists r :: r in PtrSources(c.ifid.inst) && c.rf.f[r] == None
  }

  predicate AguPanics(c: Core) {
    c.exagu.valid &&
    match c.exagu.agu
    case AguNop => false
    case Chk(frs, _) =>
      var p := AguFReg(c, frs);
      p.Some? && AguDma(c, c.exagu.dma).Some? && !AguUnits.InRange(p.value)
    case Offset(pop, frs, rs1, _, lit, idx) =>
      var p := AguFReg(c, frs);
      var x := AguVReg(c, rs1, lit);
      p.Some? && x.Some? && AguDma(c, c.exagu.dma).Some? && idx < 4 &&
      (!AguUnits.InRange(p.value) ||
       (if pop == PADD then Wrap32(p.value.offset + x.value.Lane(idx)) >= AguUnits.BOUND_LIMIT
        else false))
  }

  import AguUnits
}
