/** One clock tick of the processing element: issue, execute, memory stop, commit. */
module PePipeline {
  import opened Words
  import opened DramPortals
  import opened FlatMemory
  import opened PeTypes
  import S = Scoreboard
  import CpuPipeline

  /** What the host queues: the instruction, and the request that carried it, if any. */
  datatype Job = Job(inst: PeInst, req: Option<DramReq>)

  datatype IssueEx = IssueEx(valid: bool, simReq: Option<DramReq>, alu: PeAlu, mem: PeMem, wb: PeWb)
  datatype ExWb = ExWb(valid: bool, v: Option<Vec8>, s: Option<i32>, wb: PeWb)

  const EMPTY_ISSUE: IssueEx := IssueEx(false, None, AluIdle, MemIdle, WbIdle)
  const EMPTY_WB: ExWb := ExWb(false, None, None, WbIdle)

  /** The memory stop machine; `Done` is its idle state. */
  datatype Stop = Stop(st: S.MemState, req: Option<DramReq>)

  datatype Pe = Pe(
    imem: seq<Job>, completed: seq<DramReq>, allowed: bool, finished: bool,
    latch: IssueEx, fwd: ExWb, st: PeState, stop: Stop)

  // ---- ISSUE ----

  function EvalISSUE(input: Option<Job>, v: VFile, s: SFile): IssueEx {
    if input == None then EMPTY_ISSUE
    else
      var q := input.value.req;
      match input.value.inst
      case NOP => IssueEx(true, q, AluIdle, MemIdle, WbIdle)
      case LD128(rd, a) => IssueEx(true, q, AluIdle, ReadVec(a), VWrite(rd))
      case ST128(rs, a) => IssueEx(true, q, AluIdle, WriteVec(a, rs, ReadVR(v, rs)), WbIdle)
      case LD32(rd, a) => IssueEx(true, q, AluIdle, ReadScl(a), SWrite(rd))
      case ST32(rs, a) => IssueEx(true, q, AluIdle, WriteScl(a, rs, ReadSR(s, rs)), WbIdle)
      case Arith(op, rd, r0, r1) =>
        IssueEx(true, q, Lanes(op, r0, r1, ReadVR(v, r0), ReadVR(v, r1)), MemIdle, VWrite(rd))
      case MAC128(rd, acc, r0, r1) =>
        IssueEx(true, q, Mac(acc, r0, r1, ReadSR(s, acc), ReadVR(v, r0), ReadVR(v, r1)), MemIdle, SWrite(rd))
      case ReLU(rd, r0) => IssueEx(true, q, Relu(r0, ReadVR(v, r0)), MemIdle, VWrite(rd))
  }

  // ---- EX ----

  function BypassV(fwd: ExWb, r: VId, lit: Vec8): Vec8 {
    if r != 0 && fwd.valid && fwd.wb == VWrite(r) && fwd.v.Some? then fwd.v.value else lit
  }

  function BypassS(fwd: ExWb, r: SId, lit: i32): i32 {
    if r != 0 && fwd.valid && fwd.wb == SWrite(r) && fwd.s.Some? then fwd.s.value else lit
  }

  datatype AluOut = VecOut(vec: Vec8) | SclOut(scl: i32) | NoOut

  function AluComp(alu: PeAlu, fwd: ExWb): AluOut {
    match alu
    case AluIdle => NoOut
    case Lanes(op, r0, r1, lit0, lit1) => VecOut(Zip(op, BypassV(fwd, r0, lit0), BypassV(fwd, r1, lit1)))
    case Mac(acc, r0, r1, slit, lit0, lit1) =>
      SclOut(Mac32(BypassS(fwd, acc, slit), BypassV(fwd, r0, lit0), BypassV(fwd, r1, lit1)))
    case Relu(r0, lit0) => VecOut(ReluVec(BypassV(fwd, r0, lit0)))
  }

  /** The stage result, the signal it raises, its actions, and the memory with claimed types. */
  datatype ExEval = ExEval(next: ExWb, reason: S.Reason, acts: seq<PeAct>, claimed: Mem)

  function WbActs(next: ExWb): seq<PeAct> {
    match next.wb
    case WbIdle => []
    case VWrite(rd) => if next.v.Some? then [WriteVRF(rd, next.v.value)] else []
    case SWrite(rd) => if next.s.Some? then [WriteSRF(rd, next.s.value)] else []
  }

  function Block(addr: u32, isRead: bool): S.Reason {
    S.MemBlock(addr / ENTRIES_PER_CACHELINE, isRead)
  }

  function EvalEX(l: IssueEx, fwd: ExWb, m: Mem): ExEval {
    if !l.valid then ExEval(EMPTY_WB, S.NoReason, [DoNothing], m)
    else
      var out := AluComp(l.alu, fwd);
      var next := ExWb(true, if out.VecOut? then Some(out.vec) else None,
                       if out.SclOut? then Some(out.scl) else None, l.wb);
      match l.mem
      case MemIdle => ExEval(next, S.NoReason, WbActs(next), m)
      case ReadVec(a) =>
        var (x, m') := ReadV(m, a);
        var loaded := next.(v := x);
        ExEval(loaded, Block(a, true), WbActs(loaded), m')
      case WriteVec(a, r, lit) =>
        ExEval(next, Block(a, false), [WriteMemV(a, BypassV(fwd, r, lit))] + WbActs(next), m)
      case ReadScl(a) =>
        var (x, m') := ReadS(m, a);
        var loaded := next.(s := x);
        ExEval(loaded, Block(a, true), WbActs(loaded), m')
      case WriteScl(a, r, lit) =>
        ExEval(next, Block(a, false), [WriteMemS(a, BypassS(fwd, r, lit))] + WbActs(next), m)
  }

  // ---- the memory stop ----

  datatype StopOps = StopOps(issue: S.Action, ex: S.Action)

  function OpsOf(st: S.MemState): StopOps {
    match st
    case Submit => StopOps(S.Stall, S.Stall)
    case Waiting => StopOps(S.Stall, S.Stall)
    case WriteBack => StopOps(S.Stall, S.Normal)
    case Release => StopOps(S.Stall, S.Normal)
    case Done => StopOps(S.Normal, S.Normal)
  }

  function AdvanceStop(stop: Stop, r: S.Reason, port: Portal): (Stop, Portal) {
    match stop.st
    case Submit =>
      if r.MemBlock? then
        var q := NewReq(r.addr, r.isRead, true);
        (Stop(S.Waiting, Some(q)), port.Submit(q))
      else (stop.(st := S.WriteBack), port)
    case Waiting =>
      if stop.req.Some? then
        var (done, port') := port.TakeCompleted(stop.req.value);
        (stop.(st := if done.Some? then S.WriteBack else S.Waiting), port')
      else (stop.(st := S.WriteBack), port)
    case WriteBack => (stop.(st := S.Release), port)
    case Release => (stop.(st := S.Done), port)
    case Done => (stop, port)
  }

  /** The state the machine acts in this tick: a memory access wakes it up. */
  function Woken(stop: Stop, r: S.Reason): Stop {
    if stop.st.Done? && r.MemBlock? then stop.(st := S.Submit) else stop
  }

  function StopDecision(stop: Stop, r: S.Reason, port: Portal): (StopOps, Stop, Portal) {
    var s := Woken(stop, r);
    var (stop', port') := AdvanceStop(s, r, port);
    (OpsOf(s.st), stop', port')
  }

  // ---- commit ----

  function Apply(st: PeState, a: PeAct): PeState {
    match a
    case DoNothing => st
    case WriteVRF(r, x) => st.(v := WriteVR(st.v, r, x))
    case WriteSRF(r, x) => st.(s := WriteSR(st.s, r, x))
    case WriteMemV(addr, x) => st.(mem := WriteV(st.mem, addr, x).1)
    case WriteMemS(addr, x) => st.(mem := WriteS(st.mem, addr, x).1)
  }

  function ApplyAll(st: PeState, acts: seq<PeAct>): PeState {
    if acts == [] then st else Apply(ApplyAll(st, acts[..|acts| - 1]), acts[|acts| - 1])
  }

  /** Committing the same destination twice is a panic. */
  predicate Duplicated(acts: seq<PeAct>) {
    exists i, j :: 0 <= i < j < |acts| && Dest(acts[i]) != None && Dest(acts[i]) == Dest(acts[j])
  }

  // ---- the tick ----

  function Peek(p: Pe): Option<Job> {
    if p.allowed && p.imem != [] then Some(p.imem[0]) else None
  }

  /** A permission to fetch is used up even when the queue is empty. */
  function ConsumeFetch(p: Pe): Pe {
    if p.allowed then p.(allowed := false, imem := if p.imem == [] then [] else p.imem[1..]) else p
  }

  /** EX runs: its actions are committed and the instruction retires. */
  function CommitEx(p: Pe, e: ExEval): Pe {
    p.(st := ApplyAll(p.st.(mem := e.claimed), e.acts),
       finished := p.finished || p.latch.valid,
       completed := if p.latch.simReq.Some? then p.completed + [p.latch.simReq.value] else p.completed,
       fwd := if e.next.valid then e.next else p.fwd)
  }

  function MoveLatch(p: Pe, issued: IssueEx, ops: StopOps): Pe {
    match CpuPipeline.StageOp(ops.issue, ops.ex)
    case Normal => ConsumeFetch(p).(latch := issued)
    case Stall => p
    case _ => p.(latch := EMPTY_ISSUE)
  }

  /** ISSUE reads the registers before EX commits in the same tick. */
  function Tick(p: Pe, port: Portal): (Pe, Portal) {
    var issued := EvalISSUE(Peek(p), p.st.v, p.st.s);
    var e := EvalEX(p.latch, p.fwd, p.st.mem);
    var (ops, stop', port') := StopDecision(p.stop, e.reason, port);
    var p1 := if ops.ex.Normal? then CommitEx(p, e) else p.(st := p.st.(mem := e.claimed));
    (MoveLatch(p1, issued, ops).(stop := stop'), port')
  }

  predicate Panics(p: Pe) {
    Duplicated(EvalEX(p.latch, p.fwd, p.st.mem).acts)
  }

  // ---- the host's side ----

  function PushHost(p: Pe, j: Job): Pe {
    p.(imem := p.imem + [j])
  }

  function AllowNext(p: Pe): Pe {
    p.(allowed := true)
  }

  function TakeCompleted(p: Pe): (Option<DramReq>, Pe) {
    if p.completed == [] then (None, p) else (Some(p.completed[0]), p.(completed := p.completed[1..]))
  }

  function HasFinished(p: Pe): (bool, Pe) {
    (p.finished, p.(finished := false))
  }

  function MirrorHost(p: Pe, first: u32, payload: Payload): Pe
    requires first + ENTRIES_PER_CACHELINE <= 0x1_0000_0000
  {
    p.(st := p.st.(mem := MirrorLine(p.st.mem, first, payload)))
  }

  function NewPe(): Pe {
    Pe([], [], false, false, EMPTY_ISSUE, EMPTY_WB,
       PeState(seq<Vec8>(16, i => ZERO8), [0, 0, 0, 0, 0, 0, 0, 0], map[]), Stop(S.Done, None))
  }
}
