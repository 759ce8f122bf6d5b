/** The datapath under each decision: draining the next state gives what draining this one gave. */
module CpuSteps {
  import opened Words
  import opened FlatMemory
  import opened CpuTypes
  import opened Scoreboard
  import opened CpuStages
  import opened CpuPipeline
  import opened Isa
  import opened CpuDrain
  import opened CpuForwarding
  import opened CpuArbitration
  import opened CpuDecision

  function Bit(b: bool): nat {
    if b then 1 else 0
  }

  /** The number of latches that hold an instruction. */
  function Occupied(c: Core): nat {
    Bit(c.ifid.valid) + Bit(c.idex.valid) + Bit(c.exagu.valid) + Bit(c.agumem.valid) + Bit(c.memwb.valid)
  }

  /** The instructions that finish in this tick: in WB, or in ID for a jump. */
  function Retires(c: Core, ops: Ops): nat {
    Bit(ops.wb == Normal && c.memwb.valid) + Bit(ops.id == Normal && JumpInId(c))
  }

  /** The instruction IF reads in this tick enters the pipeline. */
  function Fetches(ops: Ops): bool {
    StageOp(ops.iF, ops.id) == Normal
  }

  /** No instruction is lost or duplicated. */
  predicate Conserved(c: Core, ops: Ops, c': Core) {
    Occupied(c') + Retires(c, ops) == Occupied(c) + Bit(Fetches(ops))
  }

  predicate JumpInId(c: Core) {
    c.ifid.valid && c.ifid.inst.JUMP?
  }

  /** Nothing in flight faults. */
  ghost predicate Fine(prog: Program, c: Core, submitted: bool, log: seq<Access>) {
    CoreOk(c) && Drain(prog.agu, c, submitted, log).d.status != Faulted
  }

  /** An exit test in EX with a jump right behind it in ID. */
  predicate JumpBehindTest(c: Core) {
    IsTest(c.idex) && JumpInId(c)
  }

  /** No jump sits right behind an exit test that is not taken. */
  ghost predicate Apart(prog: Program, c: Core, submitted: bool, log: seq<Access>) {
    JumpBehindTest(c) ==> AfterEx(prog.agu, c, submitted, log).status == Exited
  }

  lemma FineIsCoreFine(prog: Program, c: Core, submitted: bool, log: seq<Access>)
    requires Fine(prog, c, submitted, log)
    ensures CoreFine(prog, c, submitted, log)
  {
    hide DrainEx; hide DrainAgu; hide DrainMem; hide Exec;
  }

  function NextOf(prog: Program, c: Core, requested: bool, ops: Ops): Core {
    NextCore(c, EvalAll(prog, c, requested), ops)
  }

  /** The trace entry of the access waiting in MEM. */
  function AccessOf(l: AguMem): Access
    requires l.phys.Some?
  {
    Access(l.phys.value / ENTRIES_PER_CACHELINE, l.dma.ReadVec? || l.dma.ReadPtr?)
  }

  /** Two pipelines that agree behind MEM and on the latches before it drain to the same state. */
  lemma SameFront(prog: Program, c: Core, s: bool, log: seq<Access>, c': Core, s': bool, log': seq<Access>)
    requires AfterMem(c', s', log') == AfterMem(c, s, log)
    requires c'.exagu == c.exagu && c'.idex == c.idex && c'.ifid == c.ifid && c'.rf.pc == c.rf.pc
    ensures Drain(prog.agu, c', s', log') == Drain(prog.agu, c, s, log)
    ensures AfterEx(prog.agu, c', s', log') == AfterEx(prog.agu, c, s, log)
  {
    hide DrainEx; hide DrainAgu; hide DrainMem; hide Exec;
  }

  lemma SameFrontAgu(prog: Program, c: Core, s: bool, log: seq<Access>, c': Core, s': bool, log': seq<Access>)
    requires AfterAgu(prog.agu, c', s', log') == AfterAgu(prog.agu, c, s, log)
    requires c'.idex == c.idex && c'.ifid == c.ifid && c'.rf.pc == c.rf.pc
    ensures Drain(prog.agu, c', s', log') == Drain(prog.agu, c, s, log)
    ensures AfterEx(prog.agu, c', s', log') == AfterEx(prog.agu, c, s, log)
  {
    hide DrainEx; hide DrainAgu; hide DrainMem; hide Exec;
  }

  /** Registers and memory after the write-back and memory stages have committed. */
  function BackCommit(c: Core, ops: Ops): Commit {
    var s0 := Commit(c.rf, EvalMEM(c.agumem, c.mem).1, IncPc(c.rf.pc));
    var s1 := Apply(s0, Taken(ops.wb, EvalWB(c.memwb).1));
    Apply(s1, Taken(ops.mem, EvalMEM(c.agumem, c.mem).0.act))
  }

  /** The younger stages only ever touch the program counter. */
  lemma FrontActs(prog: Program, c: Core, requested: bool)
    ensures var e := EvalAll(prog, c, requested);
            && (e.agu.act == DoNothing || e.agu.act == HoldPC)
            && (e.ex.act == DoNothing || e.ex.act == HoldPC)
            && (e.id.act == DoNothing || e.id.act.WritePC?)
            && (e.iF.act == if requested then HoldPC else DoNothing)
  {
    hide EvalMEM; hide EvalWB; hide Decode; hide ExVReg; hide AguVReg; hide AguFReg; hide AguDma; hide PtrArith;
  }

  /** An action on the program counter leaves registers and memory alone. */
  lemma PcOnly(s: Commit, op: Action, a: ArchAction)
    requires a == DoNothing || IsPcAct(a)
    ensures var s' := Apply(s, Taken(op, a));
            s'.rf == s.rf && s'.mem == s.mem && (op != Normal ==> s' == s)
  {
  }

  lemma CommitShape(prog: Program, c: Core, requested: bool, ops: Ops)
    ensures var c' := NextOf(prog, c, requested, ops);
            && c'.rf.v == BackCommit(c, ops).rf.v && c'.rf.f == BackCommit(c, ops).rf.f
            && c'.mem == BackCommit(c, ops).mem
            && (ops.iF == Stall && ops.id == Stall ==> c'.rf.pc == c.rf.pc)
  {
    hide EvalMEM; hide EvalWB; hide EvalEX; hide EvalAGU; hide EvalID; hide EvalIF; hide Masked;
    var e := EvalAll(prog, c, requested);
    FrontActs(prog, c, requested);
    FrontCommit(c, e, ops);
  }

  lemma FrontCommit(c: Core, e: Evals, ops: Ops)
    requires e.agu.act == DoNothing || IsPcAct(e.agu.act)
    requires e.ex.act == DoNothing || IsPcAct(e.ex.act)
    requires e.id.act == DoNothing || IsPcAct(e.id.act)
    requires e.iF.act == DoNothing || IsPcAct(e.iF.act)
    ensures var s0 := Commit(c.rf, e.claimed, IncPc(c.rf.pc));
            var s2 := Apply(Apply(s0, Taken(ops.wb, e.wbAct)), Taken(ops.mem, e.mem.act));
            CommitAll(c, e, ops).rf == s2.rf && CommitAll(c, e, ops).mem == s2.mem
    ensures ops.iF != Normal && ops.id != Normal && !e.agu.act.WritePC? && !e.ex.act.WritePC? ==>
              CommitAll(c, e, ops).pcNext == CommitAll(c, e, ops).rf.pc
  {
    hide WriteVReg; hide WriteFReg; hide WriteData; hide WriteFptr;
    var s0 := Commit(c.rf, e.claimed, IncPc(c.rf.pc));
    var s2 := Apply(Apply(s0, Taken(ops.wb, e.wbAct)), Taken(ops.mem, e.mem.act));
    var s3 := Apply(s2, Taken(ops.agu, e.agu.act));
    var s4 := Apply(s3, Taken(ops.ex, e.ex.act));
    var s5 := Apply(s4, Taken(ops.id, e.id.act));
    PcOnly(s2, ops.agu, e.agu.act);
    PcOnly(s3, ops.ex, e.ex.act);
    PcOnly(s4, ops.id, e.id.act);
    PcOnly(s5, ops.iF, e.iF.act);
  }

  lemma WbCommit(c: Core, ops: Ops, log: seq<Access>)
    requires CoreOk(c) && AfterWb(c, log).status == Running && ops.wb == Normal
    ensures var b := BackCommit(c, ops);
            && AfterWb(c, log) == Data(b.rf.v, b.rf.f, c.mem, log, Running) && RegsOk(b.rf.v, b.rf.f)
            && FwdOk(c.(rf := b.rf, memwb := c.memwb.(valid := false)))
  {
    MemActs(c.agumem, c.mem);
    hide EvalMEM;
  }

  lemma MemActs(l: AguMem, m: Mem)
    ensures var a := EvalMEM(l, m).0.act; a == DoNothing || a.WriteMemData? || a.WriteMemPtr?
  {
  }

  // ---- what MEM does to the drained state ----

  /** Claiming the type of the entry early changes nothing; the request joins the trace. */
  lemma HoldMem(l: AguMem, s: bool, d: Data)
    requires l.valid && l.dma != DmaNop && l.phys.Some? && d.status == Running
    ensures var claimed := EvalMEM(l, d.mem).1;
            var trace := if s then d.trace else d.trace + [AccessOf(l)];
            DrainMem(l, true, d.(mem := claimed, trace := trace)) == DrainMem(l, s, d)
  {
    hide DecodeCpuData; hide DecodeCpuFatPtr;
  }

  function AfterMemAct(d: Data, l: AguMem): Data {
    var (e, claimed) := EvalMEM(l, d.mem);
    d.(mem := match e.act
              case WriteMemData(a, x) => WriteData(claimed, a, x).1
              case WriteMemPtr(a, p) => WriteFptr(claimed, a, p).1
              case _ => claimed)
  }

  lemma WriteBackMem(l: AguMem, d: Data)
    requires l.valid && l.dma != DmaNop && l.phys.Some? && d.status == Running && AguMemOk(l)
    requires DrainMem(l, true, d).status == Running
    ensures EvalMEM(l, d.mem).0.next.valid
    ensures DrainWb(EvalMEM(l, d.mem).0.next, AfterMemAct(d, l)) == DrainMem(l, true, d)
  {
    hide DecodeCpuData; hide DecodeCpuFatPtr;
  }

  lemma PassMem(l: AguMem, s: bool, d: Data)
    requires !(l.valid && l.dma != DmaNop)
    ensures EvalMEM(l, d.mem).1 == d.mem && EvalMEM(l, d.mem).0.act == DoNothing
    ensures DrainWb(EvalMEM(l, d.mem).0.next, d) == DrainMem(l, s, d)
    ensures EvalMEM(l, d.mem).0.next.valid == l.valid
  {
  }

  // ---- one lemma per decision ----

  /** Waiting for memory: the older write-back commits, the access keeps its place. */
  lemma HoldStep(prog: Program, c: Core, requested: bool, s: bool, log: seq<Access>)
    requires Fine(prog, c, s, log) && MemPending(c)
    ensures var c' := NextOf(prog, c, requested, HOLD_OPS);
            var log' := if s then log else log + [AccessOf(c.agumem)];
            && Fine(prog, c', true, log') && Drain(prog.agu, c', true, log') == Drain(prog.agu, c, s, log)
            && c'.agumem == c.agumem && c'.exagu == c.exagu && c'.idex == c.idex && c'.ifid == c.ifid
            && Conserved(c, HOLD_OPS, c') && AfterEx(prog.agu, c', true, log') == AfterEx(prog.agu, c, s, log)
  {
    hide EvalMEM; hide DrainMem; hide DrainEx; hide DrainAgu; hide DrainId; hide CommitAll; hide EvalAll;
    var c' := NextOf(prog, c, requested, HOLD_OPS);
    var log' := if s then log else log + [AccessOf(c.agumem)];
    FineIsCoreFine(prog, c, s, log);
    FineStages(prog, c, s, log);
    CommitShape(prog, c, requested, HOLD_OPS);
    WbCommit(c, HOLD_OPS, log);
    HoldMem(c.agumem, s, AfterWb(c, log));
    assert c'.mem == EvalMEM(c.agumem, c.mem).1;
    assert AfterWb(c', log') == AfterWb(c, log).(mem := c'.mem, trace := log');
    SameFront(prog, c, s, log, c', true, log');
  }

  /** The access is done: its result becomes the pending write-back, its store reaches memory. */
  lemma WriteBackStep(prog: Program, c: Core, requested: bool, log: seq<Access>)
    requires Fine(prog, c, true, log) && MemPending(c)
    ensures var c' := NextOf(prog, c, requested, WRITEBACK_OPS);
            && Fine(prog, c', true, log) && Drain(prog.agu, c', true, log) == Drain(prog.agu, c, true, log)
            && !c'.agumem.valid && c'.memwb.valid
            && c'.exagu == c.exagu && c'.idex == c.idex && c'.ifid == c.ifid
            && Conserved(c, WRITEBACK_OPS, c') && AfterEx(prog.agu, c', true, log) == AfterEx(prog.agu, c, true, log)
  {
    hide EvalMEM; hide DrainMem; hide DrainEx; hide DrainAgu; hide DrainId; hide CommitAll; hide DrainWb;
    hide EvalEX; hide EvalAGU; hide EvalID; hide EvalIF;
    var c' := NextOf(prog, c, requested, WRITEBACK_OPS);
    FineIsCoreFine(prog, c, true, log);
    FineStages(prog, c, true, log);
    CommitShape(prog, c, requested, WRITEBACK_OPS);
    WbCommit(c, WRITEBACK_OPS, log);
    MemActs(c.agumem, c.mem);
    WriteBackMem(c.agumem, AfterWb(c, log));
    DrainMemStatus(c'.agumem, true, AfterWb(c', log));
    assert Base(c', log) == AfterMemAct(AfterWb(c, log), c.agumem);
    SameFront(prog, c, true, log, c', true, log);
  }

  /** The load's value stays in MEM/WB while the next instruction leaves AGU. */
  lemma ReleaseStep(prog: Program, c: Core, requested: bool, log: seq<Access>)
    requires Fine(prog, c, true, log) && !c.agumem.valid
    ensures var c' := NextOf(prog, c, requested, RELEASE_OPS);
            && Fine(prog, c', false, log) && Drain(prog.agu, c', false, log) == Drain(prog.agu, c, true, log)
            && !c'.exagu.valid && c'.idex == c.idex && c'.ifid == c.ifid && Conserved(c, RELEASE_OPS, c')
            && AfterEx(prog.agu, c', false, log) == AfterEx(prog.agu, c, true, log)
            && c'.agumem.valid == c.exagu.valid && MemPending(c') == (c.exagu.valid && c.exagu.dma != DmaNop)
  {
    var c' := NextOf(prog, c, requested, RELEASE_OPS);
    FineIsCoreFine(prog, c, true, log);
    FineStages(prog, c, true, log);
    AguExact(prog, c, true, log);
    CommitShape(prog, c, requested, RELEASE_OPS);
    PassMem(c.agumem, true, AfterWb(c, log));
    DrainMemStatus(c.agumem, true, AfterWb(c, log));
    DrainAguStatus(prog.agu, c'.exagu, AfterMem(c', false, log));
    hide EvalMEM; hide DrainMem; hide DrainEx; hide DrainAgu; hide DrainId; hide CommitAll; hide DrainWb;
    hide EvalEX; hide EvalAGU; hide EvalID; hide EvalIF;
    SameFrontAgu(prog, c, true, log, c', false, log);
  }

  /** A pause freezes everything. */
  lemma PauseStep(prog: Program, c: Core)
    requires !MemPending(c)
    ensures NextOf(prog, c, true, PAUSE_OPS) == c
  {
    FrontActs(prog, c, true);
    PassMem(c.agumem, true, Base(c, []));
    hide EvalMEM; hide EvalEX; hide EvalAGU; hide EvalID; hide EvalIF;
  }

  /** With MEM and WB running and no access pending, write-back takes over what MEM held and AGU's
      instruction enters MEM. */
  lemma BackStep(prog: Program, c: Core, requested: bool, s: bool, log: seq<Access>, ops: Ops)
    requires Fine(prog, c, s, log) && !MemPending(c)
    requires ops.agu == Normal && ops.mem == Normal && ops.wb == Normal
    ensures var c' := NextOf(prog, c, requested, ops);
            && AfterMem(c', false, log) == AfterAgu(prog.agu, c, s, log)
            && RegsOk(c'.rf.v, c'.rf.f) && FwdOk(c') && AguMemOk(c'.agumem)
            && c'.agumem.valid == c.exagu.valid && MemPending(c') == (c.exagu.valid && c.exagu.dma != DmaNop)
            && c'.memwb.valid == c.agumem.valid
  {
    var c' := NextOf(prog, c, requested, ops);
    FineIsCoreFine(prog, c, s, log);
    FineStages(prog, c, s, log);
    AguExact(prog, c, s, log);
    CommitShape(prog, c, requested, ops);
    WbCommit(c, ops, log);
    PassMem(c.agumem, s, AfterWb(c, log));
    hide EvalMEM; hide DrainMem; hide DrainEx; hide DrainAgu; hide DrainId; hide CommitAll; hide DrainWb;
    hide EvalEX; hide EvalAGU; hide EvalID; hide EvalIF;
    assert Base(c', log) == AfterWb(c, log);
  }

  /** A load-use bubble: the load moves on, its user waits. */
  lemma RawStep(prog: Program, c: Core, s: bool, log: seq<Access>)
    requires Fine(prog, c, s, log) && !MemPending(c)
    ensures var c' := NextOf(prog, c, false, RAW_OPS);
            && Fine(prog, c', false, log) && Drain(prog.agu, c', false, log) == Drain(prog.agu, c, s, log)
            && !c'.exagu.valid && c'.idex == c.idex && c'.ifid == c.ifid && Conserved(c, RAW_OPS, c')
            && AfterEx(prog.agu, c', false, log) == AfterEx(prog.agu, c, s, log)
            && MemPending(c') == (c.exagu.valid && c.exagu.dma != DmaNop)
  {
    var c' := NextOf(prog, c, false, RAW_OPS);
    BackStep(prog, c, false, s, log, RAW_OPS);
    CommitShape(prog, c, false, RAW_OPS);
    DrainAguStatus(prog.agu, c'.exagu, AfterMem(c', false, log));
    hide EvalMEM; hide DrainMem; hide DrainEx; hide DrainAgu; hide DrainId; hide CommitAll; hide EvalAll; hide DrainWb;
    SameFrontAgu(prog, c, s, log, c', false, log);
  }

  function FlowOps(c: Core): Ops {
    if JumpInId(c) then JUMP_OPS else ALL_NORMAL
  }

  /** Where an undisturbed tick leaves the program counter. */
  function FlowTo(c: Core): u16 {
    if JumpInId(c) then c.ifid.inst.target else if IsTest(c.idex) then c.rf.pc else IncPc(c.rf.pc)
  }

  lemma FlowPc(prog: Program, c: Core)
    requires EvalAGU(prog, c).act == DoNothing && !JumpBehindTest(c)
    requires EvalEX(c).act == if IsTest(c.idex) then HoldPC else DoNothing
    ensures NextOf(prog, c, false, FlowOps(c)).rf.pc == FlowTo(c)
  {
    MemActs(c.agumem, c.mem);
    hide EvalMEM; hide EvalEX; hide EvalAGU;
  }

  lemma DrainExRegsOk(t: AguUnits.AguTable, l: IdEx, d: Data)
    requires RegsOk(d.v, d.f) && d.status == Running && DrainEx(t, l, d).status != Faulted
    ensures RegsOk(DrainEx(t, l, d).v, DrainEx(t, l, d).f)
  {
    hide DrainAgu; hide Lanes4;
    if l.valid && l.alu.Alu? && l.alu.kind.Lanes? {
      var x := Lanes4(l.alu.kind.op, Operand(d, l.alu.rs1, l.alu.lit1), Operand(d, l.alu.rs2, l.alu.lit2));
      DrainAguStatus(t, ExAgu(true, Some(x), l.agu, l.dma, l.wb), d);
      DrainAguRegsOk(t, ExAgu(true, Some(x), l.agu, l.dma, l.wb), d);
    } else if l.valid && l.alu.AluNop? {
      DrainAguStatus(t, ExAgu(true, None, l.agu, l.dma, l.wb), d);
      DrainAguRegsOk(t, ExAgu(true, None, l.agu, l.dma, l.wb), d);
    }
  }

  /** ID hands EX exactly what finishes its instruction. */
  lemma IdExact(prog: Program, c: Core, s: bool, log: seq<Access>)
    requires Fine(prog, c, s, log)
    ensures var l := EvalID(c.ifid, c.rf).next;
            && IdExOk(l) && l.valid == (c.ifid.valid && !c.ifid.inst.JUMP?)
            && DrainEx(prog.agu, l, AfterEx(prog.agu, c, s, log)) == Drain(prog.agu, c, s, log).d
  {
    var d := AfterEx(prog.agu, c, s, log);
    FineIsCoreFine(prog, c, s, log);
    FineStages(prog, c, s, log);
    DrainKeepsRegsOk(prog.agu, c, s, log);
    DrainExRegsOk(prog.agu, c.idex, AfterAgu(prog.agu, c, s, log));
    DrainExStatus(prog.agu, EvalID(c.ifid, c.rf).next, d);
    if c.ifid.valid && !c.ifid.inst.JUMP? {
      hide DrainEx; hide DrainAgu; hide DrainMem; hide Exec; hide Decode;
      DecodeExact(prog.agu, c.ifid.inst, c.rf, d);
    }
  }

  /** All stages run, except that a jump squashes the instruction being fetched and an exit test that
      is not taken keeps the program counter. */
  lemma FlowStep(prog: Program, c: Core, s: bool, log: seq<Access>)
    requires Fine(prog, c, s, log) && !MemPending(c) && EvalEX(c) != EX_RAW && !ExitNow(c) && !JumpBehindTest(c)
    ensures var c' := NextOf(prog, c, false, FlowOps(c));
            && CoreOk(c') && AfterEx(prog.agu, c', false, log) == Drain(prog.agu, c, s, log).d
            && MemPending(c') == (c.exagu.valid && c.exagu.dma != DmaNop)
            && Conserved(c, FlowOps(c), c')
            && c'.exagu.valid == c.idex.valid && (c.idex.valid ==> c'.exagu.dma == c.idex.dma)
            && c'.idex == EvalID(c.ifid, c.rf).next
            && c'.rf.pc == FlowTo(c) && AfterEx(prog.agu, c, s, log).status == Running
            && c'.ifid == if JumpInId(c) then c.ifid.(valid := false) else EvalIF(prog, c.rf).next
  {
    var c' := NextOf(prog, c, false, FlowOps(c));
    BackStep(prog, c, false, s, log, FlowOps(c));
    FineIsCoreFine(prog, c, s, log);
    FineStages(prog, c, s, log);
    AguExact(prog, c, s, log);
    ExExact(prog, c, s, log);
    IdExact(prog, c, s, log);
    FlowPc(prog, c);
    hide DrainEx; hide DrainAgu; hide DrainMem; hide DrainId; hide EvalEX; hide EvalAGU; hide EvalMEM; hide CommitAll;
    hide EvalWB; hide EvalID; hide DrainWb;
  }

  import AguUnits
}
