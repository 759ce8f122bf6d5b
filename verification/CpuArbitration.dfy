/** Which signal wins: the live signals of a running pipeline and the decision they lead to. */
module CpuArbitration {
  import opened Words
  import opened DramPortals
  import opened FlatMemory
  import opened CpuTypes
  import opened Scoreboard
  import opened CpuStages
  import opened CpuPipeline
  import opened Isa
  import opened CpuDrain
  import opened CpuForwarding

  function BlockReason(l: AguMem): Reason
    requires l.phys.Some?
  {
    MemBlock(l.phys.value / ENTRIES_PER_CACHELINE, l.dma.ReadVec? || l.dma.ReadPtr?)
  }

  /** A memory block in state `st` and the latches it goes with. */
  predicate BlockOk(c: Core, fsm: Fsm, r: Reason)
    requires fsm.MemFsm? && r.MemBlock?
  {
    match fsm.st
    case Submit => MemPending(c) && c.agumem.phys.Some? && r == BlockReason(c.agumem)
    case Waiting =>
      MemPending(c) && c.agumem.phys.Some? && r == BlockReason(c.agumem)
      && fsm.req == Some(NewReq(r.addr, r.isRead, true))
    case WriteBack => MemPending(c) && c.agumem.phys.Some? && r == BlockReason(c.agumem)
    case Release => !c.agumem.valid && c.memwb.valid
    case Done => false
  }

  /** The signals that can be live, and what each says about the latches. */
  predicate Expected(prog: Program, c: Core, requested: bool, a: Active) {
    match a.reason
    case JumpResolution =>
      a.issuer == ID && a.fsm == JumpFsm(false) && a.target == Some({IF})
      && c.ifid.valid && c.ifid.inst.JUMP?
    case RawResolution =>
      !requested && a.fsm == RawFsm(false) && a.target == Some({IF, ID, EX})
      && ((a.issuer == EX && EvalEX(c) == EX_RAW) || (a.issuer == AGU && EvalAGU(prog, c) == AGU_RAW))
    case ExternalPause =>
      requested && a.fsm == PauseFsm && a.target == None
      && (a.issuer == IF || a.issuer == ID || a.issuer == EX || a.issuer == AGU)
    case MemBlock(_, _) =>
      a.issuer == MEM && a.target == Some(ALL_STAGES) && a.fsm.MemFsm? && BlockOk(c, a.fsm, a.reason)
    case _ => false
  }

  ghost predicate AllExpected(prog: Program, c: Core, requested: bool, m: ActiveMap) {
    && Keyed(m)
    && (forall k :: k in m ==> Expected(prog, c, requested, m[k]))
    && (forall j, k :: j in m && k in m && j.reason.MemBlock? && k.reason.MemBlock? ==> j == k)
  }

  /** Between ticks no RAW signal is left and every memory block has submitted its request. */
  ghost predicate Settled(m: ActiveMap) {
    forall k :: k in m ==>
      !k.reason.RawResolution? && (k.reason.MemBlock? ==> m[k].fsm.MemFsm? && m[k].fsm.st != Submit)
  }

  ghost predicate SigOk(prog: Program, c: Core, requested: bool, m: ActiveMap) {
    AllExpected(prog, c, requested, m) && Settled(m)
  }

  const PAUSE_KEY: Key := Key(30, IF, Stall, ExternalPause)
  const JUMP_KEY: Key := Key(10, ID, Flush, JumpResolution)
  const EX_RAW_KEY: Key := Key(20, EX, Stall, RawResolution)
  const AGU_RAW_KEY: Key := Key(20, AGU, Stall, RawResolution)

  function BlockKey(l: AguMem): Key
    requires l.phys.Some?
  {
    Key(40, MEM, Stall, BlockReason(l))
  }

  function FreshSignal(q: SignalReq): Active
    requires q.reason != NoReason
  {
    Active(q.issuer, Template(q.reason), q.target, q.reason)
  }

  /** A request that may be submitted: what it says is true of the latches. */
  ghost predicate Sound(prog: Program, c: Core, requested: bool, q: SignalReq) {
    q.reason != NoReason ==> Expected(prog, c, requested, FreshSignal(q))
  }

  ghost predicate Present(m: ActiveMap, q: SignalReq) {
    q.reason != NoReason ==> KeyOf(FreshSignal(q)) in m
  }

  /** `n` holds every signal of `m`, and besides only new ones for reasons other than `MemBlock`. */
  ghost predicate Extends(m: ActiveMap, n: ActiveMap) {
    && (forall k :: k in m ==> k in n && n[k] == m[k])
    && (forall k :: k in n && k !in m && k.reason.MemBlock? ==> n[k].fsm == MemFsm(Submit, None))
  }

  lemma SubmitAdds(prog: Program, c: Core, requested: bool, m: ActiveMap, q: SignalReq)
    requires AllExpected(prog, c, requested, m)
    requires Sound(prog, c, requested, q)
    ensures AllExpected(prog, c, requested, SubmitSignal(m, q))
    ensures Extends(m, SubmitSignal(m, q)) && Present(SubmitSignal(m, q), q)
  {
    hide Expected;
    if q.reason != NoReason {
      FreshKeys(q);
      if q.reason.MemBlock? && KeyOf(FreshSignal(q)) !in m {
        forall k | k in m ensures !k.reason.MemBlock? {
          if k.reason.MemBlock? {
            OneBlock(prog, c, requested, m[k], FreshSignal(q));
          }
        }
      }
    }
  }

  lemma FreshKeys(q: SignalReq)
    requires q.reason != NoReason
    ensures var a := FreshSignal(q);
            && KeyOf(a).reason == q.reason && FsmAction(a.fsm) != Normal
            && (q.reason.MemBlock? ==> a.fsm == MemFsm(Submit, None))
  {
  }

  /** A block that is live and one that is asked for anew are for the same access. */
  lemma OneBlock(prog: Program, c: Core, requested: bool, a: Active, b: Active)
    requires Expected(prog, c, requested, a) && Expected(prog, c, requested, b)
    requires a.reason.MemBlock? && b.reason.MemBlock? && b.fsm == MemFsm(Submit, None) && FsmAction(a.fsm) != Normal
    ensures KeyOf(a) == KeyOf(b)
  {
    hide EvalEX; hide EvalAGU;
  }

  lemma WbQuiet(c: Core, log: seq<Access>)
    requires AfterWb(c, log).status == Running
    ensures EvalWB(c.memwb).0 == Quiet(WB)
  {
  }

  lemma MemSound(prog: Program, c: Core, requested: bool)
    requires CoreOk(c)
    ensures Sound(prog, c, requested, EvalMEM(c.agumem, c.mem).0.req)
  {
    hide ReadData; hide ReadFptr; hide EvalEX; hide EvalAGU;
  }

  lemma AguSound(prog: Program, c: Core, submitted: bool, log: seq<Access>, requested: bool)
    requires CoreFine(prog, c, submitted, log)
    ensures Sound(prog, c, requested, Masked(requested, EvalAGU(prog, c)).req)
  {
    FineStages(prog, c, submitted, log);
    AguExact(prog, c, submitted, log);
    hide DrainAgu; hide DrainMem; hide DrainWb; hide DrainEx; hide EvalEX; hide EvalAGU;
  }

  lemma ExSound(prog: Program, c: Core, submitted: bool, log: seq<Access>, requested: bool)
    requires CoreFine(prog, c, submitted, log) && !ExitNow(c)
    ensures Sound(prog, c, requested, Masked(requested, EvalEX(c)).req)
  {
    FineStages(prog, c, submitted, log);
    ExExact(prog, c, submitted, log);
    hide DrainAgu; hide DrainMem; hide DrainWb; hide DrainEx; hide EvalEX; hide EvalAGU;
  }

  lemma IdSound(prog: Program, c: Core, requested: bool)
    ensures Sound(prog, c, requested, Masked(requested, EvalID(c.ifid, c.rf)).req)
  {
    hide EvalEX; hide EvalAGU; hide Decode;
  }

  lemma RequestsSound(prog: Program, c: Core, submitted: bool, log: seq<Access>, requested: bool)
    requires CoreFine(prog, c, submitted, log) && !ExitNow(c)
    ensures var e := EvalAll(prog, c, requested);
            && e.wbReq == Quiet(WB)
            && Sound(prog, c, requested, e.mem.req) && Sound(prog, c, requested, e.agu.req)
            && Sound(prog, c, requested, e.ex.req) && Sound(prog, c, requested, e.id.req)
            && Sound(prog, c, requested, e.iF.req)
  {
    FineStages(prog, c, submitted, log);
    hide DrainAgu; hide DrainMem; hide DrainWb; hide DrainEx; hide EvalEX; hide EvalAGU; hide EvalWB;
    hide EvalID; hide EvalMEM;
    WbQuiet(c, log);
    MemSound(prog, c, requested);
    AguSound(prog, c, submitted, log, requested);
    ExSound(prog, c, submitted, log, requested);
    IdSound(prog, c, requested);
  }

  /** The situation a tick finds after every stage has submitted its signal. */
  ghost predicate Submitted(prog: Program, c: Core, requested: bool, m: ActiveMap) {
    && AllExpected(prog, c, requested, m)
    && (MemPending(c) && c.agumem.phys.Some? ==> BlockKey(c.agumem) in m)
    && (requested ==> PAUSE_KEY in m)
    && (!requested && EvalEX(c) == EX_RAW ==> EX_RAW_KEY in m)
    && (!requested && EvalAGU(prog, c) == AGU_RAW ==> AGU_RAW_KEY in m)
    && (!requested && c.ifid.valid && c.ifid.inst.JUMP? ==> JUMP_KEY in m)
  }

  /** No instruction in flight faults; an exit test in EX may end the program. */
  ghost predicate CoreFine(prog: Program, c: Core, submitted: bool, log: seq<Access>) {
    CoreOk(c) && AfterEx(prog.agu, c, submitted, log).status != Faulted
  }

  lemma FineStages(prog: Program, c: Core, submitted: bool, log: seq<Access>)
    requires CoreFine(prog, c, submitted, log)
    ensures AfterAgu(prog.agu, c, submitted, log).status == Running
    ensures AfterMem(c, submitted, log).status == Running
    ensures AfterWb(c, log).status == Running
  {
    hide DrainAgu; hide DrainMem; hide DrainEx;
    DrainExStatus(prog.agu, c.idex, AfterAgu(prog.agu, c, submitted, log));
    DrainAguStatus(prog.agu, c.exagu, AfterMem(c, submitted, log));
    DrainMemStatus(c.agumem, submitted, AfterWb(c, log));
    DrainKeepsRegsOk(prog.agu, c, submitted, log);
  }

  lemma DrainExStatus(t: AguUnits.AguTable, l: IdEx, d: Data)
    ensures !l.valid ==> DrainEx(t, l, d) == d
    ensures DrainEx(t, l, d).status == Running ==> d.status == Running
    ensures DrainEx(t, l, d).status != Faulted ==> d.status != Faulted
  {
  }

  lemma SubmitAllAdds(prog: Program, c: Core, submitted: bool, log: seq<Access>, requested: bool, m: ActiveMap)
    requires CoreFine(prog, c, submitted, log) && !ExitNow(c)
    requires AllExpected(prog, c, requested, m)
    ensures var n := SubmitAll(m, EvalAll(prog, c, requested));
            Submitted(prog, c, requested, n) && Extends(m, n)
  {
    var e := EvalAll(prog, c, requested);
    RequestsSound(prog, c, submitted, log, requested);
    var m2 := SubmitSignal(SubmitSignal(m, e.wbReq), e.mem.req);
    var m3 := SubmitSignal(m2, e.agu.req);
    var m4 := SubmitSignal(m3, e.ex.req);
    var m5 := SubmitSignal(m4, e.id.req);
    var m6 := SubmitSignal(m5, e.iF.req);
    SubmitChain(prog, c, requested, m, e);
    PresentGivesKeys(prog, c, requested, m6);
  }

  lemma QuietSubmits(m: ActiveMap)
    ensures SubmitSignal(m, Quiet(WB)) == m
  {
  }

  lemma SubmitChain(prog: Program, c: Core, requested: bool, m: ActiveMap, e: Evals)
    requires AllExpected(prog, c, requested, m) && e.wbReq == Quiet(WB)
    requires Sound(prog, c, requested, e.mem.req) && Sound(prog, c, requested, e.agu.req)
    requires Sound(prog, c, requested, e.ex.req) && Sound(prog, c, requested, e.id.req)
    requires Sound(prog, c, requested, e.iF.req)
    ensures var n := SubmitAll(m, e);
            && AllExpected(prog, c, requested, n) && Extends(m, n)
            && Present(n, e.mem.req) && Present(n, e.agu.req) && Present(n, e.ex.req)
            && Present(n, e.id.req) && Present(n, e.iF.req)
  {
    hide SubmitSignal; hide AllExpected; hide Sound; hide Quiet; hide FreshSignal; hide KeyOf;
    QuietSubmits(m);
    var m2 := SubmitSignal(m, e.mem.req);
    var m3 := SubmitSignal(m2, e.agu.req);
    var m4 := SubmitSignal(m3, e.ex.req);
    var m5 := SubmitSignal(m4, e.id.req);
    SubmitAdds(prog, c, requested, m, e.mem.req);
    SubmitAdds(prog, c, requested, m2, e.agu.req);
    SubmitAdds(prog, c, requested, m3, e.ex.req);
    SubmitAdds(prog, c, requested, m4, e.id.req);
    SubmitAdds(prog, c, requested, m5, e.iF.req);
  }

  lemma PresentGivesKeys(prog: Program, c: Core, requested: bool, n: ActiveMap)
    requires AllExpected(prog, c, requested, n)
    requires var e := EvalAll(prog, c, requested);
             && Present(n, e.mem.req) && Present(n, e.agu.req) && Present(n, e.ex.req)
             && Present(n, e.id.req) && Present(n, e.iF.req)
    ensures Submitted(prog, c, requested, n)
  {
    hide AllExpected; hide EvalWB;
    hide ReadData; hide ReadFptr; hide Decode;
    hide ExVReg; hide AguVReg; hide AguFReg;
  }
  import AguUnits
}
