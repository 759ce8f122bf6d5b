/** The tick in which an exit wins: its datapath, the signals beside it, and its decision. */
module CpuExitStep {
  import opened Words
  import opened DramPortals
  import opened FlatMemory
  import opened CpuTypes
  import opened Scoreboard
  import opened CpuStages
  import opened CpuPipeline
  import opened Isa
  import opened CpuDrain
  import opened CpuForwarding
  import opened CpuArbitration
  import opened CpuDecision
  import opened CpuSteps

  const EXIT_OPS: Ops := Ops(Flush, Flush, Normal, Normal, Normal, Normal)
  const EXIT_KEY: Key := Key(50, EX, Flush, ProgEnd)
  const EXIT_REQ: SignalReq := SignalReq(ProgEnd, EX, Some({IF, ID}))

  /** What is left of the exit test behind EX, AGU and MEM. */
  const TEST_EXAGU: ExAgu := ExAgu(true, None, AguNop, DmaNop, WbNop)
  const TEST_AGUMEM: AguMem := AguMem(true, None, None, None, DmaNop, WbNop)
  const TEST_MEMWB: MemWb := MemWb(true, None, None, WbNop)

  // ---- the datapath of a tick that the exit wins ----

  /** The older instructions in flight drain to a running state. */
  ghost predicate OlderFine(prog: Program, c: Core, log: seq<Access>) {
    CoreOk(c) && AfterAgu(prog.agu, c, true, log).status == Running
  }

  /** What the instructions older than the exit leave behind: all of them, unless AGU is waiting for a
      load in MEM. Then the instruction in AGU is dropped. */
  function Kept(prog: Program, c: Core, log: seq<Access>): Data {
    if EvalAGU(prog, c) == AGU_RAW then AfterMem(c, true, log) else AfterAgu(prog.agu, c, true, log)
  }

  /** MEM hands its result on at once, without a DRAM transaction; the older instructions move on. */
  lemma ExitStep(prog: Program, c: Core, requested: bool, log: seq<Access>)
    requires OlderFine(prog, c, log) && ExAguOk(EvalEX(c).next)
    ensures var c' := NextOf(prog, c, requested, EXIT_OPS);
            && CoreOk(c') && !c'.idex.valid && !c'.ifid.valid
            && AfterWb(c', log) == AfterMem(c, true, log)
            && AfterMem(c', false, log) == Kept(prog, c, log)
            && c'.exagu == EvalEX(c).next && c'.agumem == EvalAGU(prog, c).next
            && c'.agumem.valid == (c.exagu.valid && EvalAGU(prog, c) != AGU_RAW)
            && c'.memwb == EvalMEM(c.agumem, c.mem).0.next && c'.memwb.valid == c.agumem.valid
  {
    hide EvalMEM; hide DrainMem; hide DrainAgu; hide CommitAll; hide DrainWb; hide EvalEX; hide EvalAGU;
    hide EvalID; hide EvalIF;
    var c' := NextOf(prog, c, requested, EXIT_OPS);
    DrainKeepsRegsOk(prog.agu, c, true, log);
    AguExact(prog, c, true, log);
    DrainMemStatus(c'.agumem, false, AfterWb(c', log));
    CommitShape(prog, c, requested, EXIT_OPS);
    WbCommit(c, EXIT_OPS, log);
    MemActs(c.agumem, c.mem);
    ExitMem(c.agumem, AfterWb(c, log));
    RawMeansValid(prog, c);
    assert Base(c', log) == AfterMemAct(AfterWb(c, log), c.agumem);
  }

  lemma ExitMem(l: AguMem, d: Data)
    requires AguMemOk(l) && d.status == Running && DrainMem(l, true, d).status == Running
    ensures EvalMEM(l, d.mem).0.next.valid == l.valid
    ensures DrainWb(EvalMEM(l, d.mem).0.next, AfterMemAct(d, l)) == DrainMem(l, true, d)
  {
    if l.valid && l.dma != DmaNop {
      WriteBackMem(l, d);
    } else {
      PassMem(l, true, d);
    }
  }

  lemma RawMeansValid(prog: Program, c: Core)
    ensures EvalAGU(prog, c) == AGU_RAW ==> c.exagu.valid && !EvalAGU(prog, c).next.valid
  {
  }

  /** The exit's own bubble changes nothing and waits for nothing. */
  lemma ExitBubble(prog: Program, c: Core, log: seq<Access>)
    requires c.exagu == TEST_EXAGU || !c.exagu.valid
    ensures AfterAgu(prog.agu, c, true, log) == AfterMem(c, true, log) && EvalAGU(prog, c) != AGU_RAW
    ensures EvalAGU(prog, c).next == if c.exagu.valid then TEST_AGUMEM else BUBBLE_AGUMEM
  {
    hide DrainMem;
    if AfterMem(c, true, log).status == Running {
      TestLeavesNothing(prog.agu, true, AfterMem(c, true, log));
    }
  }

  // ---- the signals of a program that ends ----

  /** A signal that may be live beside the exit's. All of them rank below it. */
  predicate Leftover(requested: bool, a: Active) {
    match a.reason
    case MemBlock(_, _) => a.issuer == MEM && a.fsm.MemFsm? && a.target == Some(ALL_STAGES)
    case JumpResolution => a.issuer == ID && a.fsm == JumpFsm(false) && a.target == Some({IF})
    case RawResolution => a.fsm == RawFsm(false)
    case ExternalPause => requested && a.fsm == PauseFsm && a.target == None
    case _ => false
  }

  ghost predicate Closing(m: ActiveMap, requested: bool) {
    && Keyed(m)
    && forall k :: k in m ==>
         Leftover(requested, m[k]) || (k == EXIT_KEY && m[k].fsm.ExitFsm? && m[k].target == Some({IF, ID}))
  }

  ghost predicate NoRaw(m: ActiveMap) {
    forall k :: k in m ==> !k.reason.RawResolution?
  }

  predicate Rankable(requested: bool, q: SignalReq) {
    q.reason == NoReason || q == EXIT_REQ || Leftover(requested, FreshSignal(q))
  }

  /** The memory blocks among the live signals. */
  function BlocksOf(m: ActiveMap): ActiveMap {
    map k | k in m && k.reason.MemBlock? :: m[k]
  }

  function AddBlock(b: ActiveMap, q: SignalReq): ActiveMap {
    if q.reason.MemBlock? && KeyOf(FreshSignal(q)) !in b then b[KeyOf(FreshSignal(q)) := FreshSignal(q)] else b
  }

  lemma SubmitClosing(m: ActiveMap, requested: bool, q: SignalReq)
    requires Closing(m, requested) && Rankable(requested, q)
    ensures var n := SubmitSignal(m, q);
            && Closing(n, requested) && BlocksOf(n) == AddBlock(BlocksOf(m), q)
            && (EXIT_KEY in m ==> EXIT_KEY in n && n[EXIT_KEY] == m[EXIT_KEY])
            && (EXIT_KEY !in m && q.reason != ProgEnd ==> EXIT_KEY !in n)
            && (EXIT_KEY !in m && q.reason == ProgEnd ==> EXIT_KEY in n && n[EXIT_KEY].fsm == ExitFsm(WbDrain))
  {
    var n := SubmitSignal(m, q);
    if q.reason != NoReason && KeyOf(FreshSignal(q)) !in m {
      assert n == m[KeyOf(FreshSignal(q)) := FreshSignal(q)];
      if !q.reason.MemBlock? {
        assert BlocksOf(n) == BlocksOf(m);
      }
    }
  }

  /** The six requests of a tick as far as they matter here. */
  ghost predicate RequestsFit(requested: bool, e: Evals) {
    && Rankable(requested, e.wbReq) && Rankable(requested, e.mem.req) && Rankable(requested, e.agu.req)
    && Rankable(requested, e.ex.req) && Rankable(requested, e.id.req) && Rankable(requested, e.iF.req)
    && e.wbReq.reason == NoReason && e.mem.req.reason != ProgEnd && e.agu.req.reason != ProgEnd
    && e.id.req.reason != ProgEnd && e.iF.req.reason != ProgEnd
    && !e.agu.req.reason.MemBlock? && !e.ex.req.reason.MemBlock? && !e.id.req.reason.MemBlock?
    && !e.iF.req.reason.MemBlock?
  }

  lemma RequestsClose(prog: Program, c: Core, requested: bool, log: seq<Access>)
    requires OlderFine(prog, c, log) && (EvalEX(c).req.reason == NoReason || ExitNow(c))
    ensures RequestsFit(requested, EvalAll(prog, c, requested))
    ensures EvalAll(prog, c, requested).ex.req.reason == ProgEnd <==> ExitNow(c)
  {
    hide DrainAgu; hide DrainMem; hide DrainWb; hide EvalWB; hide Decode; hide ReadData; hide ReadFptr; hide ExVReg;
    DrainKeepsRegsOk(prog.agu, c, true, log);
    AguExact(prog, c, true, log);
    WbQuiet(c, log);
    hide EvalAGU;
  }

  lemma SubmitAllCloses(m: ActiveMap, requested: bool, e: Evals)
    requires Closing(m, requested) && RequestsFit(requested, e)
    ensures var n := SubmitAll(m, e);
            && Closing(n, requested) && BlocksOf(n) == AddBlock(BlocksOf(m), e.mem.req)
            && (EXIT_KEY in m ==> EXIT_KEY in n && n[EXIT_KEY] == m[EXIT_KEY])
            && (EXIT_KEY !in m && e.ex.req.reason == ProgEnd ==> EXIT_KEY in n && n[EXIT_KEY].fsm == ExitFsm(WbDrain))
  {
    hide SubmitSignal; hide Closing; hide Rankable; hide BlocksOf;
    var m1 := SubmitSignal(m, e.wbReq);
    var m2 := SubmitSignal(m1, e.mem.req);
    var m3 := SubmitSignal(m2, e.agu.req);
    var m4 := SubmitSignal(m3, e.ex.req);
    var m5 := SubmitSignal(m4, e.id.req);
    SubmitClosing(m, requested, e.wbReq);
    SubmitClosing(m1, requested, e.mem.req);
    SubmitClosing(m2, requested, e.agu.req);
    SubmitClosing(m3, requested, e.ex.req);
    SubmitClosing(m4, requested, e.id.req);
    SubmitClosing(m5, requested, e.iF.req);
  }

  lemma ExitIsMax(m: ActiveMap, requested: bool)
    requires Closing(m, requested) && EXIT_KEY in m
    ensures Winner(m) == EXIT_KEY && m[EXIT_KEY].fsm.ExitFsm? && m[EXIT_KEY].target == Some({IF, ID})
  {
    MaxUnique(m.Keys, EXIT_KEY, Winner(m));
  }

  lemma ExitAdvances(a: Active, port: Portal)
    requires a.fsm.ExitFsm? && a.target == Some({IF, ID})
    ensures OpsOf(a) == EXIT_OPS
    ensures var (f, port') := Advance(a.fsm, ProgEnd, port);
            && port' == port && f.ExitFsm? && (FsmAction(f) != Normal <==> f.drain != Drained)
            && f.drain == (match a.fsm.drain case WbDrain => MemDrain case MemDrain => AguDrain case _ => Drained)
  {
  }

  /** The blocks that survive a tick none of them wins. */
  lemma BlocksSurvive(n: ActiveMap, port: Portal)
    requires Keyed(n) && n != map[] && !Winner(n).reason.MemBlock?
    requires forall k :: k in n && k.reason.MemBlock? ==> !n[k].fsm.RawFsm?
    ensures BlocksOf(Decide(n, port).active) == BlocksOf(n)
  {
    hide Decide; hide Advance; hide Keyed;
    Survivors(n, port);
  }

  /** The exit wins; every block that loses stays as it is. */
  lemma ExitWins(m: ActiveMap, requested: bool, port: Portal)
    requires Closing(m, requested) && EXIT_KEY in m
    ensures var d := Decide(m, port);
            && d.ops == EXIT_OPS && d.winner == Some(ProgEnd) && d.port == port && Closing(d.active, requested)
            && BlocksOf(d.active) == BlocksOf(m) && NoRaw(d.active)
            && (m[EXIT_KEY].fsm.drain == WbDrain ==>
                  EXIT_KEY in d.active && d.active[EXIT_KEY].fsm == ExitFsm(MemDrain))
            && (m[EXIT_KEY].fsm.drain == MemDrain ==>
                  EXIT_KEY in d.active && d.active[EXIT_KEY].fsm == ExitFsm(AguDrain))
            && (m[EXIT_KEY].fsm.drain == AguDrain ==> EXIT_KEY !in d.active)
  {
    hide Decide; hide Advance; hide OpsOf; hide FsmAction; hide BlocksOf;
    ExitIsMax(m, requested);
    ExitAdvances(m[EXIT_KEY], port);
    BlocksFsm(m, requested);
    BlocksSurvive(m, port);
    Survivors(m, port);
    RawsGone(m, requested, Decide(m, port).active);
  }

  lemma RawsGone(m: ActiveMap, requested: bool, m': ActiveMap)
    requires Closing(m, requested)
    requires forall j :: j in m' ==> j in m && (j == EXIT_KEY || !m[j].fsm.RawFsm?)
    ensures NoRaw(m')
  {
  }

  lemma BlocksFsm(m: ActiveMap, requested: bool)
    requires Closing(m, requested)
    ensures forall k :: k in m && k.reason.MemBlock? ==>
          m[k].fsm.MemFsm? && !m[k].fsm.RawFsm? && m[k].target == Some(ALL_STAGES)
  {
  }

  /** A tick in which the exit wins, with `drain` the state its signal is in. */
  lemma ExitTick(c: Cpu, port: Portal, log: seq<Access>, drain: DrainState)
    requires PrepareResume(c) == c && !c.finished && Closing(c.active, c.pause.requested)
          && OlderFine(c.prog, c.core, log)
    requires if EXIT_KEY in c.active then c.active[EXIT_KEY].fsm == ExitFsm(drain) && EvalEX(c.core).req == Quiet(EX)
             else drain == WbDrain && ExitNow(c.core)
    ensures var (c', port') := Tick(c, port);
            && port' == port && c'.prog == c.prog && c'.progEndSeen && Closing(c'.active, c.pause.requested)
            && NoRaw(c'.active)
            && c'.core == NextOf(c.prog, c.core, c.pause.requested, EXIT_OPS)
            && BlocksOf(c'.active) == AddBlock(BlocksOf(c.active), EvalMEM(c.core.agumem, c.core.mem).0.req)
            && (drain == WbDrain ==> EXIT_KEY in c'.active && c'.active[EXIT_KEY].fsm == ExitFsm(MemDrain))
            && (drain == MemDrain ==> EXIT_KEY in c'.active && c'.active[EXIT_KEY].fsm == ExitFsm(AguDrain))
            && (drain == AguDrain ==> EXIT_KEY !in c'.active)
            && (c'.finished <==> !c'.core.exagu.valid && !c'.core.agumem.valid && !c'.core.memwb.valid)
            && c'.pause == UpdateReady(c.pause, Some(ProgEnd))
  {
    hide EvalEX; hide EvalAGU; hide EvalMEM; hide PrepareResume; hide Closing; hide DrainAgu; hide EvalAll;
    hide NextCore;
    hide Decide; hide SubmitAll; hide CoreOk; hide BlocksOf; hide AddBlock; hide NoRaw;
    var e := EvalAll(c.prog, c.core, c.pause.requested);
    RequestsClose(c.prog, c.core, c.pause.requested, log);
    MemOf(c.prog, c.core, c.pause.requested);
    SubmitAllCloses(c.active, c.pause.requested, e);
    ExitWins(SubmitAll(c.active, e), c.pause.requested, port);
  }

  lemma MemOf(prog: Program, c: Core, requested: bool)
    ensures EvalAll(prog, c, requested).mem == EvalMEM(c.agumem, c.mem).0
  {
    hide EvalEX; hide EvalAGU; hide EvalID; hide EvalIF; hide EvalMEM;
  }

  lemma SignalsClose(prog: Program, c: Core, requested: bool, m: ActiveMap)
    requires SigOk(prog, c, requested, m)
    ensures Closing(m, requested) && EXIT_KEY !in m
  {
    hide EvalEX; hide EvalAGU; hide BlockOk;
    forall k | k in m ensures Leftover(requested, m[k]) {
      assert Expected(prog, c, requested, m[k]);
    }
  }
}
