/** Every tick of the pipeline simulates zero or one steps of the sequential machine. */
module CpuRefinement {
  import opened Words
  import opened DramPortals
  import opened Scoreboard
  import opened CpuStages
  import opened CpuPipeline
  import opened Isa
  import opened CpuDrain
  import opened CpuForwarding
  import opened CpuArbitration
  import opened CpuDecision
  import opened CpuSteps
  import opened FetchMachine

  /** The sequential state the pipeline stands for; `log` lists the DRAM requests made so far. */
  ghost function Abs(c: Cpu, log: seq<Access>): Spec {
    Stands(c.prog, c.core, HasBlock(c.active), log)
  }

  function Stands(prog: Program, c: Core, submitted: bool, log: seq<Access>): Spec {
    var a := Drain(prog.agu, c, submitted, log);
    SpecOf(a.pc, a.d, c.ifid.valid && c.ifid.inst.EqualExit?, IsTest(c.idex))
  }

  /** A running pipeline: nothing behind ID faults, and the live signals say the truth. */
  ghost predicate Orderly(c: Cpu, log: seq<Access>) {
    && CoreFine(c.prog, c.core, HasBlock(c.active), log)
    && SigOk(c.prog, c.core, c.pause.requested, c.active)
    && !c.progEndSeen && !c.finished
  }

  /** The state once everything up to EX has finished. */
  ghost function EndOfEx(c: Cpu, log: seq<Access>): Data {
    AfterEx(c.prog.agu, c.core, HasBlock(c.active), log)
  }

  ghost predicate KeptApart(c: Cpu, log: seq<Access>) {
    Apart(c.prog, c.core, HasBlock(c.active), log)
  }

  ghost predicate Inv(c: Cpu, log: seq<Access>) {
    && Fine(c.prog, c.core, HasBlock(c.active), log)
    && SigOk(c.prog, c.core, c.pause.requested, c.active)
    && !c.progEndSeen && !c.finished
  }

  function AccessesOf(reqs: seq<DramReq>): seq<Access> {
    if reqs == [] then []
    else AccessesOf(reqs[..|reqs| - 1]) + [Access(reqs[|reqs| - 1].addr, reqs[|reqs| - 1].isRead)]
  }

  /** What a tick of the CPU may do to the portal: add requests and consume PIM responses. */
  ghost predicate PortalStep(p: Portal, p': Portal, made: seq<DramReq>) {
    && p'.pimReq == p.pimReq + made
    && p'.hostReq == p.hostReq && p'.hostResp == p.hostResp && p'.mode == p.mode
    && |made| <= 1 && (forall q :: q in made ==> q.isPim)
  }

  /** The one way a running pipeline panics: an exit test in EX that is decided and not taken, a jump in
      ID, and nothing that holds the two back. Both write the program counter. */
  ghost predicate ClashNow(c: Cpu) {
    && JumpBehindTest(c.core) && EvalEX(c.core) != EX_RAW && !ExitNow(c.core)
    && !c.pause.requested && !HasBlock(c.active) && !MemPending(c.core)
  }

  // ---- PrepareResume ----

  lemma PrepareSignals(c: Cpu)
    requires SigOk(c.prog, c.core, c.pause.requested, c.active)
    ensures var c1 := PrepareResume(c);
            && SigOk(c1.prog, c1.core, c1.pause.requested, c1.active) && HasBlock(c1.active) == HasBlock(c.active)
            && c1.prog == c.prog && c1.core == c.core && c1.finished == c.finished && c1.progEndSeen == c.progEndSeen
  {
    hide EvalEX; hide EvalAGU; hide BlockOk;
    var c1 := PrepareResume(c);
    if c1 != c {
      forall k | k in c1.active ensures k in c.active && c1.active[k] == c.active[k] && k.reason != ExternalPause {}
      forall k | k in c.active && k.reason.MemBlock? ensures k in c1.active {}
    }
  }

  lemma PrepareKeeps(c: Cpu, log: seq<Access>)
    requires Inv(c, log)
    ensures var c1 := PrepareResume(c);
            && Inv(c1, log) && Abs(c1, log) == Abs(c, log) && c1.prog == c.prog && c1.core == c.core
            && HasBlock(c1.active) == HasBlock(c.active) && EndOfEx(c1, log) == EndOfEx(c, log)
  {
    hide Fine; hide SigOk; hide HasBlock; hide PrepareResume; hide Stands;
    PrepareSignals(c);
  }

  // ---- the signals after a tick ----

  /** Blocks found between ticks have submitted; a block that is new has not. */
  lemma BlockSubmitted(prog: Program, c: Core, requested: bool, m: ActiveMap, n: ActiveMap, k: Key)
    requires SigOk(prog, c, requested, m) && AllExpected(prog, c, requested, n) && Extends(m, n)
    requires k in n && k.reason.MemBlock? && n[k].fsm.MemFsm?
    ensures HasBlock(m) == (n[k].fsm.st != Submit)
  {
    hide EvalEX; hide EvalAGU; hide BlockOk; hide Expected;
    if k in m {
      assert m[k] == n[k] && m[k].fsm.st != Submit;
    } else {
      assert n[k].fsm == MemFsm(Submit, None);
      forall j | j in m ensures !j.reason.MemBlock? {
        assert j in n;
      }
    }
  }

  lemma BlockAdvances(f: Fsm, r: Reason, port: Portal, c: Core)
    requires f.MemFsm? && r.MemBlock? && BlockOk(c, f, r)
    ensures FsmAction(Advance(f, r, port).0) != Normal <==> f.st != Release
  {
  }

  /** A memory block wins whenever there is one; no other signal changes except that RAW gives up. */
  lemma BlockTick(prog: Program, c: Core, requested: bool, m: ActiveMap, port: Portal, n: ActiveMap, k: Key)
    requires SigOk(prog, c, requested, m)
    requires Submitted(prog, c, requested, n) && Extends(m, n)
    requires k in n && k.reason.MemBlock?
    ensures Expected(prog, c, requested, n[k]) && k == KeyOf(n[k])
    ensures HasBlock(m) == (n[k].fsm.st != Submit)
    ensures var d := Decide(n, port);
            && d.ops == BlockOps(n[k].fsm.st) && d.winner == Some(k.reason)
            && (forall j :: j in d.active && j != k ==>
                  j in n && d.active[j] == n[j] && !j.reason.RawResolution? && !j.reason.MemBlock?)
            && (k in d.active <==> n[k].fsm.st != Release)
            && (k in d.active ==> d.active[k] == n[k].(fsm := Advance(n[k].fsm, k.reason, port).0))
            && d.port == Advance(n[k].fsm, k.reason, port).1 && Keyed(d.active)
  {
    hide EvalEX; hide EvalAGU; hide BlockOk; hide Decide; hide Advance; hide OpsOf;
    assert Expected(prog, c, requested, n[k]);
    WinnerBlock(prog, c, requested, n, k);
    Survivors(n, port);
    BlockSubmitted(prog, c, requested, m, n, k);
    var d := Decide(n, port);
    forall j | j in d.active && j != k
      ensures j in n && d.active[j] == n[j] && !j.reason.RawResolution? && !j.reason.MemBlock?
    {
      assert Expected(prog, c, requested, n[j]);
    }
    BlockAdvances(n[k].fsm, k.reason, port, c);
  }

  // ---- the four kinds of tick ----

  function NewReqs(p: Portal, p': Portal): seq<DramReq> {
    if |p'.pimReq| >= |p.pimReq| then p'.pimReq[|p.pimReq|..] else []
  }

  function LogAfter(log: seq<Access>, p: Portal, p': Portal): seq<Access> {
    log + AccessesOf(NewReqs(p, p'))
  }

  /** `c'` is a good pipeline that stands for the same state as `c`. */
  ghost predicate Stutters(c: Cpu, log: seq<Access>, port: Portal, c': Cpu, port': Portal) {
    && PortalStep(port, port', NewReqs(port, port'))
    && Inv(c', LogAfter(log, port, port'))
    && Abs(c', LogAfter(log, port, port')) == Abs(c, log)
    && EndOfEx(c', LogAfter(log, port, port')) == EndOfEx(c, log)
    && c'.core.ifid == c.core.ifid && c'.core.idex == c.core.idex
    && !Fetches(Decided(c, port).ops) && Conserved(c.core, Decided(c, port).ops, c'.core)
  }

  lemma SubmittedExpected(prog: Program, c: Core, requested: bool, n: ActiveMap)
    requires Submitted(prog, c, requested, n)
    ensures AllExpected(prog, c, requested, n)
  {
  }

  /** Jump and pause signals outlive any tick that leaves the instruction in ID alone. */
  lemma StaysExpected(prog: Program, c: Core, c': Core, requested: bool, a: Active)
    requires Expected(prog, c, requested, a) && c'.ifid == c.ifid
    requires !a.reason.RawResolution? && !a.reason.MemBlock?
    ensures Expected(prog, c', requested, a)
  {
  }

  lemma BlockStaysExpected(prog: Program, c: Core, c': Core, requested: bool, a: Active, port: Portal)
    requires Expected(prog, c, requested, a) && a.reason.MemBlock? && a.fsm.st != Release
    requires a.fsm.st == Submit || a.fsm.st == Waiting ==> c'.agumem == c.agumem
    requires a.fsm.st == WriteBack ==> !c'.agumem.valid && c'.memwb.valid
    ensures var f := Advance(a.fsm, a.reason, port).0;
            Expected(prog, c', requested, a.(fsm := f)) && f.MemFsm? && f.st != Submit
  {
  }

  lemma BlockSignals(prog: Program, c: Core, requested: bool, m: ActiveMap, port: Portal, n: ActiveMap, k: Key,
                     c': Core)
    requires SigOk(prog, c, requested, m)
    requires Submitted(prog, c, requested, n) && Extends(m, n)
    requires k in n && k.reason.MemBlock?
    requires n[k].fsm.MemFsm? && c'.ifid == c.ifid
    requires n[k].fsm.st == Submit || n[k].fsm.st == Waiting ==> c'.agumem == c.agumem
    requires n[k].fsm.st == WriteBack ==> !c'.agumem.valid && c'.memwb.valid
    ensures SigOk(prog, c', requested, Decide(n, port).active)
    ensures HasBlock(Decide(n, port).active) == (n[k].fsm.st != Release)
  {
    hide Expected; hide Decide; hide OpsOf; hide Submitted; hide BlockOps; hide Advance; hide SigOk; hide Extends;
    hide FsmAction;
    var d := Decide(n, port);
    BlockTick(prog, c, requested, m, port, n, k);
    SubmittedExpected(prog, c, requested, n);
    BlockSignalsExpected(prog, c, requested, port, n, k, c', d.active);
    if k in d.active {
      BlockStaysExpected(prog, c, c', requested, n[k], port);
    }
    MakeSigOk(prog, c', requested, d.active);
  }

  lemma BlockSignalsExpected(prog: Program, c: Core, requested: bool, port: Portal, n: ActiveMap, k: Key, c': Core,
                             m': ActiveMap)
    requires AllExpected(prog, c, requested, n) && k in n && k.reason.MemBlock?
    requires n[k].fsm.MemFsm? && c'.ifid == c.ifid
    requires n[k].fsm.st == Submit || n[k].fsm.st == Waiting ==> c'.agumem == c.agumem
    requires n[k].fsm.st == WriteBack ==> !c'.agumem.valid && c'.memwb.valid
    requires k in m' ==> n[k].fsm.st != Release && m'[k] == n[k].(fsm := Advance(n[k].fsm, k.reason, port).0)
    requires forall j :: j in m' && j != k ==>
               j in n && m'[j] == n[j] && !j.reason.RawResolution? && !j.reason.MemBlock?
    ensures forall j :: j in m' ==> Expected(prog, c', requested, m'[j])
  {
    hide Expected; hide Advance; hide FsmAction; hide BlockOk;
    forall j | j in m' ensures Expected(prog, c', requested, m'[j]) {
      assert j in n && n[j].reason == j.reason;
      if j == k {
        BlockStaysExpected(prog, c, c', requested, n[k], port);
      } else {
        StaysExpected(prog, c, c', requested, n[j]);
      }
    }
  }

  lemma MakeSigOk(prog: Program, c: Core, requested: bool, m: ActiveMap)
    requires AllExpected(prog, c, requested, m) && Settled(m)
    ensures SigOk(prog, c, requested, m)
  {
  }

  lemma OneAccess(q: DramReq)
    ensures AccessesOf([q]) == [Access(q.addr, q.isRead)]
  {
    assert [q][..0] == [];
  }

  lemma RunParts(c: Cpu, port: Portal)
    ensures var (c', port') := Run(c, port);
            var d := Decided(c, port);
            && c'.prog == c.prog && c'.core == NextOf(c.prog, c.core, c.pause.requested, d.ops)
            && c'.active == d.active && port' == d.port && c'.pause.requested == c.pause.requested
            && c'.started == c.started
            && (c'.progEndSeen == (c.progEndSeen || d.winner == Some(ProgEnd)))
            && (!c'.progEndSeen ==> !c'.finished)
            && c'.pause == UpdateReady(c.pause, d.winner)
  {
    hide Decided; hide NextCore; hide EvalAll;
  }

  /** The parts of a tick that a memory block wins. */
  lemma BlockedParts(c: Cpu, log: seq<Access>, port: Portal, n: ActiveMap, k: Key)
    requires Inv(c, log) && n == SubmitAll(c.active, EvalAll(c.prog, c.core, c.pause.requested))
    requires Submitted(c.prog, c.core, c.pause.requested, n) && Extends(c.active, n)
    requires k in n && k.reason.MemBlock?
    ensures n[k].fsm.MemFsm? && n[k].reason == k.reason && BlockOk(c.core, n[k].fsm, k.reason)
    ensures HasBlock(c.active) == (n[k].fsm.st != Submit)
    ensures var (c', port') := Run(c, port);
            && c'.prog == c.prog && c'.core == NextOf(c.prog, c.core, c.pause.requested, BlockOps(n[k].fsm.st))
            && c'.active == Decide(n, port).active
            && Decided(c, port).ops == BlockOps(n[k].fsm.st)
            && port' == Advance(n[k].fsm, k.reason, port).1 && c'.pause.requested == c.pause.requested
            && !c'.progEndSeen && !c'.finished
  {
    hide NextOf; hide Fine; hide Drain; hide Submitted; hide Extends; hide SubmitAll; hide EvalAll; hide Run;
    hide EvalEX; hide EvalAGU; hide SigOk; hide BlockOk; hide Advance; hide BlockOps; hide Decide;
    RunParts(c, port);
    BlockTick(c.prog, c.core, c.pause.requested, c.active, port, n, k);
  }

  lemma BlockedRun(c: Cpu, log: seq<Access>, port: Portal, n: ActiveMap, k: Key)
    requires Inv(c, log) && n == SubmitAll(c.active, EvalAll(c.prog, c.core, c.pause.requested))
    requires Submitted(c.prog, c.core, c.pause.requested, n) && Extends(c.active, n)
    requires k in n && k.reason.MemBlock?
    ensures Stutters(c, log, port, Run(c, port).0, Run(c, port).1)
  {
    hide NextOf; hide Fine; hide Drain; hide SigOk; hide Decide; hide Submitted; hide Extends; hide SubmitAll;
    hide EvalAll; hide EvalEX; hide EvalAGU; hide Run;
    BlockedParts(c, log, port, n, k);
    BlockedCore(c, log, port, n[k].fsm, k.reason);
    BlockSignals(c.prog, c.core, c.pause.requested, c.active, port, n, k, Run(c, port).0.core);
  }

  lemma BlockedCore(c: Cpu, log: seq<Access>, port: Portal, f: Fsm, r: Reason)
    requires Inv(c, log) && f.MemFsm? && r.MemBlock? && BlockOk(c.core, f, r)
    requires HasBlock(c.active) == (f.st != Submit)
    ensures var port' := Advance(f, r, port).1;
            var log' := LogAfter(log, port, port');
            var c' := NextOf(c.prog, c.core, c.pause.requested, BlockOps(f.st));
            && PortalStep(port, port', NewReqs(port, port'))
            && Fine(c.prog, c', f.st != Release, log')
            && Stands(c.prog, c', f.st != Release, log') == Abs(c, log)
            && AfterEx(c.prog.agu, c', f.st != Release, log') == EndOfEx(c, log)
            && c'.ifid == c.core.ifid && c'.idex == c.core.idex && Conserved(c.core, BlockOps(f.st), c')
            && (f.st == Submit || f.st == Waiting ==> c'.agumem == c.core.agumem)
            && (f.st == WriteBack ==> !c'.agumem.valid && c'.memwb.valid)
  {
    hide NextOf; hide Fine; hide Drain; hide SigOk; hide EvalAll;
    var requested := c.pause.requested;
    var port' := Advance(f, r, port).1;
    match f.st {
      case Submit =>
        HoldStep(c.prog, c.core, requested, false, log);
        var q := NewReq(r.addr, r.isRead, true);
        OneAccess(q);
        assert NewReqs(port, port') == [q];
      case Waiting =>
        HoldStep(c.prog, c.core, requested, true, log);
        assert NewReqs(port, port') == [] && LogAfter(log, port, port') == log;
      case WriteBack =>
        WriteBackStep(c.prog, c.core, requested, log);
        assert NewReqs(port, port') == [] && LogAfter(log, port, port') == log;
      case Release =>
        ReleaseStep(c.prog, c.core, requested, log);
        assert NewReqs(port, port') == [] && LogAfter(log, port, port') == log;
    }
  }

  /** Without a block there is no access to wait for. */
  lemma NoBlockNoAccess(c: Cpu, n: ActiveMap)
    requires CoreOk(c.core) && Submitted(c.prog, c.core, c.pause.requested, n) && Extends(c.active, n)
    requires !HasBlock(n)
    ensures !MemPending(c.core) && !HasBlock(c.active)
  {
    hide EvalEX; hide EvalAGU; hide AllExpected;
  }

  lemma SamePortal(log: seq<Access>, port: Portal)
    ensures PortalStep(port, port, NewReqs(port, port)) && LogAfter(log, port, port) == log
  {
  }

  lemma PausedRun(c: Cpu, log: seq<Access>, port: Portal, n: ActiveMap)
    requires Inv(c, log) && n == SubmitAll(c.active, EvalAll(c.prog, c.core, c.pause.requested))
    requires Submitted(c.prog, c.core, c.pause.requested, n) && Extends(c.active, n)
    requires c.pause.requested && !HasBlock(n)
    ensures Decided(c, port).ops == PAUSE_OPS
    ensures var (c', port') := Run(c, port);
            && Stutters(c, log, port, c', port')
            && c'.core == c.core && port' == port && Decided(c, port).winner == Some(ExternalPause)
            && !MemPending(c.core) && !HasBlock(c'.active)
  {
    var (c', port') := Run(c, port);
    RunParts(c, port);
    hide NextOf; hide Drain; hide EvalAll; hide EvalEX; hide EvalAGU; hide Run; hide SubmitAll; hide BlockOk;
    assert CoreOk(c.core);
    hide Fine;
    NoBlockNoAccess(c, n);
    WinnerPause(c.prog, c.core, n);
    PauseStep(c.prog, c.core);
    Survivors(n, port);
    SamePortal(log, port);
    SubmittedExpected(c.prog, c.core, true, n);
    hide Submitted; hide Decide; hide OpsOf; hide CoreOk;
    SurvivorsSettled(c.prog, c.core, c.core, true, n, c'.active);
  }

  /** Losing signals stay true as long as ID keeps its instruction. */
  lemma SurvivorsSettled(prog: Program, c: Core, c': Core, requested: bool, n: ActiveMap, m: ActiveMap)
    requires AllExpected(prog, c, requested, n) && !HasBlock(n) && c'.ifid == c.ifid && Keyed(m)
    requires forall j :: j in m ==> j in n && !n[j].fsm.RawFsm? && m[j] == n[j]
    ensures SigOk(prog, c', requested, m) && !HasBlock(m)
  {
    hide EvalEX; hide EvalAGU; hide BlockOk;
    forall j | j in m
      ensures Expected(prog, c', requested, m[j]) && !j.reason.RawResolution? && !j.reason.MemBlock?
    {
      assert Expected(prog, c, requested, n[j]);
      StaysExpected(prog, c, c', requested, n[j]);
    }
  }

  /** Without an access in MEM, AGU waits for nothing. */
  lemma AguFree(c: Cpu, log: seq<Access>)
    requires Inv(c, log) && !MemPending(c.core)
    ensures EvalAGU(c.prog, c.core) != AGU_RAW
  {
    hide EvalAGU; hide AfterAgu; hide SigOk;
    FineIsCoreFine(c.prog, c.core, HasBlock(c.active), log);
    FineStages(c.prog, c.core, HasBlock(c.active), log);
    AguExact(c.prog, c.core, HasBlock(c.active), log);
  }

  lemma DecidedOf(c: Cpu, port: Portal, n: ActiveMap)
    requires n == SubmitAll(c.active, EvalAll(c.prog, c.core, c.pause.requested))
    ensures Decided(c, port) == Decide(n, port)
  {
    hide EvalAll; hide SubmitAll; hide Decide;
  }

  lemma RawRun(c: Cpu, log: seq<Access>, port: Portal, n: ActiveMap)
    requires Inv(c, log) && n == SubmitAll(c.active, EvalAll(c.prog, c.core, c.pause.requested))
    requires Submitted(c.prog, c.core, c.pause.requested, n) && Extends(c.active, n)
    requires !c.pause.requested && !HasBlock(n) && EvalEX(c.core) == EX_RAW
    ensures var (c', port') := Run(c, port);
            && Stutters(c, log, port, c', port') && port' == port
            && c'.core == NextOf(c.prog, c.core, false, RAW_OPS) && c'.core.ifid == c.core.ifid
  {
    hide NextOf; hide EvalAll; hide EvalEX; hide EvalAGU; hide Run; hide SubmitAll; hide BlockOk; hide Drain;
    hide AfterEx;
    hide DrainId; hide RegsOk; hide FwdOk; hide Decided;
    var (c', port') := Run(c, port);
    RunParts(c, port);
    assert CoreOk(c.core);
    NoBlockNoAccess(c, n);
    AguFree(c, log);
    DecidedOf(c, port, n);
    WinnerRaw(c.prog, c.core, n);
    RawStep(c.prog, c.core, false, log);
    Survivors(n, port);
    SamePortal(log, port);
    SubmittedExpected(c.prog, c.core, false, n);
    hide Submitted; hide Decide; hide OpsOf; hide CoreOk;
    SurvivorsSettled(c.prog, c.core, c'.core, false, n, c'.active);
  }

  /** The signals of a flowing pipeline: a jump wins and is gone, otherwise there are none. */
  lemma FlowDecision(c: Cpu, log: seq<Access>, port: Portal, n: ActiveMap)
    requires Orderly(c, log) && !ExitNow(c.core)
    requires Submitted(c.prog, c.core, false, n) && Extends(c.active, n)
    requires !c.pause.requested && !HasBlock(n) && EvalEX(c.core) != EX_RAW
    ensures !MemPending(c.core) && !HasBlock(c.active)
    ensures var d := Decide(n, port);
            d.ops == FlowOps(c.core) && d.active == map[] && d.port == port && d.winner != Some(ProgEnd)
  {
    hide Drain; hide EvalEX; hide EvalAGU; hide BlockOk; hide AfterEx;
    assert CoreOk(c.core);
    NoBlockNoAccess(c, n);
    FineStages(c.prog, c.core, HasBlock(c.active), log);
    AguExact(c.prog, c.core, HasBlock(c.active), log);
    WinnerJump(c.prog, c.core, n);
    SubmittedExpected(c.prog, c.core, false, n);
    hide Submitted;
    if n != map[] {
      Survivors(n, port);
      assert Expected(c.prog, c.core, false, n[JUMP_KEY]);
      assert Decide(n, port).active.Keys == {};
    }
  }

  lemma InvIsOrderly(c: Cpu, log: seq<Access>)
    requires Inv(c, log)
    ensures Orderly(c, log)
  {
    hide SigOk; hide CoreFine; hide Fine;
    FineIsCoreFine(c.prog, c.core, HasBlock(c.active), log);
  }

  lemma FlowRun(c: Cpu, log: seq<Access>, port: Portal, n: ActiveMap)
    requires Inv(c, log) && n == SubmitAll(c.active, EvalAll(c.prog, c.core, c.pause.requested))
    requires Submitted(c.prog, c.core, c.pause.requested, n) && Extends(c.active, n)
    requires !c.pause.requested && !HasBlock(n) && EvalEX(c.core) != EX_RAW
    requires !ExitNow(c.core) && !ClashNow(c) && (JumpInId(c.core) || Allowed(c.prog, Abs(c, log)))
    ensures var (c', port') := Run(c, port);
            && port' == port && Inv(c', log)
            && (JumpInId(c.core) || !Clashes(c.prog, Abs(c, log)) ==> KeptApart(c', log))
            && EndOfEx(c, log).status == Running && EndOfEx(c', log).status == Abs(c, log).arch.d.status
            && Decided(c, port).ops == FlowOps(c.core) && Conserved(c.core, FlowOps(c.core), c'.core)
            && Abs(c', log) == (if JumpInId(c.core) then Abs(c, log) else FetchStep(c.prog, Abs(c, log)))
            && c'.core == NextOf(c.prog, c.core, false, FlowOps(c.core))
  {
    hide NextOf; hide EvalAll; hide EvalEX; hide EvalAGU; hide Run; hide SubmitAll; hide BlockOk;
    hide Submitted; hide Extends; hide Decide; hide Allowed; hide FetchStep; hide Drain; hide AfterEx; hide CoreOk;
    var (c', port') := Run(c, port);
    RunParts(c, port);
    InvIsOrderly(c, log);
    FlowDecision(c, log, port, n);
    FlowStep(c.prog, c.core, false, log);
    FetchedDrains(c.prog, c.core, false, log, c'.core);
  }

  /** Fetching an instruction adds its step at the end of the drain. */
  lemma FetchedDrains(prog: Program, c: Core, s: bool, log: seq<Access>, c': Core)
    requires Fine(prog, c, s, log) && CoreOk(c') && AfterEx(prog.agu, c, s, log).status == Running && !JumpBehindTest(c)
    requires AfterEx(prog.agu, c', false, log) == Drain(prog.agu, c, s, log).d
    requires c'.rf.pc == FlowTo(c) && c'.idex == EvalID(c.ifid, c.rf).next
    requires c'.ifid == if JumpInId(c) then c.ifid.(valid := false) else EvalIF(prog, c.rf).next
    requires JumpInId(c) || Allowed(prog, Stands(prog, c, s, log))
    ensures Fine(prog, c', false, log)
    ensures JumpInId(c) || !Clashes(prog, Stands(prog, c, s, log)) ==> Apart(prog, c', false, log)
    ensures Stands(prog, c', false, log) ==
            if JumpInId(c) then Stands(prog, c, s, log) else FetchStep(prog, Stands(prog, c, s, log))
  {
    hide AfterEx; hide Exec;
  }

  // ---- the theorem of one tick ----

  /** If the tick fetches, what it fetches does not fault. Behind an exit test and a jump nothing is
      fetched. */
  ghost predicate FetchesAllowed(c: Cpu, log: seq<Access>, port: Portal) {
    JumpBehindTest(c.core) || (Fetches(Decided(PrepareResume(c), port).ops) ==> Allowed(c.prog, Abs(c, log)))
  }

  /** A tick in which nothing stalls fetches unless a jump is in ID. */
  lemma FlowFetches(c: Cpu, log: seq<Access>, port: Portal, n: ActiveMap)
    requires Inv(c, log) && n == SubmitAll(c.active, EvalAll(c.prog, c.core, c.pause.requested))
    requires Submitted(c.prog, c.core, c.pause.requested, n) && Extends(c.active, n)
    requires !c.pause.requested && !HasBlock(n) && EvalEX(c.core) != EX_RAW && !ExitNow(c.core)
    ensures Fetches(Decided(c, port).ops) == !JumpInId(c.core)
  {
    hide EvalAll; hide EvalEX; hide EvalAGU; hide SubmitAll; hide BlockOk; hide Submitted; hide Extends; hide Decide;
    hide CoreFine; hide CoreOk; hide SigOk;
    InvIsOrderly(c, log);
    FlowDecision(c, log, port, n);
    DecidedOf(c, port, n);
  }

  /** One tick stands for one sequential step if it fetches and for none otherwise; it makes at most
      one DRAM request, the next access of the sequential machine; no instruction is lost. The ticks
      left out are the one in which EX takes an exit, the one that panics, and one that fetches an
      instruction that faults. */
  lemma TickRefines(c: Cpu, log: seq<Access>, port: Portal)
    requires Inv(c, log) && !ExitNow(c.core) && !ClashNow(PrepareResume(c))
    requires FetchesAllowed(c, log, port)
    ensures var (c', port') := Tick(c, port);
            var log' := LogAfter(log, port, port');
            var ops := Decided(PrepareResume(c), port).ops;
            && c'.prog == c.prog
            && PortalStep(port, port', NewReqs(port, port'))
            && Inv(c', log')
            && Abs(c', log') == (if Fetches(ops) then FetchStep(c.prog, Abs(c, log)) else Abs(c, log))
            && Conserved(c.core, ops, c'.core)
            && (KeptApart(c, log) && (Fetches(ops) ==> !Clashes(c.prog, Abs(c, log))) ==> KeptApart(c', log'))
            && (JumpBehindTest(c.core) ==> JumpBehindTest(c'.core) && !Fetches(ops))
            && (Clashes(c.prog, Abs(c, log)) && Fetches(ops) ==> JumpBehindTest(c'.core))
            && (EndOfEx(c, log).status == Exited ==> EndOfEx(c', log').status == Exited && !Fetches(ops))
            && (Fetches(ops) ==> EndOfEx(c', log').status == Abs(c, log).arch.d.status)
  {
    PrepareKeeps(c, log);
    var c1 := PrepareResume(c);
    var requested := c1.pause.requested;
    var n := SubmitAll(c1.active, EvalAll(c1.prog, c1.core, requested));
    RunParts(c1, port);
    hide EvalAll; hide EvalEX; hide EvalAGU; hide Run; hide SubmitAll; hide PrepareResume; hide Drain;
    hide Decided;
    FineIsCoreFine(c1.prog, c1.core, HasBlock(c1.active), log);
    SubmitAllAdds(c1.prog, c1.core, HasBlock(c1.active), log, requested, c1.active);
    hide Fine; hide Submitted; hide Extends; hide SigOk; hide Allowed; hide Conserved;
    if HasBlock(n) {
      var k :| k in n && k.reason.MemBlock?;
      BlockedRun(c1, log, port, n, k);
    } else if requested {
      PausedRun(c1, log, port, n);
    } else if EvalEX(c1.core) == EX_RAW {
      RawRun(c1, log, port, n);
    } else {
      NoBlockFlows(c1, log, n);
      FlowFetches(c1, log, port, n);
      FlowRun(c1, log, port, n);
      FetchedBehind(c1, log);
      SamePortal(log, port);
    }
  }

  /** Without a block nothing holds back a test and a jump behind it. */
  lemma NoBlockFlows(c: Cpu, log: seq<Access>, n: ActiveMap)
    requires Orderly(c, log) && !ExitNow(c.core) && !ClashNow(c) && !c.pause.requested && EvalEX(c.core) != EX_RAW
    requires Submitted(c.prog, c.core, false, n) && Extends(c.active, n) && !HasBlock(n)
    ensures !JumpBehindTest(c.core) && !MemPending(c.core)
  {
    hide Submitted; hide Extends; hide EvalEX; hide AfterEx; hide SigOk;
    NoBlockNoAccess(c, n);
  }

  /** A jump fetched right behind an exit test ends up right behind it. */
  lemma FetchedBehind(c: Cpu, log: seq<Access>)
    requires Inv(c, log) && !MemPending(c.core) && EvalEX(c.core) != EX_RAW && !ExitNow(c.core)
          && !JumpBehindTest(c.core)
    ensures var c' := NextOf(c.prog, c.core, false, FlowOps(c.core));
            Clashes(c.prog, Abs(c, log)) ==> JumpBehindTest(c') && !JumpInId(c.core)
    ensures Fetches(FlowOps(c.core)) == !JumpInId(c.core)
  {
    hide NextOf; hide EvalEX; hide AfterEx; hide EvalAGU; hide SigOk; hide DrainId; hide ExitNow;
    FlowStep(c.prog, c.core, HasBlock(c.active), log);
  }
}
