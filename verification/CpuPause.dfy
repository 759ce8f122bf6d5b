/** The pause handshake: what a paused pipeline guarantees and how soon it gets there. */
module CpuPause {
  import opened Words
  import opened DramPortals
  import opened CpuTypes
  import opened Scoreboard
  import opened CpuStages
  import opened CpuPipeline
  import opened Isa
  import opened CpuDrain
  import opened CpuForwarding
  import opened CpuArbitration
  import opened CpuDecision
  import opened CpuSteps
  import opened FetchMachine
  import opened CpuRefinement
  import opened CpuRuns

  /** A pause is asserted and no memory access is waiting or in progress. */
  ghost predicate Frozen(c: Cpu) {
    c.pause.requested && !MemPending(c.core) && !HasBlock(c.active)
  }

  predicate ExAccess(c: Core) {
    c.exagu.valid && c.exagu.dma != DmaNop
  }

  /** The memory accesses a paused pipeline still has to complete: in MEM, and in AGU. */
  function Transactions(c: Core): nat {
    Bit(MemPending(c)) + Bit(ExAccess(c))
  }

  ghost predicate BlockIs(m: ActiveMap, st: MemState) {
    exists k :: k in m && k.reason.MemBlock? && m[k].fsm.MemFsm? && m[k].fsm.st == st
  }

  /** Ticks left until the pipeline is frozen, not counting those spent waiting for DRAM. */
  ghost function Rank(c: Cpu): nat {
    if Frozen(c) then 0
    else
      (if BlockIs(c.active, Waiting) then 3 else if BlockIs(c.active, WriteBack) then 2
       else if HasBlock(c.active) then 1 else 4)
      + 4 * Bit(ExAccess(c.core))
  }

  /** The response the memory block is waiting for has not arrived. */
  ghost predicate NoAnswer(c: Cpu, port: Portal) {
    exists k :: k in c.active && k.reason.MemBlock? && c.active[k].fsm.MemFsm? && c.active[k].fsm.st == Waiting
      && FirstMatch(port.pimResp, NewReq(k.reason.addr, k.reason.isRead, true)) == |port.pimResp|
  }

  // ---- one tick of a pipeline with a pause asserted ----

  ghost predicate PauseHolds(c: Cpu) {
    c.pause.requested && !(c.pause.resumePending && c.pause.remaining == 0)
  }

  /** A frozen pipeline does nothing at all. */
  lemma FrozenTick(c: Cpu, log: seq<Access>, port: Portal)
    requires Inv(c, log) && Frozen(c) && PauseHolds(c) && !ExitNow(c.core)
    ensures var (c', port') := Tick(c, port);
            && c'.core == c.core && port' == port && Inv(c', log) && Frozen(c') && Abs(c', log) == Abs(c, log)
            && c'.pause == UpdateReady(c.pause, Some(ExternalPause))
            && LogAfter(log, port, port') == log
  {
    var n := SubmitAll(c.active, EvalAll(c.prog, c.core, true));
    RunParts(c, port);
    hide EvalAll; hide EvalEX; hide EvalAGU; hide Run; hide SubmitAll; hide Drain; hide Decided;
    FineIsCoreFine(c.prog, c.core, false, log);
    SubmitAllAdds(c.prog, c.core, false, log, true, c.active);
    hide Fine; hide SigOk;
    NoNewBlock(c.prog, c.core, c.active, n);
    hide Submitted; hide Extends;
    PausedRun(c, log, port, n);
    SamePortal(log, port);
  }

  lemma NoNewBlock(prog: Program, c: Core, m: ActiveMap, n: ActiveMap)
    requires !MemPending(c) && !HasBlock(m)
    requires Submitted(prog, c, true, n) && Extends(m, n)
    ensures !HasBlock(n)
  {
    hide EvalEX; hide EvalAGU;
    forall k | k in n ensures !k.reason.MemBlock? {
    }
  }

  lemma UniqueBlock(m: ActiveMap, k: Key)
    requires k in m && k.reason.MemBlock? && m[k].fsm.MemFsm?
    requires forall j :: j in m && j.reason.MemBlock? ==> j == k
    ensures HasBlock(m) && forall st :: BlockIs(m, st) <==> st == m[k].fsm.st
  {
    forall st | BlockIs(m, st) ensures st == m[k].fsm.st {
    }
  }

  /** The block a paused pipeline was working on. */
  lemma BlockBefore(prog: Program, c: Core, requested: bool, m: ActiveMap, n: ActiveMap, k: Key)
    requires SigOk(prog, c, requested, m)
    requires AllExpected(prog, c, requested, n) && Extends(m, n) && k in n && k.reason.MemBlock?
    ensures n[k].fsm.MemFsm?
    ensures HasBlock(m) ==> k in m && BlockIs(m, n[k].fsm.st)
    ensures forall st :: BlockIs(m, st) ==> st == n[k].fsm.st
  {
    hide EvalEX; hide EvalAGU; hide BlockOk;
    assert Expected(prog, c, requested, n[k]);
    if HasBlock(m) {
      var j :| j in m && j.reason.MemBlock?;
      assert j in n && j == k;
      UniqueBlock(m, k);
    }
  }

  /** The block it is working on after the tick. */
  lemma BlockAfter(prog: Program, c: Core, requested: bool, m: ActiveMap, port: Portal, n: ActiveMap, k: Key)
    requires SigOk(prog, c, requested, m)
    requires Submitted(prog, c, requested, n) && Extends(m, n) && k in n && k.reason.MemBlock? && n[k].fsm.MemFsm?
    ensures var d := Decide(n, port);
            var f := Advance(n[k].fsm, k.reason, port).0;
            && f.MemFsm?
            && (n[k].fsm.st != Release ==>
                  BlockIs(d.active, f.st) && (forall st :: BlockIs(d.active, st) ==> st == f.st))
            && (n[k].fsm.st == Release ==> !HasBlock(d.active))
  {
    BlockTick(prog, c, requested, m, port, n, k);
    hide EvalEX; hide EvalAGU; hide Decide; hide BlockOps; hide Submitted; hide OpsOf; hide SigOk;
    hide Expected; hide Extends;
    var d := Decide(n, port);
    if k in d.active {
      UniqueBlock(d.active, k);
    }
  }

  /** The accesses whose DRAM request is still to be made. */
  ghost function Unsubmitted(c: Cpu): nat {
    Bit(MemPending(c.core) && !HasBlock(c.active)) + Bit(ExAccess(c.core))
  }

  lemma BlockPresent(c: Cpu, n: ActiveMap)
    requires CoreOk(c.core) && Submitted(c.prog, c.core, true, n) && Extends(c.active, n)
    requires MemPending(c.core) || HasBlock(c.active)
    ensures HasBlock(n)
  {
    hide EvalEX; hide EvalAGU; hide AllExpected;
    if HasBlock(c.active) {
      var k :| k in c.active && k.reason.MemBlock?;
      assert k in n;
    } else {
      assert BlockKey(c.core.agumem) in n;
    }
  }

  /** What a blocked tick does to the accesses in MEM and AGU. */
  lemma PausedCore(c: Cpu, log: seq<Access>, port: Portal, f: Fsm, r: Reason)
    requires Inv(c, log) && f.MemFsm? && r.MemBlock? && BlockOk(c.core, f, r)
    requires HasBlock(c.active) == (f.st != Submit)
    ensures var port' := Advance(f, r, port).1;
            var c' := NextOf(c.prog, c.core, c.pause.requested, BlockOps(f.st));
            && |NewReqs(port, port')| == Bit(f.st == Submit)
            && (f.st == Submit || f.st == Waiting ==>
                  MemPending(c.core) && MemPending(c') && ExAccess(c') == ExAccess(c.core))
            && (f.st == WriteBack ==> MemPending(c.core) && !MemPending(c') && ExAccess(c') == ExAccess(c.core))
            && (f.st == Release ==>
                  !MemPending(c.core) && MemPending(c') == ExAccess(c.core) && !ExAccess(c'))
  {
    hide NextOf; hide Fine; hide Drain; hide SigOk;
    match f.st {
      case Submit => HoldStep(c.prog, c.core, c.pause.requested, false, log);
      case Waiting => HoldStep(c.prog, c.core, c.pause.requested, true, log);
      case WriteBack => WriteBackStep(c.prog, c.core, c.pause.requested, log);
      case Release => ReleaseStep(c.prog, c.core, c.pause.requested, log);
    }
  }

  lemma WaitingAnswer(c: Cpu, port: Portal, n: ActiveMap, k: Key)
    requires SigOk(c.prog, c.core, c.pause.requested, c.active) && Extends(c.active, n)
    requires AllExpected(c.prog, c.core, c.pause.requested, n) && k in n && k.reason.MemBlock? && n[k].fsm.MemFsm?
    requires HasBlock(c.active) ==> k in c.active
    ensures NoAnswer(c, port) ==> n[k].fsm.st == Waiting && Advance(n[k].fsm, k.reason, port).0.st == Waiting
    ensures !NoAnswer(c, port) && n[k].fsm.st == Waiting ==> Advance(n[k].fsm, k.reason, port).0.st == WriteBack
  {
    hide EvalEX; hide EvalAGU;
    assert Expected(c.prog, c.core, c.pause.requested, n[k]);
    if NoAnswer(c, port) {
      var j :| j in c.active && j.reason.MemBlock? && c.active[j].fsm.MemFsm? && c.active[j].fsm.st == Waiting
        && FirstMatch(port.pimResp, NewReq(j.reason.addr, j.reason.isRead, true)) == |port.pimResp|;
      assert j in n;
      assert j == k;
    } else if n[k].fsm.st == Waiting {
      assert k in c.active;
    }
  }

  /** A paused pipeline that is not frozen works off its accesses. Each tick either waits for a
      response that has not come or comes closer to the frozen state; each DRAM request and each
      completed access uses up one of the transactions that were left. */
  lemma PausedTick(c: Cpu, log: seq<Access>, port: Portal)
    requires Inv(c, log) && PauseHolds(c) && !Frozen(c) && !ExitNow(c.core)
    ensures var (c', port') := Tick(c, port);
            var completes := Decided(c, port).ops == WRITEBACK_OPS;
            && Inv(c', LogAfter(log, port, port')) && Abs(c', LogAfter(log, port, port')) == Abs(c, log)
            && c'.pause == UpdateReady(c.pause, Decided(c, port).winner)
            && Decided(c, port).winner != Some(ExternalPause)
            && Transactions(c'.core) + Bit(completes) <= Transactions(c.core)
            && |NewReqs(port, port')| + Unsubmitted(c') <= Unsubmitted(c)
            && (if NoAnswer(c, port) then Rank(c') == Rank(c) else Rank(c') < Rank(c))
  {
    hide EvalAll; hide EvalEX; hide EvalAGU; hide Run; hide SubmitAll; hide Drain; hide Fine; hide SigOk;
    hide Submitted;
    hide Extends; hide AllExpected; hide NoAnswer; hide Decide; hide BlockOk; hide NextOf; hide Rank; hide Transactions;
    hide BlockOps; hide PortalStep; hide Conserved; hide HasBlock;
    var n, k := PausedBlock(c, log);
    BlockedRun(c, log, port, n, k);
    PausedCounts(c, log, port, n, k);
  }

  /** The block that wins while a pause is asserted and the pipeline is not frozen. */
  lemma PausedBlock(c: Cpu, log: seq<Access>) returns (n: ActiveMap, k: Key)
    requires Inv(c, log) && c.pause.requested && !Frozen(c) && !ExitNow(c.core)
    ensures n == SubmitAll(c.active, EvalAll(c.prog, c.core, true))
    ensures Submitted(c.prog, c.core, true, n) && Extends(c.active, n) && AllExpected(c.prog, c.core, true, n)
    ensures k in n && k.reason.MemBlock?
  {
    hide EvalAll; hide EvalEX; hide EvalAGU; hide SubmitAll; hide Drain;
    n := SubmitAll(c.active, EvalAll(c.prog, c.core, true));
    FineIsCoreFine(c.prog, c.core, HasBlock(c.active), log);
    SubmitAllAdds(c.prog, c.core, HasBlock(c.active), log, true, c.active);
    assert CoreOk(c.core);
    hide Fine; hide SigOk;
    BlockPresent(c, n);
    k :| k in n && k.reason.MemBlock?;
    SubmittedExpected(c.prog, c.core, true, n);
  }

  lemma PausedCounts(c: Cpu, log: seq<Access>, port: Portal, n: ActiveMap, k: Key)
    requires Inv(c, log) && c.pause.requested && !Frozen(c)
    requires n == SubmitAll(c.active, EvalAll(c.prog, c.core, true))
    requires Submitted(c.prog, c.core, true, n) && Extends(c.active, n) && AllExpected(c.prog, c.core, true, n)
    requires k in n && k.reason.MemBlock?
    ensures var (c', port') := Run(c, port);
            && c'.pause == UpdateReady(c.pause, Decided(c, port).winner)
            && Decided(c, port).winner != Some(ExternalPause)
            && Transactions(c'.core) + Bit(Decided(c, port).ops == WRITEBACK_OPS) <= Transactions(c.core)
            && |NewReqs(port, port')| + Unsubmitted(c') <= Unsubmitted(c)
            && (if NoAnswer(c, port) then Rank(c') == Rank(c) else Rank(c') < Rank(c))
  {
    hide EvalAll; hide EvalEX; hide EvalAGU; hide Run; hide SubmitAll; hide Drain; hide Fine; hide SigOk;
    hide Submitted;
    hide Extends; hide AllExpected; hide NoAnswer; hide Decide; hide NextOf; hide Rank; hide BlockOk;
    hide BlockIs; hide HasBlock;
    var (c', port') := Run(c, port);
    RunParts(c, port);
    BlockedParts(c, log, port, n, k);
    BlockBefore(c.prog, c.core, true, c.active, n, k);
    BlockAfter(c.prog, c.core, true, c.active, port, n, k);
    WaitingAnswer(c, port, n, k);
    BlockWins(c, port, n, k);
    PausedCore(c, log, port, n[k].fsm, k.reason);
    assert n[k].fsm.st != Done by { BlockNotDone(c.core, n[k].fsm, k.reason); }
    BlockIsBlock(c'.active, Advance(n[k].fsm, k.reason, port).0.st);
    RankFalls(c, c', n[k].fsm, Advance(n[k].fsm, k.reason, port).0);
  }

  lemma BlockIsBlock(m: ActiveMap, st: MemState)
    ensures BlockIs(m, st) ==> HasBlock(m)
  {
  }

  lemma BlockNotDone(c: Core, f: Fsm, r: Reason)
    requires f.MemFsm? && r.MemBlock? && BlockOk(c, f, r)
    ensures f.st != Done
  {
  }

  lemma BlockWins(c: Cpu, port: Portal, n: ActiveMap, k: Key)
    requires SigOk(c.prog, c.core, true, c.active) && c.pause.requested
    requires n == SubmitAll(c.active, EvalAll(c.prog, c.core, true))
    requires Submitted(c.prog, c.core, true, n) && Extends(c.active, n)
    requires k in n && k.reason.MemBlock?
    ensures n[k].fsm.MemFsm? && Decided(c, port).winner == Some(k.reason)
    ensures (Decided(c, port).ops == WRITEBACK_OPS) == (n[k].fsm.st == WriteBack)
  {
    hide EvalAll; hide EvalEX; hide EvalAGU; hide SubmitAll; hide SigOk; hide Submitted; hide Extends;
    hide Decide; hide BlockOk;
    BlockTick(c.prog, c.core, true, c.active, port, n, k);
  }

  /** The rank against the states of the block before (`f`) and after (`g`) the tick. */
  lemma RankFalls(c: Cpu, c': Cpu, f: Fsm, g: Fsm)
    requires c.pause.requested && c'.pause.requested && !Frozen(c) && f.MemFsm? && g.MemFsm?
    requires HasBlock(c.active) == (f.st != Submit) && f.st != Done
    requires HasBlock(c.active) ==> BlockIs(c.active, f.st)
    requires forall st :: BlockIs(c.active, st) ==> st == f.st
    requires f.st != Release ==> BlockIs(c'.active, g.st) && forall st :: BlockIs(c'.active, st) ==> st == g.st
    requires f.st == Release ==> !HasBlock(c'.active)
    requires f.st == Submit ==> g.st == Waiting
    requires f.st == Waiting ==> g.st == Waiting || g.st == WriteBack
    requires f.st == WriteBack ==> g.st == Release
    requires f.st == Submit || f.st == Waiting ==> MemPending(c'.core) && ExAccess(c'.core) == ExAccess(c.core)
    requires f.st == WriteBack ==> ExAccess(c'.core) == ExAccess(c.core)
    requires f.st == Release ==> MemPending(c'.core) == ExAccess(c.core) && !ExAccess(c'.core)
    ensures f.st == Waiting && g.st == Waiting ==> Rank(c') == Rank(c)
    ensures !(f.st == Waiting && g.st == Waiting) ==> Rank(c') < Rank(c)
  {
    assert BlockIs(c'.active, g.st) ==> HasBlock(c'.active);
  }

  // ---- runs with pauses ----

  /** The handshake's own invariant: readiness is only ever reported by a frozen pipeline that takes no
      exit. */
  ghost predicate PauseOk(c: Cpu) {
    && (c.pause.requested && c.pause.delayStarted ==> Frozen(c) && !ExitNow(c.core))
    && (c.pause.requested && c.pause.ready ==> c.pause.delayStarted)
    && (c.pause.resumePending ==> c.pause.requested && !c.pause.ready && !c.pause.delayStarted)
  }

  lemma PauseOkTick(c: Cpu, log: seq<Access>, port: Portal)
    requires Inv(c, log) && PauseOk(c) && !ExitNow(c.core)
    ensures PauseOk(Tick(c, port).0)
  {
    hide Run; hide Inv; hide Decided; hide ExitNow;
    PrepareKeeps(c, log);
    var c1 := PrepareResume(c);
    RunParts(c1, port);
    if c1.pause.requested {
      if Frozen(c1) {
        FrozenTick(c1, log, port);
      } else {
        PausedTick(c1, log, port);
      }
    }
  }

  lemma PauseOkOne(s: RunState, ev: Event)
    requires Inv(s.cpu, s.log) && PauseOk(s.cpu) && Smooth(s, ev)
    ensures PauseOk(RunOne(s, ev).cpu)
  {
    hide Inv; hide Tick; hide Drain; hide Decided; hide LogAfter; hide MemPending; hide Panics; hide ExitNow;
    match ev
    case TickEv(port) => PauseOkTick(s.cpu, s.log, port);
    case _ =>
  }

  lemma {:induction false} PauseOkAlways(c0: Cpu, r: Trace, n: nat)
    requires Inv(c0, []) && PauseOk(c0) && Regular(c0, r, n)
    ensures Inv(r.states[n].cpu, r.states[n].log) && PauseOk(r.states[n].cpu)
  {
    hide FetchSteps; hide Allowed; hide Abs; hide Inv; hide RunOne; hide PauseOk; hide PendingAccesses;
    hide Occupied; hide Smooth;
    RunFetches(c0, r, n);
    if n > 0 {
      RegularBefore(c0, r, n - 1, n);
      PauseOkAlways(c0, r, n - 1);
      assert Linked(r, n - 1);
      PauseOkOne(r.states[n - 1], r.evs[n - 1]);
    }
  }

  /** No resume among the events from `n` up to `m`. */
  predicate NoResume(evs: seq<Event>, n: nat, m: nat)
    requires n <= m <= |evs|
  {
    forall i :: n <= i < m ==> evs[i] != ResumeEv
  }

  /** Safety of a pause: from the moment the CPU reports ready, and until it is resumed, no register,
      program counter, memory entry or latch changes and no DRAM request is made or outstanding. */
  lemma {:induction false} PauseIsSafe(c0: Cpu, r: Trace, n: nat, m: nat)
    requires Inv(c0, []) && PauseOk(c0) && Regular(c0, r, m) && n <= m
    requires r.states[n].cpu.pause.requested && r.states[n].cpu.pause.ready
    requires NoResume(r.evs, n, m)
    ensures r.states[m].cpu.core == r.states[n].cpu.core && r.states[m].log == r.states[n].log
    ensures Frozen(r.states[m].cpu) && !r.states[m].cpu.pause.resumePending
  {
    hide FetchSteps; hide Smooth; hide Allowed; hide Abs; hide Inv; hide RunOne; hide Frozen;
    PauseOkAlways(c0, r, m);
    if m > n {
      RegularBefore(c0, r, m - 1, m);
      PauseIsSafe(c0, r, n, m - 1);
      PauseOkAlways(c0, r, m - 1);
      assert Linked(r, m - 1);
      SafeOne(r.states[m - 1], r.evs[m - 1]);
    }
  }

  lemma SafeOne(s: RunState, ev: Event)
    requires Inv(s.cpu, s.log) && PauseOk(s.cpu) && Frozen(s.cpu) && !s.cpu.pause.resumePending && ev != ResumeEv
    requires Smooth(s, ev)
    ensures var s' := RunOne(s, ev);
            s'.cpu.core == s.cpu.core && s'.log == s.log && Frozen(s'.cpu) && !s'.cpu.pause.resumePending
  {
    hide Inv; hide Tick; hide Drain; hide Decided; hide LogAfter; hide MemPending; hide Panics; hide PauseOk;
    match ev
    case TickEv(port) => FrozenTick(s.cpu, s.log, port);
    case _ =>
  }

  /** Only clock ticks among the events from `n` up to `m`. */
  predicate OnlyTicks(evs: seq<Event>, n: nat, m: nat)
    requires n <= m <= |evs|
  {
    forall i :: n <= i < m ==> evs[i].TickEv?
  }

  /** The handshake `j` ticks after the first one the pause won. */
  predicate Counting(p: PauseCtl, delay: nat, j: nat) {
    && p.ready == (j >= delay) && p.requested && p.delayStarted && !p.resumePending && p.pauseDelay == delay
    && p.remaining == (if j < delay then delay - 1 - j else 0)
  }

  lemma CountStep(p: PauseCtl, delay: nat, j: nat)
    requires p.requested && !p.resumePending && p.pauseDelay == delay
    requires if j == 0 then !p.delayStarted && p.remaining == 0 else Counting(p, delay, j - 1)
    ensures Counting(UpdateReady(p, Some(ExternalPause)), delay, j)
  {
  }

  /** Counting the first tick the pause wins as tick 0, readiness comes with tick `pauseDelay`. */
  lemma {:induction false} AckTiming(c0: Cpu, r: Trace, n: nat, j: nat)
    requires Inv(c0, []) && PauseOk(c0) && Regular(c0, r, n + j + 1) && OnlyTicks(r.evs, n, n + j + 1)
    requires var p := r.states[n].cpu.pause; !p.delayStarted && p.remaining == 0 && !p.resumePending
    requires Frozen(r.states[n].cpu)
    ensures Counting(r.states[n + j + 1].cpu.pause, r.states[n].cpu.pause.pauseDelay, j)
    ensures Frozen(r.states[n + j + 1].cpu)
  {
    hide FetchSteps; hide Smooth; hide RunOne; hide Allowed; hide Abs; hide Inv; hide Frozen; hide PauseOk;
    var s := r.states[n + j];
    var port := r.evs[n + j].port;
    assert Linked(r, n + j);
    RegularBefore(c0, r, n + j, n + j + 1);
    PauseOkAlways(c0, r, n + j);
    if j > 0 {
      AckTiming(c0, r, n, j - 1);
    }
    AckStep(s, port, r.states[n].cpu.pause.pauseDelay, j);
  }

  lemma AckStep(s: RunState, port: Portal, delay: nat, j: nat)
    requires Inv(s.cpu, s.log) && Frozen(s.cpu) && !s.cpu.pause.resumePending && s.cpu.pause.pauseDelay == delay
    requires Smooth(s, TickEv(port))
    requires if j == 0 then !s.cpu.pause.delayStarted && s.cpu.pause.remaining == 0
             else Counting(s.cpu.pause, delay, j - 1)
    ensures var c' := RunOne(s, TickEv(port)).cpu;
            Counting(c'.pause, delay, j) && Frozen(c')
  {
    hide Inv; hide Tick; hide UpdateReady; hide Panics;
    FrozenTick(s.cpu, s.log, port);
    CountStep(s.cpu.pause, delay, j);
  }

  /** Nothing is left of the pause: no signal, and no memory of its having won. */
  ghost predicate PauseGone(c: Cpu) {
    c.lastWinner != Some(ExternalPause) && forall k :: k in c.active ==> c.active[k].reason != ExternalPause
  }

  lemma ResumeClears(c: Cpu)
    ensures c.pause.resumeDelay == 0 ==> PauseGone(SignalResume(c))
    ensures c.pause.resumePending && c.pause.remaining == 0 ==> PauseGone(PrepareResume(c))
  {
  }

  /** What a requested pause makes of the requests of the four younger stages: they ask for the pause and do nothing
      but hold the program counter; an exception and the end of the program still get through. */
  lemma PauseMasks(prog: Program, c: Core)
    ensures var u, p := EvalAll(prog, c, false), EvalAll(prog, c, true);
            && p.wbReq == u.wbReq && p.wbAct == u.wbAct && p.mem == u.mem
            && PausedForm(AGU, u.agu.req, u.agu.act, p.agu.req, p.agu.act)
            && PausedForm(EX, u.ex.req, u.ex.act, p.ex.req, p.ex.act)
            && PausedForm(ID, u.id.req, u.id.act, p.id.req, p.id.act)
            && PausedForm(IF, u.iF.req, u.iF.act, p.iF.req, p.iF.act)
  {
  }

  predicate PausedForm(s: Stage, req: SignalReq, act: ArchAction, req': SignalReq, act': ArchAction) {
    if req.reason == Exception || req.reason == ProgEnd then req' == req && act' == act
    else req' == SignalReq(ExternalPause, s, None) && act' == if s == IF then HoldPC else DoNothing
  }

  /** A resume with a delay holds a frozen pipeline for exactly that many ticks; the tick after them
      runs without the pause. */
  lemma {:induction false} ResumeTiming(c0: Cpu, r: Trace, n: nat, j: nat)
    requires Inv(c0, []) && PauseOk(c0) && Regular(c0, r, n + j + 1) && OnlyTicks(r.evs, n + 1, n + j + 1)
    requires r.evs[n] == ResumeEv && Frozen(r.states[n].cpu)
    requires j <= r.states[n].cpu.pause.resumeDelay
    ensures var c := r.states[n + j + 1].cpu;
            var delay := r.states[n].cpu.pause.resumeDelay;
            && c.core == r.states[n].cpu.core && r.states[n + j + 1].log == r.states[n].log
            && PrepareResume(c).pause.requested == (j < delay) && (j == delay ==> PrepareResume(c).pause.ready)
            && (delay > 0 ==> Frozen(c) && c.pause.resumePending && c.pause.remaining == delay - j)
  {
    hide FetchSteps; hide Smooth; hide Allowed; hide Abs; hide Inv; hide RunOne; hide Frozen; hide PauseOk;
    hide PrepareResume; hide Regular;
    RegularLinks(c0, r, n + j, n + j + 1);
    RegularBefore(c0, r, n + j, n + j + 1);
    PauseOkAlways(c0, r, n + j);
    if j > 0 {
      ResumeTiming(c0, r, n, j - 1);
      ResumeHolds(r.states[n + j], r.evs[n + j].port, r.states[n].cpu.pause.resumeDelay, j);
    } else {
      ResumeStarts(r.states[n]);
    }
  }

  lemma ResumeHolds(s: RunState, port: Portal, delay: nat, j: nat)
    requires Inv(s.cpu, s.log) && 0 < j <= delay && Frozen(s.cpu) && Smooth(s, TickEv(port))
    requires s.cpu.pause.resumePending && s.cpu.pause.remaining == delay - (j - 1)
    requires PauseOk(s.cpu)
    ensures var s' := RunOne(s, TickEv(port));
            && s'.cpu.core == s.cpu.core && s'.log == s.log
            && Frozen(s'.cpu) && s'.cpu.pause.resumePending && s'.cpu.pause.remaining == delay - j
            && PrepareResume(s'.cpu).pause.requested == (j < delay)
            && (j == delay ==> PrepareResume(s'.cpu).pause.ready)
  {
    hide Inv; hide Tick; hide Panics;
    FrozenTick(s.cpu, s.log, port);
  }

  lemma ResumeStarts(s: RunState)
    requires Frozen(s.cpu)
    ensures var c := s.cpu;
            var c' := RunOne(s, ResumeEv).cpu;
            && RunOne(s, ResumeEv).log == s.log
            && c'.core == c.core && PrepareResume(c').pause.requested == (0 < c.pause.resumeDelay)
            && (c.pause.resumeDelay == 0 ==> PrepareResume(c').pause.ready)
            && (c.pause.resumeDelay > 0 ==>
                  Frozen(c') && c'.pause.resumePending && c'.pause.remaining == c.pause.resumeDelay)
  {
  }

  /** Ticks that neither find the pipeline frozen nor wait for a missing response. */
  ghost function BusyTicks(r: Trace, n: nat, m: nat): nat
    requires |r.states| == |r.evs| + 1 && n <= m <= |r.evs|
  {
    if m == n then 0
    else
      BusyTicks(r, n, m - 1) +
      Bit(r.evs[m - 1].TickEv? && !Frozen(r.states[m - 1].cpu) && !NoAnswer(r.states[m - 1].cpu, r.evs[m - 1].port))
  }

  /** After a pause is signalled at most two accesses complete, at most two requests are made, and
      apart from waiting for DRAM at most eight ticks pass before the pipeline is frozen. */
  lemma {:induction false} PauseIsBounded(c0: Cpu, r: Trace, n: nat, m: nat)
    requires Inv(c0, []) && PauseOk(c0) && Regular(c0, r, m) && n < m
    requires r.evs[n] == PauseEv && NoResume(r.evs, n, m)
    ensures r.states[m].completed <= r.states[n].completed + 2
    ensures |r.states[m].log| <= |r.states[n].log| + 2
    ensures BusyTicks(r, n, m) + Rank(r.states[m].cpu) <= 8
  {
    hide Rank; hide RunOne; hide Abs; hide Inv; hide Smooth; hide Allowed;
    PauseBudget(c0, r, n, m);
  }

  lemma {:induction false} PauseBudget(c0: Cpu, r: Trace, n: nat, m: nat)
    requires Inv(c0, []) && PauseOk(c0) && Regular(c0, r, m) && n < m
    requires r.evs[n] == PauseEv && NoResume(r.evs, n, m)
    ensures r.states[m].cpu.pause.requested && !r.states[m].cpu.pause.resumePending
    ensures r.states[m].completed + Transactions(r.states[m].cpu.core) <= r.states[n].completed + 2
    ensures |r.states[m].log| + Unsubmitted(r.states[m].cpu) <= |r.states[n].log| + 2
    ensures BusyTicks(r, n, m) + Rank(r.states[m].cpu) <= 8
  {
    hide FetchSteps; hide Smooth; hide Allowed; hide Abs; hide Inv; hide RunOne; hide Frozen; hide NoAnswer; hide Rank;
    hide Unsubmitted; hide PauseOk; hide Transactions;
    assert Linked(r, m - 1);
    RegularBefore(c0, r, m - 1, m);
    PauseOkAlways(c0, r, m - 1);
    if m == n + 1 {
      BudgetStarts(r.states[n]);
      assert BusyTicks(r, n, n) == 0;
    } else {
      PauseBudget(c0, r, n, m - 1);
      BudgetOne(r.states[m - 1], r.evs[m - 1]);
    }
  }

  lemma BudgetStarts(s: RunState)
    ensures var s' := RunOne(s, PauseEv);
            && s'.cpu.pause.requested && !s'.cpu.pause.resumePending
            && s'.completed == s.completed && s'.log == s.log
            && Transactions(s'.cpu.core) <= 2 && Unsubmitted(s'.cpu) <= 2 && Rank(s'.cpu) <= 8
  {
  }

  lemma BudgetOne(s: RunState, ev: Event)
    requires Inv(s.cpu, s.log) && s.cpu.pause.requested && !s.cpu.pause.resumePending && ev != ResumeEv
    requires Smooth(s, ev)
    ensures var s' := RunOne(s, ev);
            && s'.cpu.pause.requested && !s'.cpu.pause.resumePending
            && s'.completed + Transactions(s'.cpu.core) <= s.completed + Transactions(s.cpu.core)
            && |s'.log| + Unsubmitted(s'.cpu) <= |s.log| + Unsubmitted(s.cpu)
            && Rank(s'.cpu) + Bit(ev.TickEv? && !Frozen(s.cpu) && !NoAnswer(s.cpu, ev.port)) <= Rank(s.cpu)
  {
    hide Inv; hide Tick; hide Decided; hide LogAfter; hide Rank; hide Unsubmitted; hide Transactions;
    hide Frozen; hide NoAnswer;
    match ev
    case TickEv(port) => BudgetTick(s, port);
    case _ => SameRank(s.cpu, RunOne(s, ev).cpu);
  }

  lemma SameRank(c: Cpu, c': Cpu)
    requires c'.core == c.core && c'.active == c.active && c'.pause.requested == c.pause.requested
    ensures Rank(c') == Rank(c) && Unsubmitted(c') == Unsubmitted(c)
  {
  }

  lemma AccessCount(reqs: seq<DramReq>)
    ensures |AccessesOf(reqs)| == |reqs|
  {
  }

  lemma BudgetTick(s: RunState, port: Portal)
    requires Inv(s.cpu, s.log) && s.cpu.pause.requested && !s.cpu.pause.resumePending && Smooth(s, TickEv(port))
    ensures var s' := RunOne(s, TickEv(port));
            && s'.cpu.pause.requested && !s'.cpu.pause.resumePending
            && s'.completed + Transactions(s'.cpu.core) <= s.completed + Transactions(s.cpu.core)
            && |s'.log| + Unsubmitted(s'.cpu) <= |s.log| + Unsubmitted(s.cpu)
            && Rank(s'.cpu) + Bit(!Frozen(s.cpu) && !NoAnswer(s.cpu, port)) <= Rank(s.cpu)
  {
    hide Inv; hide Tick; hide NoAnswer; hide Decided; hide PrepareResume; hide Panics; hide MemPending; hide ExAccess;
    hide NewReqs; hide AccessesOf; hide BlockIs;
    var (c', port') := Tick(s.cpu, port);
    AccessCount(NewReqs(port, port'));
    NoPrepare(s.cpu);
    if Frozen(s.cpu) {
      FrozenTick(s.cpu, s.log, port);
      FrozenOps(s.cpu, s.log, port);
      SameLog(s.log, port, port');
    } else {
      PausedTick(s.cpu, s.log, port);
    }
  }

  lemma NoPrepare(c: Cpu)
    requires !c.pause.resumePending
    ensures PrepareResume(c) == c
  {
  }

  lemma SameLog(log: seq<Access>, port: Portal, port': Portal)
    requires port' == port
    ensures LogAfter(log, port, port') == log
  {
    SamePortal(log, port);
  }

  lemma FrozenOps(c: Cpu, log: seq<Access>, port: Portal)
    requires Inv(c, log) && Frozen(c) && PauseHolds(c) && !ExitNow(c.core)
    ensures Decided(c, port).ops == PAUSE_OPS
  {
    hide EvalAll; hide EvalEX; hide EvalAGU; hide Run; hide SubmitAll; hide Drain; hide Decided;
    var n := SubmitAll(c.active, EvalAll(c.prog, c.core, true));
    FineIsCoreFine(c.prog, c.core, false, log);
    SubmitAllAdds(c.prog, c.core, false, log, true, c.active);
    hide Fine; hide SigOk;
    NoNewBlock(c.prog, c.core, c.active, n);
    hide Submitted; hide Extends;
    PausedRun(c, log, port, n);
  }

  // ---- from the request to the acknowledgement ----

  /** A handshake under way: the pause is asserted, no resume is pending, the countdown has not been
      loaded before it starts. */
  predicate Asking(p: PauseCtl, delay: nat) {
    && p.requested && !p.resumePending && p.pauseDelay == delay
    && (!p.delayStarted || p.ready ==> p.remaining == 0)
  }

  /** The ticks left until the CPU reports ready, not counting those spent waiting for DRAM. */
  ghost function AckRank(c: Cpu): nat {
    Rank(c) + if c.pause.ready then 0 else 1 + if c.pause.delayStarted then c.pause.remaining else c.pause.pauseDelay
  }

  /** The ticks that do not wait for a missing response. */
  ghost function AnsweredTicks(r: Trace, n: nat, m: nat): nat
    requires |r.states| == |r.evs| + 1 && n <= m <= |r.evs|
  {
    if m == n then 0
    else AnsweredTicks(r, n, m - 1) + Bit(r.evs[m - 1].TickEv? && !NoAnswer(r.states[m - 1].cpu, r.evs[m - 1].port))
  }

  lemma AckTick(c: Cpu, log: seq<Access>, port: Portal, delay: nat)
    requires Inv(c, log) && PauseOk(c) && Asking(c.pause, delay) && !ExitNow(c.core)
    ensures var c' := Tick(c, port).0;
            && Asking(c'.pause, delay) && (c.pause.ready ==> c'.pause.ready)
            && AckRank(c') <= AckRank(c)
            && (!c.pause.ready && !NoAnswer(c, port) ==> AckRank(c') < AckRank(c))
            && (NoAnswer(c, port) ==> !Frozen(c))
  {
    hide Inv; hide Tick; hide Drain; hide Decided; hide LogAfter; hide MemPending; hide ExitNow; hide BlockIs;
    hide NewReqs; hide Transactions; hide Unsubmitted;
    FrozenAnswers(c, port);
    if Frozen(c) {
      FrozenTick(c, log, port);
    } else {
      PausedTick(c, log, port);
    }
  }

  lemma FrozenAnswers(c: Cpu, port: Portal)
    ensures NoAnswer(c, port) ==> !Frozen(c)
  {
  }

  /** From the request of a pause to its acknowledgement: as long as the CPU is not ready, at most
      pause_cycles + 8 ticks have passed that did not wait for DRAM. Once ready it stays so. */
  lemma {:induction false} PauseIsAcknowledged(c0: Cpu, r: Trace, n: nat, m: nat)
    requires Inv(c0, []) && PauseOk(c0) && Regular(c0, r, m) && n < m
    requires r.evs[n] == PauseEv && OnlyTicks(r.evs, n + 1, m)
    ensures var delay := r.states[n].cpu.pause.pauseDelay;
            var c := r.states[m].cpu;
            && Asking(c.pause, delay) && PauseOk(c)
            && (c.pause.ready ==> Frozen(c))
            && (!c.pause.ready ==>
                  AnsweredTicks(r, n, m) + AckRank(c) <= 9 + delay && AnsweredTicks(r, n, m) <= 8 + delay)
            && (m > n + 1 && r.states[m - 1].cpu.pause.ready ==> c.pause.ready)
  {
    hide FetchSteps; hide Smooth; hide Allowed; hide Abs; hide Inv; hide Frozen; hide NoAnswer; hide Rank; hide RunOne;
    var delay := r.states[n].cpu.pause.pauseDelay;
    assert Linked(r, m - 1);
    RegularBefore(c0, r, m - 1, m);
    PauseOkAlways(c0, r, m - 1);
    PauseOkAlways(c0, r, m);
    if m == n + 1 {
      AckStarts(r.states[n]);
      assert AnsweredTicks(r, n, n) == 0;
    } else {
      PauseIsAcknowledged(c0, r, n, m - 1);
      AckOne(r.states[m - 1], r.evs[m - 1], delay);
    }
  }

  lemma AckStarts(s: RunState)
    ensures var c := RunOne(s, PauseEv).cpu;
            && Asking(c.pause, s.cpu.pause.pauseDelay) && !c.pause.ready
            && AckRank(c) <= 9 + s.cpu.pause.pauseDelay
  {
  }

  lemma AckOne(s: RunState, ev: Event, delay: nat)
    requires Inv(s.cpu, s.log) && PauseOk(s.cpu) && Asking(s.cpu.pause, delay) && Smooth(s, ev) && ev.TickEv?
    ensures var c := s.cpu;
            var c' := RunOne(s, ev).cpu;
            && Asking(c'.pause, delay) && (c.pause.ready ==> c'.pause.ready) && AckRank(c') <= AckRank(c)
            && (!c.pause.ready && !NoAnswer(c, ev.port) ==> AckRank(c') < AckRank(c))
  {
    hide Inv; hide PauseOk; hide Tick; hide AckRank; hide NoAnswer; hide Panics; hide ExitNow; hide LogAfter;
    hide Decided;
    AckTick(s.cpu, s.log, ev.port, delay);
  }
}
