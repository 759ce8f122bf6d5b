/** A pipeline that is not paused moves: between two fetches it spends only a bounded number of ticks
    besides those in which it waits for DRAM. */
module CpuProgress {
  import opened DramPortals
  import opened Scoreboard
  import opened CpuStages
  import opened CpuPipeline
  import opened Isa
  import opened CpuDrain
  import opened CpuForwarding
  import opened CpuArbitration
  import opened CpuDecision
  import opened CpuSteps
  import opened FetchMachine
  import opened CpuRefinement
  import opened CpuRuns
  import opened CpuPause
  import opened CpuResponses

  predicate Unpaused(c: Cpu) {
    !c.pause.requested && !c.pause.resumePending
  }

  /** Ticks the pipeline may still spend before it fetches, not counting those waiting for DRAM: the
      phases of the access in MEM, those of the access in AGU, and a jump to resolve. */
  ghost function Delay(c: Cpu): (d: nat)
    ensures d <= 19
  {
    (if BlockIs(c.active, Waiting) then 3 else if BlockIs(c.active, WriteBack) then 2
     else if HasBlock(c.active) then 1 else if MemPending(c.core) then 4 else 0)
    + 5 * Bit(ExAccess(c.core)) + 10 * Bit(JumpInId(c.core))
  }

  /** What a tick does to the delay, given whether it fetches. */
  ghost predicate Nearer(c: Cpu, port: Portal, c': Cpu, fetches: bool) {
    if NoAnswer(c, port) then !fetches && Delay(c') == Delay(c)
    else fetches || Delay(c') < Delay(c)
  }

  /** A tick that a memory block wins. */
  lemma BlockedNearer(c: Cpu, log: seq<Access>, port: Portal, n: ActiveMap, k: Key)
    requires Inv(c, log) && !c.pause.requested
    requires n == SubmitAll(c.active, EvalAll(c.prog, c.core, false))
    requires Submitted(c.prog, c.core, false, n) && Extends(c.active, n) && AllExpected(c.prog, c.core, false, n)
    requires k in n && k.reason.MemBlock?
    ensures Nearer(c, port, Run(c, port).0, Fetches(Decided(c, port).ops))
  {
    hide EvalAll; hide EvalEX; hide EvalAGU; hide Run; hide SubmitAll; hide Drain; hide Fine; hide SigOk;
    hide Submitted;
    hide Extends; hide AllExpected; hide NoAnswer; hide Decide; hide NextOf; hide Delay; hide BlockOk;
    hide BlockIs; hide HasBlock;
    hide Decided;
    var (c', port') := Run(c, port);
    RunParts(c, port);
    BlockedParts(c, log, port, n, k);
    BlockBefore(c.prog, c.core, false, c.active, n, k);
    BlockAfter(c.prog, c.core, false, c.active, port, n, k);
    WaitingAnswer(c, port, n, k);
    PausedCore(c, log, port, n[k].fsm, k.reason);
    BlockedRun(c, log, port, n, k);
    SameFetch(c, log, port, n[k].fsm, k.reason);
    assert n[k].fsm.st != Done by { BlockNotDone(c.core, n[k].fsm, k.reason); }
    BlockIsBlock(c'.active, Advance(n[k].fsm, k.reason, port).0.st);
    AdvanceStates(n[k].fsm, k.reason, port);
    DelayFalls(c, c', n[k].fsm, Advance(n[k].fsm, k.reason, port).0);
  }

  lemma SameFetch(c: Cpu, log: seq<Access>, port: Portal, f: Fsm, r: Reason)
    requires Inv(c, log) && f.MemFsm? && r.MemBlock? && BlockOk(c.core, f, r)
    requires HasBlock(c.active) == (f.st != Submit)
    ensures !Fetches(BlockOps(f.st)) && NextOf(c.prog, c.core, c.pause.requested, BlockOps(f.st)).ifid == c.core.ifid
  {
    hide NextOf; hide Inv;
    BlockedCore(c, log, port, f, r);
  }

  lemma AdvanceStates(f: Fsm, r: Reason, port: Portal)
    requires f.MemFsm? && r.MemBlock?
    ensures var g := Advance(f, r, port).0;
            && g.MemFsm? && (f.st == Submit ==> g.st == Waiting)
            && (f.st == Waiting ==> g.st == Waiting || g.st == WriteBack) && (f.st == WriteBack ==> g.st == Release)
  {
  }

  lemma DelayFalls(c: Cpu, c': Cpu, f: Fsm, g: Fsm)
    requires c'.core.ifid == c.core.ifid && f.MemFsm? && g.MemFsm?
    requires HasBlock(c.active) == (f.st != Submit) && f.st != Done
    requires HasBlock(c.active) ==> BlockIs(c.active, f.st)
    requires forall st :: BlockIs(c.active, st) ==> st == f.st
    requires f.st != Release ==> BlockIs(c'.active, g.st) && forall st :: BlockIs(c'.active, st) ==> st == g.st
    requires f.st == Release ==> !HasBlock(c'.active)
    requires f.st == Submit ==> g.st == Waiting && MemPending(c.core)
    requires f.st == Waiting ==> g.st == Waiting || g.st == WriteBack
    requires f.st == WriteBack ==> g.st == Release
    requires f.st == Submit || f.st == Waiting ==> MemPending(c'.core) && ExAccess(c'.core) == ExAccess(c.core)
    requires f.st == WriteBack ==> ExAccess(c'.core) == ExAccess(c.core)
    requires f.st == Release ==> MemPending(c'.core) == ExAccess(c.core) && !ExAccess(c'.core)
    ensures f.st == Waiting && g.st == Waiting ==> Delay(c') == Delay(c)
    ensures !(f.st == Waiting && g.st == Waiting) ==> Delay(c') < Delay(c)
  {
    hide MemPending; hide ExAccess;
    assert forall st :: BlockIs(c'.active, st) ==> HasBlock(c'.active);
    assert forall st :: BlockIs(c.active, st) ==> HasBlock(c.active);
  }

  /** A tick without a memory block. */
  lemma FreeNearer(c: Cpu, log: seq<Access>, port: Portal)
    requires Inv(c, log) && !c.pause.requested && !ExitNow(c.core) && !ClashNow(c)
    requires !HasBlock(SubmitAll(c.active, EvalAll(c.prog, c.core, false)))
    ensures Nearer(c, port, Run(c, port).0, Fetches(Decided(c, port).ops))
  {
    hide EvalAll; hide EvalAGU; hide EvalEX; hide Run; hide SubmitAll; hide Drain; hide BlockIs; hide AfterEx;
    hide ExitNow;
    var n := SubmitAll(c.active, EvalAll(c.prog, c.core, false));
    FineIsCoreFine(c.prog, c.core, HasBlock(c.active), log);
    FineStages(c.prog, c.core, HasBlock(c.active), log);
    SubmitAllAdds(c.prog, c.core, HasBlock(c.active), log, false, c.active);
    hide Fine; hide Submitted; hide Extends; hide SigOk; hide NextOf;
    NoneBefore(c.active, n);
    NoneWaits(c.active, port);
    BlockIsBlock(c.active, Waiting);
    NoBlockNoAccess(c, n);
    AfterFree(c, port, n);
    var c' := Run(c, port).0;
    BlockIsBlock(c'.active, Waiting);
    BlockIsBlock(c'.active, WriteBack);
    if EvalEX(c.core) == EX_RAW {
      RawRun(c, log, port, n);
      RawStep(c.prog, c.core, false, log);
      RawWaits(c, log);
    } else {
      InvIsOrderly(c, log);
      FlowDecision(c, log, port, n);
      RunParts(c, port);
      FlowStep(c.prog, c.core, false, log);
      DecidedOf(c, port, n);
    }
  }

  lemma NoneWaits(m: ActiveMap, port: Portal)
    requires !HasBlock(m)
    ensures forall c: Cpu :: c.active == m ==> !NoAnswer(c, port)
  {
  }

  /** EX waits for a load that is still ahead in AGU. */
  lemma RawWaits(c: Cpu, log: seq<Access>)
    requires Inv(c, log) && !MemPending(c.core) && EvalEX(c.core) == EX_RAW
    ensures ExAccess(c.core) && !ExitNow(c.core)
  {
    hide DrainAgu; hide DrainMem; hide EvalEX;
    FineIsCoreFine(c.prog, c.core, HasBlock(c.active), log);
    FineStages(c.prog, c.core, HasBlock(c.active), log);
    ExExact(c.prog, c.core, HasBlock(c.active), log);
  }

  /** Progress. A tick of a pipeline that is not paused waits for a response that has not come, or
      fetches, or brings the next fetch closer -- unless it takes an exit or panics. */
  lemma ProgressTick(c: Cpu, log: seq<Access>, port: Portal)
    requires Inv(c, log) && Unpaused(c) && !ExitNow(c.core) && !ClashNow(c)
    ensures PrepareResume(c) == c && Unpaused(Tick(c, port).0)
    ensures Nearer(c, port, Tick(c, port).0, Fetches(Decided(c, port).ops))
  {
    hide EvalAll; hide EvalAGU; hide EvalEX; hide Run; hide SubmitAll; hide Drain; hide Nearer; hide ExitNow;
    hide ClashNow;
    hide Decided;
    var n := SubmitAll(c.active, EvalAll(c.prog, c.core, false));
    RunParts(c, port);
    FineIsCoreFine(c.prog, c.core, HasBlock(c.active), log);
    SubmitAllAdds(c.prog, c.core, HasBlock(c.active), log, false, c.active);
    hide Fine; hide Extends; hide SigOk;
    SubmittedExpected(c.prog, c.core, false, n);
    hide Submitted;
    if HasBlock(n) {
      var k :| k in n && k.reason.MemBlock?;
      BlockedNearer(c, log, port, n, k);
    } else {
      FreeNearer(c, log, port);
    }
  }

  // ---- runs ----

  /** The bound over runs: each fetch costs at most twenty ticks that do not wait for DRAM. */
  lemma {:induction false} RunMoves(c0: Cpu, r: Trace, n: nat, m: nat)
    requires Inv(c0, []) && Regular(c0, r, m) && n <= m
    requires Unpaused(r.states[n].cpu) && OnlyTicks(r.evs, n, m)
    ensures Unpaused(r.states[m].cpu) && r.states[n].fetched <= r.states[m].fetched
    ensures AnsweredTicks(r, n, m) + Delay(r.states[m].cpu)
            <= Delay(r.states[n].cpu) + 20 * (r.states[m].fetched - r.states[n].fetched)
  {
    hide Inv; hide RunOne; hide Delay; hide Smooth; hide Allowed; hide Abs; hide NoAnswer; hide Unpaused;
    hide FetchSteps;
    hide PendingAccesses; hide Occupied;
    if m > n {
      RegularBefore(c0, r, m - 1, m);
      RunMoves(c0, r, n, m - 1);
      RunFetches(c0, r, m - 1);
      assert Linked(r, m - 1);
      MovesOne(r.states[m - 1], r.evs[m - 1]);
    }
  }

  lemma MovesOne(s: RunState, ev: Event)
    requires Inv(s.cpu, s.log) && Smooth(s, ev) && ev.TickEv? && Unpaused(s.cpu)
    ensures var s' := RunOne(s, ev);
            && Unpaused(s'.cpu) && s.fetched <= s'.fetched
            && Delay(s'.cpu) + Bit(!NoAnswer(s.cpu, ev.port)) <= Delay(s.cpu) + 20 * (s'.fetched - s.fetched)
            && (!NoAnswer(s.cpu, ev.port) && s'.fetched == s.fetched ==> Delay(s'.cpu) < Delay(s.cpu))
            && s'.fetched <= s.fetched + 1
  {
    hide Inv; hide Delay; hide Panics; hide ExitNow; hide ClashNow; hide NoAnswer; hide Tick; hide Decided;
    hide LogAfter;
    hide Orderly;
    InvIsOrderly(s.cpu, s.log);
    PanicsExactly(s.cpu, s.log, ev.port);
    assert PrepareResume(s.cpu) == s.cpu;
    ProgressTick(s.cpu, s.log, ev.port);
  }

  // ---- runs exist ----

  /** A portal that holds the response the CPU is waiting for. */
  lemma AnswerPort(c: Cpu, log: seq<Access>) returns (port: Portal)
    requires Inv(c, log)
    ensures !NoAnswer(c, port)
  {
    hide Fine; hide EvalEX; hide EvalAGU; hide BlockOk;
    port := EMPTY_PORTAL;
    if BlockIs(c.active, Waiting) {
      var k :| k in c.active && k.reason.MemBlock?;
      var q := NewReq(k.reason.addr, k.reason.isRead, true);
      port := EMPTY_PORTAL.(pimResp := [q]);
      assert FirstMatch([q], q) == 0;
    }
  }

  function Extended(r: Trace, ev: Event, s: RunState): Trace {
    Trace(r.evs + [ev], r.states + [s])
  }

  ghost predicate NoClash(c0: Cpu, k: nat) {
    forall i: nat :: i < k ==> !Clashes(c0.prog, FetchSteps(c0.prog, Abs(c0, []), i))
  }

  /** Every program that does not fault runs: with a DRAM that answers, the pipeline fetches any number
      of instructions, unless before that a tick would take an exit or panic. */
  lemma {:induction false} RunExists(c0: Cpu, k: nat) returns (r: Trace)
    requires Inv(c0, []) && Unpaused(c0) && AllAllowed(c0.prog, Abs(c0, []), k)
    ensures IsRun(r, c0) && AllSmooth(r, |r.evs|) && OnlyTicks(r.evs, 0, |r.evs|)
    ensures var s := r.states[|r.evs|];
            && Refines(c0, s) && Unpaused(s.cpu) && s.fetched <= k
            && (s.fetched == k || ExitNow(s.cpu.core) || ClashNow(s.cpu))
            && (KeptApart(c0, []) && NoClash(c0, k) ==> KeptApart(s.cpu, s.log))
  {
    r := Trace([], [RunState(c0, [], 0, 0, 0)]);
    RunFetches(c0, r, 0);
    r := RunOn(c0, k, r);
  }

  /** On the covered fragment it does fetch them all. */
  lemma CoveredRunExists(c0: Cpu, k: nat) returns (r: Trace)
    requires Inv(c0, []) && KeptApart(c0, []) && Unpaused(c0) && AllCovered(c0.prog, Abs(c0, []), k)
    ensures IsRun(r, c0) && AllSmooth(r, |r.evs|)
    ensures var s := r.states[|r.evs|];
            Refines(c0, s) && Unpaused(s.cpu) && KeptApart(s.cpu, s.log) && s.fetched == k
  {
    hide Inv; hide Abs; hide PendingAccesses; hide Occupied; hide Covered; hide Allowed; hide ExitNow; hide ClashNow;
    hide Clashes; hide FetchSteps; hide KeptApart; hide Smooth; hide IsRun; hide Orderly; hide Panics;
    CoveredIsAllowed(c0.prog, Abs(c0, []), k);
    forall i: nat | i < k ensures !Clashes(c0.prog, FetchSteps(c0.prog, Abs(c0, []), i)) {
      CoveredRuns(c0.prog, FetchSteps(c0.prog, Abs(c0, []), i));
    }
    r := RunExists(c0, k);
    var s := r.states[|r.evs|];
    if s.fetched < k {
      assert Covered(c0.prog, Abs(s.cpu, s.log));
      CoveredTick(s, TickEv(EMPTY_PORTAL));
      InvIsOrderly(s.cpu, s.log);
      PanicsExactly(s.cpu, s.log, EMPTY_PORTAL);
      SmoothMeans(s, EMPTY_PORTAL);
    }
  }

  lemma SmoothMeans(s: RunState, port: Portal)
    requires Smooth(s, TickEv(port)) && Unpaused(s.cpu)
    ensures !ExitNow(s.cpu.core) && !Panics(s.cpu, port) && PrepareResume(s.cpu) == s.cpu
  {
  }

  lemma {:induction false} RunOn(c0: Cpu, k: nat, r0: Trace) returns (r: Trace)
    requires Inv(c0, []) && AllAllowed(c0.prog, Abs(c0, []), k)
    requires IsRun(r0, c0) && AllSmooth(r0, |r0.evs|) && OnlyTicks(r0.evs, 0, |r0.evs|)
    requires Refines(c0, r0.states[|r0.evs|]) && Unpaused(r0.states[|r0.evs|].cpu) && r0.states[|r0.evs|].fetched <= k
    ensures IsRun(r, c0) && AllSmooth(r, |r.evs|) && OnlyTicks(r.evs, 0, |r.evs|)
    ensures var s := r.states[|r.evs|];
            && Refines(c0, s) && Unpaused(s.cpu) && s.fetched <= k
            && (s.fetched == k || ExitNow(s.cpu.core) || ClashNow(s.cpu))
            && (KeptApart(r0.states[|r0.evs|].cpu, r0.states[|r0.evs|].log) && NoClash(c0, k) ==>
                  KeptApart(s.cpu, s.log))
    decreases k - r0.states[|r0.evs|].fetched, Delay(r0.states[|r0.evs|].cpu)
  {
    hide Inv; hide RunOne; hide Delay; hide Smooth; hide Allowed; hide Abs; hide NoAnswer; hide Unpaused;
    hide FetchSteps;
    hide PendingAccesses; hide Occupied; hide ExitNow; hide ClashNow; hide Refines; hide KeptApart; hide Clashes;
    var s := r0.states[|r0.evs|];
    r := r0;
    if s.fetched < k && !ExitNow(s.cpu.core) && !ClashNow(s.cpu) {
      var port := AnswerOf(c0, s);
      var ev := TickEv(port);
      SmoothNow(c0, s, ev);
      RefinesOne(c0, s, ev);
      var r1 := Extended(r0, ev, RunOne(s, ev));
      ExtendedIsRun(c0, r0, ev);
      r := RunOn(c0, k, r1);
    }
  }

  lemma AnswerOf(c0: Cpu, s: RunState) returns (port: Portal)
    requires Refines(c0, s)
    ensures !NoAnswer(s.cpu, port)
  {
    hide NoAnswer; hide Inv;
    port := AnswerPort(s.cpu, s.log);
  }

  lemma SmoothNow(c0: Cpu, s: RunState, ev: Event)
    requires Refines(c0, s) && Unpaused(s.cpu) && !ExitNow(s.cpu.core) && !ClashNow(s.cpu)
    ensures Smooth(s, ev)
  {
    hide Inv; hide Panics; hide ClashNow; hide ExitNow; hide Orderly; hide Abs;
    InvIsOrderly(s.cpu, s.log);
    assert PrepareResume(s.cpu) == s.cpu;
    if ev.TickEv? {
      PanicsExactly(s.cpu, s.log, ev.port);
    }
  }

  lemma RefinesOne(c0: Cpu, s: RunState, ev: Event)
    requires Refines(c0, s) && Smooth(s, ev) && ev.TickEv? && Unpaused(s.cpu) && !NoAnswer(s.cpu, ev.port)
    requires JumpBehindTest(s.cpu.core)
          || (RunOne(s, ev).fetched > s.fetched ==> Allowed(c0.prog, FetchSteps(c0.prog, Abs(c0, []), s.fetched)))
    ensures var s' := RunOne(s, ev);
            && Refines(c0, s') && Unpaused(s'.cpu) && s.fetched <= s'.fetched <= s.fetched + 1
            && (s'.fetched == s.fetched ==> Delay(s'.cpu) < Delay(s.cpu))
            && (KeptApart(s.cpu, s.log) && !Clashes(c0.prog, FetchSteps(c0.prog, Abs(c0, []), s.fetched)) ==>
                  KeptApart(s'.cpu, s'.log))
            && (JumpBehindTest(s.cpu.core) ==> JumpBehindTest(s'.cpu.core) && s'.fetched == s.fetched)
  {
    hide KeptApart; hide Clashes; hide JumpBehindTest;
    hide Inv; hide Smooth; hide NoAnswer; hide Delay; hide RunOne; hide Unpaused; hide Abs; hide Allowed;
    hide PendingAccesses;
    OneRefines(c0.prog, Abs(c0, []), s, ev, Occupied(c0.core));
    MovesOne(s, ev);
    TraceAccountingInv(RunOne(s, ev).cpu, RunOne(s, ev).log);
  }

  lemma ExtendedIsRun(c0: Cpu, r: Trace, ev: Event)
    requires IsRun(r, c0) && AllSmooth(r, |r.evs|) && OnlyTicks(r.evs, 0, |r.evs|)
    requires Smooth(r.states[|r.evs|], ev) && ev.TickEv?
    ensures var r1 := Extended(r, ev, RunOne(r.states[|r.evs|], ev));
            IsRun(r1, c0) && AllSmooth(r1, |r1.evs|) && OnlyTicks(r1.evs, 0, |r1.evs|)
  {
    hide RunOne; hide Smooth;
    var r1 := Extended(r, ev, RunOne(r.states[|r.evs|], ev));
    forall i: nat | i < |r1.evs| ensures Linked(r1, i) && Smooth(r1.states[i], r1.evs[i]) {
      if i < |r.evs| {
        assert Linked(r, i) && Smooth(r.states[i], r.evs[i]);
      }
    }
  }
}
