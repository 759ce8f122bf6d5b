/** An engine that waits for its CPU to give up the DRAM: when it serves the host next, and what its CPU,
    portal and DRAM do meanwhile. */
module EngineWaiting {
  import opened DramPortals
  import opened DramWrappers
  import opened EngineSpec
  import opened EngineProcessors
  import opened EngineExclusive
  import C = CpuPipeline
  import F = CpuRefinement
  import H = CpuPause
  import Q = CpuResponses
  import X = CpuFinish
  import S = Scoreboard
  import A = CpuArbitration
  import CpuForwarding
  import CpuSteps
  import CpuEnding
  import Isa

  /** The engine waits for its CPU to give up the DRAM. */
  ghost predicate Waiting(e: Engine) {
    && e.sched == HostCgoShare && e.proc.Cgo? && e.proc.cpu.started
    && e.proc.cpu.pause.requested && !e.proc.cpu.pause.resumePending
    && e.mode == SwitchDelay && e.next == SwitchDelay && e.lastService == ServePim && e.delay == 0
  }

  /** What has to be true when scheduling comes for the host to be served: the CPU has acknowledged, its
      requests have left the portal and the DRAM, and the DRAM says that it is idle. */
  ghost predicate HandedOver(phys: AddrMap, e: Engine, env: Env)
    requires Compatible(e.proc, e.sched)
  {
    var e1 := Collect(phys, Offered(e, env), env.completions);
    e1.proc.Cgo? && e1.proc.cpu.pause.ready && e1.portal.pimReq == [] && e1.dram.pending == [] && env.idle
  }

  /** The parts of a waiting engine's tick: the CPU ticks, and nothing else but portal and DRAM moves. */
  lemma WaitingParts(phys: AddrMap, e: Engine, env: Env)
    requires Waiting(e) && Exclusive(e) && Legal(phys, e, env)
    ensures var (c', port') := C.Tick(e.proc.cpu, e.portal);
            var (p, d) := DrainPort(port', e.dram, e.clock, env.quota);
            var e1 := Collect(phys, Offered(e, env), env.completions);
            && BeforeDram(e).portal == port' && BeforeDram(e).dram == e.dram
            && Offered(e, env).portal == p && Offered(e, env).dram == d
            && e1.proc.Cgo? && e1.proc.cpu == c' && e1.sched == e.sched && e1.mode == e.mode && e1.next == e.next
            && e1.lastService == e.lastService && e1.delay == e.delay
            && e1.portal.pimReq == p.pimReq && e1.hostPool == e.hostPool
            && multiset(env.completions) <= Outstanding(phys, d.pending) && Sides(p, d) && d.pimMode && p.mode == PIM
            && e.dram.pimMode && e.portal.mode == PIM && port'.mode == PIM
  {
    hide C.Tick; hide ProcessCmds; hide DrainPort; hide Outstanding; hide ProcInBank; hide NonePim; hide AllPim;
    OfferedKeeps(e, env);
    ProcTick(e);
    CmdsTouch(TickProc(e));
    CollectKeeps(phys, Offered(e, env), env.completions);
    PortKeepsSides(e.portal, TickProc(e).portal, e.dram);
    DrainKeepsSides(TickProc(e).portal, e.dram, e.clock, env.quota);
  }

  /** Exactly when a waiting engine serves the host next; otherwise it keeps waiting. */
  lemma ServesExactly(phys: AddrMap, e: Engine, env: Env)
    requires Waiting(e) && Exclusive(e) && Legal(phys, e, env)
    ensures var e' := Tick(phys, e, env);
            && (e'.mode == ServeHost <==> HandedOver(phys, e, env))
            && (e'.mode != ServeHost ==> Waiting(e')) && e'.hostPool == e.hostPool
            && e'.proc.Cgo? && e'.proc.cpu == C.Tick(e.proc.cpu, e.portal).0
            && e'.portal.(mode := PIM) == Collect(phys, Offered(e, env), env.completions).portal.(mode := PIM)
            && e'.dram.pending == Collect(phys, Offered(e, env), env.completions).dram.pending
  {
    hide C.Tick; hide Offered; hide Collect; hide Outstanding;
    WaitingParts(phys, e, env);
    PauseStands(e.proc.cpu, e.portal);
  }

  lemma PauseStands(c: C.Cpu, port: Portal)
    requires c.pause.requested && !c.pause.resumePending
    ensures var c' := C.Tick(c, port).0;
            c'.pause.requested && !c'.pause.resumePending && c'.started == c.started
  {
    hide C.Decided; hide C.NextCore; hide C.EvalAll;
  }

  // ---- portal and DRAM while at most one request is in flight ----

  /** A request of the processor is on its way: not yet answered. */
  predicate Open(p: Portal, pending: seq<DramReq>) {
    p.pimReq != [] || pending != []
  }

  lemma DrainFlight(m: S.ActiveMap, p: Portal, d: Dram, clock: nat, quota: nat)
    requires Q.OneIn(m, p, d.pending) && p.mode == PIM
    ensures var (p', d') := DrainPort(p, d, clock, quota);
            && Q.OneIn(m, p', d'.pending) && (quota > 0 ==> p'.pimReq == []) && p'.pimResp == p.pimResp
            && |p'.pimReq| + |d'.pending| == |p.pimReq| + |d.pending| && p'.mode == PIM
            && (p.pimReq == [] ==> p' == p && d' == d)
  {
    hide H.BlockIs; hide Q.IsOwn; hide DrainPort;
    if p.pimReq == [] {
      DrainNothing(p, d, clock, quota);
    } else {
      var out := p.pimReq + d.pending + p.pimResp;
      assert |out| == 1 && |p.pimReq| == 1 && d.pending == [] && p.pimResp == [];
      var q := p.pimReq[0];
      assert out == [q] && p.pimReq == [q];
      DrainOnePim(p, d, clock, quota);
      StampIsOwn(m, q, d.nextId, clock);
      assert [] + [Stamped(q, d.nextId, clock)] + [] == [Stamped(q, d.nextId, clock)];
      assert [q] + [] + [] == [q];
      if !q.isPim {
        NotOwn(m, q);
      }
    }
  }

  lemma DrainNothing(p: Portal, d: Dram, clock: nat, quota: nat)
    requires p.mode == PIM && p.pimReq == []
    ensures DrainPort(p, d, clock, quota) == (p, d)
  {
  }

  lemma DrainOnePim(p: Portal, d: Dram, clock: nat, quota: nat)
    requires p.mode == PIM && |p.pimReq| == 1 && d.pending == []
    ensures var q := p.pimReq[0];
            DrainPort(p, d, clock, quota) ==
            if quota == 0 then (p.(pimReq := []).Submit(q), d)
            else (p.(pimReq := []), Dram([Stamped(q, d.nextId, clock)], d.nextId + 1, d.pimMode))
  {
    var q := p.pimReq[0];
    var p1 := p.(pimReq := []);
    assert p.pimReq[..0] == [];
    if quota > 0 {
      assert d.pending + [Stamped(q, d.nextId, clock)] == [Stamped(q, d.nextId, clock)];
      DrainNothing(p1, Dram([Stamped(q, d.nextId, clock)], d.nextId + 1, d.pimMode), clock, quota - 1);
    }
  }

  lemma NotOwn(m: S.ActiveMap, q: DramReq)
    requires !q.isPim
    ensures !Q.IsOwn(m, q)
  {
  }

  lemma StampIsOwn(m: S.ActiveMap, q: DramReq, id: nat, time: nat)
    ensures Q.IsOwn(m, q) ==> Q.IsOwn(m, Stamped(q, id, time))
  {
  }

  /** What the DRAM completes becomes the CPU's response. */
  lemma CollectFlight(m: S.ActiveMap, phys: AddrMap, p: Portal, d: Dram, cs: seq<Completion>)
    requires Q.OneIn(m, p, d.pending) && AllPim(d.pending) && multiset(cs) <= Outstanding(phys, d.pending)
    ensures Complete(phys, d.pending, cs).Some?
    ensures var (done, left) := Complete(phys, d.pending, cs).value;
            && Q.OneIn(m, CompleteAll(p, done), left) && CompleteAll(p, done).pimReq == p.pimReq
            && |left| <= |d.pending|
            && (multiset(cs) == Outstanding(phys, d.pending) ==> left == [])
  {
    hide Outstanding; hide H.BlockIs; hide Q.IsOwn; hide AllPim;
    PanicsExactly(phys, d.pending, cs);
    var (done, left) := Complete(phys, d.pending, cs).value;
    CompleteKeepsStacks(p, done);
    if multiset(cs) == Outstanding(phys, d.pending) {
      NothingLeft(phys, left, cs);
    }
    var out := p.pimReq + d.pending + p.pimResp;
    if done == [] {
      assert multiset(left) == multiset(d.pending);
      SameIfShort(left, d.pending);
    } else {
      assert |done| + |left| == |d.pending| by { Sizes(done, left, d.pending); }
      assert |out| == 1 && |d.pending| == 1 && p.pimReq == [] && p.pimResp == [];
      assert left == [] && |done| == 1;
      SameIfShort(done, d.pending);
      OnePim(d.pending);
      assert CompleteAll(p, done) == CompleteAll(p, []).Complete(done[0]);
      assert p.pimResp + done == done;
      assert out == done;
    }
  }

  lemma OnePim(s: seq<DramReq>)
    requires AllPim(s) && |s| == 1
    ensures s[0].isPim && s == [s[0]]
  {
    assert s[0] in s;
  }

  lemma NothingLeft(phys: AddrMap, left: seq<DramReq>, cs: seq<Completion>)
    requires Outstanding(phys, left) + multiset(cs) == multiset(cs)
    ensures left == []
  {
    var o := Outstanding(phys, left);
    assert |o + multiset(cs)| == |o| + |multiset(cs)|;
    assert |o| == |Keys(phys, left)|;
  }

  lemma Sizes(a: seq<DramReq>, b: seq<DramReq>, c: seq<DramReq>)
    requires multiset(a) + multiset(b) == multiset(c)
    ensures |a| + |b| == |c|
  {
    assert |multiset(a) + multiset(b)| == |multiset(a)| + |multiset(b)|;
    assert |multiset(a)| == |a| && |multiset(b)| == |b| && |multiset(c)| == |c|;
  }

  lemma SameIfShort(a: seq<DramReq>, b: seq<DramReq>)
    requires multiset(a) == multiset(b) && |b| <= 1
    ensures a == b
  {
    Sizes(a, [], b);
    if |b| == 1 {
      assert a[0] in multiset(a);
      assert a[0] in multiset(b) && a[0] == b[0];
    }
  }

  // ---- the CPU while it is asked to pause ----

  /** A CPU that has been asked to pause and has not taken an exit yet, with its requests. */
  ghost predicate Yielding(c: C.Cpu, log: seq<Isa.Access>, port: Portal, pending: seq<DramReq>, delay: nat) {
    && F.Inv(c, log) && H.PauseOk(c) && H.Asking(c.pause, delay) && X.Prompt(c) && Q.OneIn(c.active, port, pending)
  }

  lemma YieldTick(c: C.Cpu, log: seq<Isa.Access>, port: Portal, pending: seq<DramReq>, delay: nat)
    requires Yielding(c, log, port, pending, delay) && !CpuForwarding.ExitNow(c.core)
    ensures var (c', port') := C.Tick(c, port);
            && Yielding(c', F.LogAfter(log, port, port'), port', pending, delay) && c'.started == c.started
            && F.Abs(c', F.LogAfter(log, port, port')) == F.Abs(c, log)
            && H.AckRank(c') <= H.AckRank(c) && (c.pause.ready ==> c'.pause.ready)
            && (H.NoAnswer(c, port) ==> Open(port, pending))
            && (!H.NoAnswer(c, port) && !c.pause.ready ==> H.AckRank(c') < H.AckRank(c))
            && (H.NoAnswer(c, port) || c.pause.ready ==> port'.pimReq == port.pimReq)
            && (c'.pause.ready ==> !Open(port', pending))
  {
    hide F.Inv; hide C.Tick; hide F.Abs; hide C.Decided; hide F.LogAfter; hide H.Frozen; hide H.AckRank;
    hide H.NoAnswer;
    hide Q.OneIn; hide CpuForwarding.ExitNow; hide F.NewReqs; hide Q.ConsumesOwn; hide X.Prompt;
    AskingHolds(c);
    CpuEnding.PromptTick(c, log, port);
    H.AckTick(c, log, port, delay);
    Q.TickFlight(c, log, port, pending);
    H.PauseOkTick(c, log, port);
    StepKeeps(c, log, port);
    InvOneKey(c, log);
    NoAnswerIsOpen(c, port, pending);
    FrozenIsClosed(C.Tick(c, port).0, C.Tick(c, port).1, pending);
  }

  lemma AskingHolds(c: C.Cpu)
    requires c.pause.requested && !c.pause.resumePending
    ensures C.PrepareResume(c) == c && H.PauseHolds(c)
  {
  }

  lemma StepKeeps(c: C.Cpu, log: seq<Isa.Access>, port: Portal)
    requires F.Inv(c, log) && c.pause.requested && !c.pause.resumePending && !CpuForwarding.ExitNow(c.core)
          && H.PauseOk(c)
    ensures var (c', port') := C.Tick(c, port);
            var log' := F.LogAfter(log, port, port');
            && F.Inv(c', log') && F.Abs(c', log') == F.Abs(c, log) && c'.started == c.started
            && (H.NoAnswer(c, port) || c.pause.ready ==> port'.pimReq == port.pimReq)
  {
    hide F.Inv; hide F.Abs; hide C.Decided; hide H.Frozen; hide H.NoAnswer; hide CpuForwarding.ExitNow;
    hide H.Rank; hide H.Transactions; hide C.Run; hide H.Unsubmitted; hide F.AccessesOf; hide F.NewReqs;
    AskingHolds(c);
    F.RunParts(c, port);
    if H.Frozen(c) {
      H.FrozenTick(c, log, port);
      F.SamePortal(log, port);
    } else {
      H.PausedTick(c, log, port);
      PausedPortal(c, log, port);
    }
  }

  /** While the block waits in vain it makes no request. */
  lemma PausedPortal(c: C.Cpu, log: seq<Isa.Access>, port: Portal)
    requires F.Inv(c, log) && H.PauseHolds(c) && !H.Frozen(c) && !CpuForwarding.ExitNow(c.core)
          && C.PrepareResume(c) == c
    ensures H.NoAnswer(c, port) ==> C.Tick(c, port).1.pimReq == port.pimReq
  {
    hide C.Run; hide CpuSteps.Fine; hide C.EvalAll; hide C.SubmitAll; hide H.Frozen;
    hide CpuForwarding.ExitNow; hide S.Decide;
    hide A.SigOk; hide A.Submitted; hide A.Extends; hide A.AllExpected; hide A.BlockOk; hide H.NoAnswer;
    var n, k := H.PausedBlock(c, log);
    F.BlockedParts(c, log, port, n, k);
    H.BlockBefore(c.prog, c.core, true, c.active, n, k);
    H.WaitingAnswer(c, port, n, k);
    if H.NoAnswer(c, port) {
      AdvanceQuiet(n[k].fsm, k.reason, port);
    }
  }

  lemma AdvanceQuiet(f: S.Fsm, r: S.Reason, port: Portal)
    requires f.MemFsm? && f.st == S.Waiting
    ensures S.Advance(f, r, port).1.pimReq == port.pimReq
  {
  }

  lemma NoAnswerIsOpen(c: C.Cpu, port: Portal, pending: seq<DramReq>)
    requires Q.OneIn(c.active, port, pending) && OneKey(c.active)
    ensures H.NoAnswer(c, port) ==> Open(port, pending)
  {
  }

  /** At most one memory block is live. */
  ghost predicate OneKey(m: S.ActiveMap) {
    forall j, k :: j in m && k in m && j.reason.MemBlock? && k.reason.MemBlock? ==> j == k
  }

  lemma InvOneKey(c: C.Cpu, log: seq<Isa.Access>)
    requires F.Inv(c, log)
    ensures OneKey(c.active)
  {
    hide CpuSteps.Fine; hide A.Expected;
    forall j, k | j in c.active && k in c.active && j.reason.MemBlock? && k.reason.MemBlock? ensures j == k {}
  }

  lemma FrozenIsClosed(c: C.Cpu, port: Portal, pending: seq<DramReq>)
    requires H.PauseOk(c) && c.pause.requested && Q.OneIn(c.active, port, pending)
    ensures c.pause.ready ==> !Open(port, pending)
  {
    hide CpuForwarding.MemPending;
    var out := port.pimReq + pending + port.pimResp;
    if c.pause.ready {
      assert !H.BlockIs(c.active, S.Waiting) by { H.BlockIsBlock(c.active, S.Waiting); }
      assert |out| == 0;
    }
  }
}
