/** The DRAM serves the processor or the host, never both; it changes sides only when empty. */
module EngineExclusive {
  import opened DramPortals
  import opened DramWrappers
  import opened EngineSpec
  import opened EngineProcessors
  import opened CpuBounds
  import B = BootFsm
  import C = CpuPipeline
  import P = PePipeline

  predicate AllPim(s: seq<DramReq>) {
    forall q :: q in s ==> q.isPim && q.addr < B.PSEUDO_BANK_CACHELINES
  }

  predicate NonePim(s: seq<DramReq>) {
    forall q :: q in s ==> !q.isPim
  }

  /** Portal and DRAM agree on the side they serve, and everything inside the DRAM is of that side. */
  ghost predicate Sides(p: Portal, d: Dram) {
    && (p.mode == PIM <==> d.pimMode)
    && (if d.pimMode then AllPim(d.pending) else NonePim(d.pending))
    && AllPim(p.pimReq) && NonePim(p.hostReq)
  }

  predicate ModeFits(m: Mode, last: Mode, pimMode: bool) {
    match m
    case ServePim => pimMode
    case ServeHost => !pimMode
    case SwitchDelay => last != SwitchDelay && pimMode == (last == ServePim)
  }

  ghost predicate Exclusive(e: Engine) {
    && Sides(e.portal, e.dram) && ProcInBank(e.proc) && NonePim(e.hostPool)
    && e.next == e.mode && ModeFits(e.mode, e.lastService, e.dram.pimMode)
    && (e.sched == Unconfigured ==> e.dram.pending == [] && e.portal.pimReq == [] && e.portal.hostReq == [])
    && (e.sched == CgoOnly ==> e.mode == ServePim) && (e.sched == HostOnly ==> e.mode == ServeHost)
    && (e.sched != Unconfigured ==> Compatible(e.proc, e.sched))
  }

  // ---- the parts of a tick ----

  lemma {:induction false} DrainKeepsSides(p: Portal, d: Dram, clock: nat, quota: nat)
    requires Sides(p, d)
    ensures var (p', d') := DrainPort(p, d, clock, quota);
            Sides(p', d') && d'.pimMode == d.pimMode && p'.mode == p.mode
    decreases quota
  {
    hide Stamped;
    var (q, p1) := p.GetOne();
    if q.Some? {
      var top := q.value;
      if p.mode == PIM {
        assert top in p.pimReq;
        forall r | r in p1.pimReq ensures r in p.pimReq {}
      } else {
        assert top in p.hostReq;
        forall r | r in p1.hostReq ensures r in p.hostReq {}
      }
      if quota > 0 {
        StampKeepsSide(top, d.nextId, clock);
        DrainKeepsSides(p1, Dram(d.pending + [Stamped(top, d.nextId, clock)], d.nextId + 1, d.pimMode), clock,
              quota - 1);
      }
    }
  }

  lemma StampKeepsSide(q: DramReq, id: nat, time: nat)
    ensures Stamped(q, id, time).isPim == q.isPim && Stamped(q, id, time).addr == q.addr
  {
  }

  lemma {:induction false} CompleteKeepsStacks(p: Portal, reqs: seq<DramReq>)
    ensures CompleteAll(p, reqs) == p.(pimResp := CompleteAll(p, reqs).pimResp,
          hostResp := CompleteAll(p, reqs).hostResp)
  {
    if reqs != [] {
      CompleteKeepsStacks(p, reqs[..|reqs| - 1]);
    }
  }

  lemma CollectKeeps(phys: AddrMap, e: Engine, cs: seq<Completion>)
    requires multiset(cs) <= Outstanding(phys, e.dram.pending) && Sides(e.portal, e.dram) && ProcInBank(e.proc)
    ensures var e' := Collect(phys, e, cs);
            && Sides(e'.portal, e'.dram) && ProcInBank(e'.proc) && e'.dram.pimMode == e.dram.pimMode
            && e' == e.(hostDone := e'.hostDone, cmdDone := [], proc := e'.proc, portal := e'.portal, dram := e'.dram)
            && e'.portal.pimReq == e.portal.pimReq && e'.portal.hostReq == e.portal.hostReq
            && e'.proc == if e.proc.Fgo? then Fgo(e.proc.pe.(completed := [])) else e.proc
  {
    hide Outstanding; hide InBank; hide BootInBank;
    PanicsExactly(phys, e.dram.pending, cs);
    var (done, left) := Complete(phys, e.dram.pending, cs).value;
    CompleteKeepsStacks(e.portal, done);
    forall q | q in left ensures q in e.dram.pending {
      assert q in multiset(left);
      assert q in multiset(e.dram.pending);
    }
  }

  lemma {:induction false} SubmitKeeps(p: Portal, reqs: seq<DramReq>)
    requires NonePim(reqs)
    ensures SubmitAll(p, reqs) == p.(hostReq := p.hostReq + reqs)
  {
    if reqs != [] {
      assert reqs == reqs[..|reqs| - 1] + [reqs[|reqs| - 1]];
      assert reqs[|reqs| - 1] in reqs;
      SubmitKeeps(p, reqs[..|reqs| - 1]);
      assert p.hostReq + reqs[..|reqs| - 1] + [reqs[|reqs| - 1]] == p.hostReq + reqs;
    } else {
      assert p.hostReq + reqs == p.hostReq;
    }
  }

  lemma ReversedIn(s: seq<DramReq>)
    ensures forall q :: q in B.Reversed(s) ==> q in s
  {
    forall q | q in B.Reversed(s) ensures q in s {
      var i :| 0 <= i < |s| && B.Reversed(s)[i] == q;
      assert s[|s| - 1 - i] == q;
    }
  }

  /** Before scheduling: the mode still fits, nothing has changed sides. */
  ghost predicate BeforeSchedule(e: Engine) {
    && Sides(e.portal, e.dram) && ProcInBank(e.proc) && NonePim(e.hostPool) && Compatible(e.proc, e.sched)
    && e.next == e.mode && ModeFits(e.mode, e.lastService, e.dram.pimMode)
    && (e.sched == CgoOnly ==> e.mode == ServePim) && (e.sched == HostOnly ==> e.mode == ServeHost)
  }

  /** What scheduling guarantees: sides stay separate, and the DRAM changes sides only when it and the
      stack of the side it leaves are empty. */
  ghost predicate Scheduled(e: Engine, e': Engine) {
    && Sides(e'.portal, e'.dram) && ProcInBank(e'.proc) && NonePim(e'.hostPool)
    && ModeFits(e'.next, e'.lastService, e'.dram.pimMode) && e'.mode == e.mode
    && e'.sched == e.sched && e'.proc.Cgo? == e.proc.Cgo? && e'.dram.pending == e.dram.pending
    && (e.sched == CgoOnly ==> e'.next == ServePim) && (e.sched == HostOnly ==> e'.next == ServeHost)
    && (e'.dram.pimMode != e.dram.pimMode ==>
          e.dram.pending == [] && (if e.dram.pimMode then e.portal.pimReq == [] else e.portal.hostReq == []))
  }

  lemma SwitchKeeps(e: Engine, from: Mode, idle: bool)
    requires Sides(e.portal, e.dram) && ProcInBank(e.proc) && NonePim(e.hostPool)
    requires from == e.mode && ModeFits(e.mode, e.lastService, e.dram.pimMode)
    requires e.sched == HostCgoShare || e.sched == HostFgoShare
    ensures Scheduled(e, Switch(e, from, idle))
  {
    hide ProcInBank;
  }

  lemma CgoKeeps(e: Engine, idle: bool)
    requires BeforeSchedule(e) && e.sched == HostCgoShare
    ensures Scheduled(e, ScheduleCgo(e, idle))
  {
    hide ProcInBank; hide C.SignalPause; hide C.SignalResume; hide BatchSize; hide WantsHost; hide EngineSpec.SubmitAll;
    SignalsKeep(e.proc);
    if e.mode == ServePim && WantsHost(e) {
      SwitchKeeps(e.(firstSwitch := true, pimRec := 0, proc := SignalPause(e.proc)), ServePim, idle);
    } else if e.mode == ServeHost {
      BatchFits(e);
      var batch := B.Reversed(e.hostPool[..BatchSize(e)]);
      ReversedIn(e.hostPool[..BatchSize(e)]);
      SubmitKeeps(e.portal, batch);
      var e1 := e.(hostPool := e.hostPool[BatchSize(e)..], memRec := e.memRec + BatchSize(e),
                   portal := EngineSpec.SubmitAll(e.portal, batch));
      SwitchKeeps(e1.(pimWatermark := e1.memRec, memRec := 0, proc := SignalResume(e1.proc)), ServeHost, idle);
    } else if e.mode == SwitchDelay {
      SwitchKeeps(e, SwitchDelay, idle);
    }
  }

  lemma BatchFits(e: Engine)
    ensures BatchSize(e) <= |e.hostPool|
  {
  }

  lemma SignalsKeep(p: Processor)
    requires ProcInBank(p)
    ensures ProcInBank(SignalPause(p)) && ProcInBank(SignalResume(p))
  {
    if p.Cgo? {
      SignalsStayInBank(p.cpu);
    }
    hide InBank; hide C.SignalPause; hide C.SignalResume;
  }

  lemma PeFlagsKeep(p: P.Pe)
    requires PeInBank(p)
    ensures PeInBank(P.AllowNext(p)) && PeInBank(P.HasFinished(p).1)
  {
  }

  lemma SelectInPimKeeps(e: Engine, idle: bool)
    requires BeforeSchedule(e) && e.sched == HostFgoShare && e.mode == ServePim
    ensures Scheduled(e, SelectInPim(e, idle))
  {
    hide PeInBank; hide Switch; hide Sides; hide NonePim; hide P.AllowNext;
    SwitchKeeps(e, ServePim, idle);
    PeFlagsKeep(e.proc.pe);
  }

  lemma SelectInHostKeeps(e: Engine, idle: bool)
    requires BeforeSchedule(e) && e.sched == HostFgoShare && e.mode == ServeHost
    ensures Scheduled(e, SelectInHost(e, idle))
  {
    hide PeInBank; hide Switch; hide ProcInBank;
    SwitchKeeps(e, ServeHost, idle);
    if e.hostPool != [] {
      assert e.hostPool[0] in e.hostPool;
    }
  }

  lemma FgoKeeps(e: Engine, idle: bool)
    requires BeforeSchedule(e) && e.sched == HostFgoShare
    ensures Scheduled(e, ScheduleFgo(e, idle))
  {
    hide PeInBank; hide Switch; hide Sides; hide NonePim; hide P.HasFinished; hide SelectInPim;
    hide SelectInHost; hide Drained;
    match e.mode
    case SwitchDelay => SwitchKeeps(e, SwitchDelay, idle);
    case ServePim =>
      PeFlagsKeep(e.proc.pe);
      SelectInPimKeeps(NoticePim(e), idle);
    case ServeHost =>
      SelectInHostKeeps(NoticeHost(e, idle), idle);
  }

  lemma ScheduleKeeps(e: Engine, idle: bool)
    requires BeforeSchedule(e)
    ensures Scheduled(e, Schedule(e, idle))
  {
    hide ScheduleCgo; hide ScheduleFgo; hide ProcInBank;
    match e.sched
    case HostCgoShare => CgoKeeps(e, idle);
    case HostFgoShare => FgoKeeps(e, idle);
    case HostOnly =>
      ReversedIn(e.hostPool);
      SubmitKeeps(ForceHost(e).portal, B.Reversed(e.hostPool));
    case _ =>
  }

  // ---- the theorem ----

  lemma OfferedKeeps(e: Engine, env: Env)
    requires Exclusive(e) && e.sched != Unconfigured
    ensures var e1 := Offered(e, env);
            && BeforeSchedule(e1) && e1.dram.pimMode == e.dram.pimMode && e1.sched == e.sched
            && e1.proc.Cgo? == e.proc.Cgo?
  {
    hide TickProc; hide ProcessCmds; hide DrainPort; hide PortOnly; hide ProcInBank;
    ProcTick(e);
    var e1 := TickProc(e);
    PortKeepsSides(e.portal, e1.portal, e.dram);
    CmdsTouch(e1);
    DrainKeepsSides(e1.portal, e1.dram, e.clock, env.quota);
  }

  lemma PortKeepsSides(p: Portal, p': Portal, d: Dram)
    requires PortOnly(p, p') && Sides(p, d)
    ensures Sides(p', d)
  {
    assert p'.pimReq == p'.pimReq[..|p.pimReq|] + p'.pimReq[|p.pimReq|..];
  }

  /** DRAM exclusivity for every tick: whatever the DRAM accepts, refuses and completes, the sides stay
      separate, and the DRAM changes sides only when it is empty and nothing is waiting for it. */
  lemma TickIsExclusive(phys: AddrMap, e: Engine, env: Env)
    requires Exclusive(e) && e.sched != Unconfigured && Legal(phys, e, env)
    ensures var e' := Tick(phys, e, env);
            && Exclusive(e') && e'.sched == e.sched && e'.proc.Cgo? == e.proc.Cgo?
            && (e'.dram.pimMode != e.dram.pimMode ==> e'.dram.pending == [])
  {
    hide Offered; hide Collect; hide Schedule; hide ProcInBank; hide Sides; hide NonePim; hide Outstanding;
    OfferedKeeps(e, env);
    var e1 := Offered(e, env);
    CollectKeeps(phys, e1, env.completions);
    var e2 := Collect(phys, e1, env.completions);
    ScheduleKeeps(e2, env.idle);
  }

  /** Configuring an engine and what the host enqueues or takes. */
  lemma HostIsExclusive(e: Engine, req: DramReq, s: Sched, job: P.Job, cmd: CgoCmd)
    requires Exclusive(e)
    ensures !req.isPim ==> Exclusive(EnqueueMem(e, req))
    ensures Exclusive(EnqueueCmd(e, cmd, req)) && Exclusive(TakeDone(e).1)
    ensures e.proc.Fgo? && JobInBank(job.inst) ==> Exclusive(EnqueueJob(e, job))
    ensures Exclusive(SetScheduling(e, s).1)
  {
    hide InBank; hide BootInBank;
  }

  lemma DelaysAreExclusive(e: Engine, pause: nat, resume: nat)
    requires Exclusive(e)
    ensures Exclusive(SetDelays(e, pause, resume))
  {
    hide BootInBank;
  }
}
