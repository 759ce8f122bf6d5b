/** The CPU inside its engine: the theorems about a CPU hold for the one that shares its DRAM with the
    host, because the engine is one of the environments they allow. */
module EngineCpu {
  import opened DramPortals
  import opened DramWrappers
  import opened EngineSpec
  import opened EngineProcessors
  import opened EngineExclusive
  import opened EngineRuns
  import opened EngineWaiting
  import opened EngineHandshake
  import opened EngineHandover
  import opened FetchMachine
  import A = CpuArbitration
  import B = BootFsm
  import C = CpuPipeline
  import F = CpuRefinement
  import H = CpuPause
  import Q = CpuResponses
  import S = Scoreboard
  import CpuFinish
  import CpuForwarding
  import CpuRuns
  import CpuSteps
  import CpuStages
  import Isa

  /** The processor's requests inside the DRAM. */
  function PimInside(d: Dram): seq<DramReq> {
    if d.pimMode then d.pending else []
  }

  /** A started CPU that meets the invariants of the CPU theorems, with its requests in the portal and in
      the DRAM of its engine. */
  ghost predicate Carries(c: C.Cpu, log: seq<Isa.Access>, p: Portal, inDram: seq<DramReq>) {
    && c.started && F.Inv(c, log) && H.PauseOk(c) && Q.OneIn(c.active, p, inDram)
  }

  ghost predicate Carried(e: Engine, log: seq<Isa.Access>) {
    && Exclusive(e) && (e.sched == HostCgoShare || e.sched == CgoOnly) && e.proc.Cgo?
    && Carries(e.proc.cpu, log, e.portal, PimInside(e.dram))
  }

  // ---- the parts of a tick ----

  lemma CpuTick(c: C.Cpu, log: seq<Isa.Access>, p: Portal, inDram: seq<DramReq>)
    requires Carries(c, log, p, inDram) && RunsFrom(c, log, p)
    ensures var (c', p') := C.Tick(c, p);
            var log' := F.LogAfter(log, p, p');
            && Carries(c', log', p', inDram) && c'.prog == c.prog && p'.mode == p.mode
            && F.Abs(c', log') == NextSpec(c, log, p)
  {
    hide F.Inv; hide C.Tick; hide F.Abs; hide C.Decided; hide F.LogAfter; hide H.PauseOk; hide Q.OneIn; hide RunsFrom;
    hide FetchStep; hide CpuFinish.Prompt;
    CpuStarts(c, log, p, inDram);
  }

  /** The CPU fetches in its next tick. */
  predicate FetchesNow(c: C.Cpu, p: Portal) {
    CpuSteps.Fetches(C.Decided(C.PrepareResume(c), p).ops)
  }

  /** What the CPU stands for after that tick. */
  ghost function NextSpec(c: C.Cpu, log: seq<Isa.Access>, p: Portal): Spec {
    if FetchesNow(c, p) then FetchStep(c.prog, F.Abs(c, log)) else F.Abs(c, log)
  }

  /** While the host is served, the processor's side of the portal stays as it is. */
  lemma {:induction false} DrainHostSide(p: Portal, d: Dram, clock: nat, quota: nat)
    requires p.mode == HOST && NonePim(p.hostReq)
    ensures var (p', d') := DrainPort(p, d, clock, quota);
            p'.pimReq == p.pimReq && p'.pimResp == p.pimResp && p'.mode == HOST && d'.pimMode == d.pimMode
    decreases quota
  {
    hide Stamped;
    if p.hostReq != [] {
      var (q, p1) := p.GetOne();
      assert q.value in p.hostReq;
      forall r | r in p1.hostReq ensures r in p.hostReq {}
      if quota > 0 {
        DrainHostSide(p1, Dram(d.pending + [Stamped(q.value, d.nextId, clock)], d.nextId + 1, d.pimMode), clock,
              quota - 1);
      }
    }
  }

  lemma {:induction false} CompleteHostSide(p: Portal, reqs: seq<DramReq>)
    requires NonePim(reqs)
    ensures CompleteAll(p, reqs).pimReq == p.pimReq && CompleteAll(p, reqs).pimResp == p.pimResp
  {
    if reqs != [] {
      assert reqs[|reqs| - 1] in reqs;
      CompleteHostSide(p, reqs[..|reqs| - 1]);
    }
  }

  /** What DRAM and completions do to the requests in flight. */
  lemma MemoryKeeps(m: S.ActiveMap, phys: AddrMap, p: Portal, d: Dram, clock: nat, quota: nat, cs: seq<Completion>)
    requires Sides(p, d) && Q.OneIn(m, p, PimInside(d))
    requires multiset(cs) <= Outstanding(phys, DrainPort(p, d, clock, quota).1.pending)
    ensures var (p1, d1) := DrainPort(p, d, clock, quota);
            var r := Complete(phys, d1.pending, cs);
            && r.Some? && d1.pimMode == d.pimMode
            && Q.OneIn(m, CompleteAll(p1, r.value.0), PimInside(d1.(pending := r.value.1)))
  {
    hide DrainPort; hide Outstanding; hide Q.OneIn; hide Complete; hide CompleteAll; hide AllPim; hide NonePim;
    var (p1, d1) := DrainPort(p, d, clock, quota);
    DrainKeepsSides(p, d, clock, quota);
    PanicsExactly(phys, d1.pending, cs);
    if d.pimMode {
      DrainFlight(m, p, d, clock, quota);
      CollectFlight(m, phys, p1, d1, cs);
    } else {
      DrainHostSide(p, d, clock, quota);
      var (done, left) := Complete(phys, d1.pending, cs).value;
      DoneIsHost(done, left, d1.pending);
      CompleteHostSide(p1, done);
      SameFront(m, p, CompleteAll(p1, done), []);
    }
  }

  lemma DoneIsHost(done: seq<DramReq>, left: seq<DramReq>, pending: seq<DramReq>)
    requires NonePim(pending) && multiset(done) + multiset(left) == multiset(pending)
    ensures NonePim(done)
  {
    forall q | q in done ensures q in pending {
      assert q in multiset(done);
      assert q in multiset(pending);
    }
  }

  /** Only the processor's lists matter. */
  lemma SameFront(m: S.ActiveMap, p: Portal, p': Portal, inDram: seq<DramReq>)
    requires Q.OneIn(m, p, inDram) && p'.pimReq == p.pimReq && p'.pimResp == p.pimResp
    ensures Q.OneIn(m, p', inDram)
  {
    hide Q.IsOwn; hide H.BlockIs;
  }

  // ---- scheduling ----

  /** Pausing and resuming keep the CPU in order. */
  lemma SignalsCarry(c: C.Cpu, log: seq<Isa.Access>, p: Portal, inDram: seq<DramReq>)
    requires Carries(c, log, p, inDram)
    ensures Carries(C.SignalPause(c), log, p, inDram) && F.Abs(C.SignalPause(c), log) == F.Abs(c, log)
    ensures Carries(C.SignalResume(c), log, p, inDram) && F.Abs(C.SignalResume(c), log) == F.Abs(c, log)
  {
    hide F.Inv; hide F.Abs; hide H.PauseOk; hide Q.OneIn; hide CpuRuns.Smooth;
    CpuRuns.PauseKeeps(c, log);
    CpuRuns.ResumeKeeps(c, log);
    Q.InvKeyed(c, log);
    Q.SignalFlight(c, p, inDram);
    SignalsSmooth(c, log);
    H.PauseOkOne(CpuRuns.RunState(c, log, 0, 0, 0), CpuRuns.PauseEv);
    H.PauseOkOne(CpuRuns.RunState(c, log, 0, 0, 0), CpuRuns.ResumeEv);
  }

  lemma SignalsSmooth(c: C.Cpu, log: seq<Isa.Access>)
    ensures CpuRuns.Smooth(CpuRuns.RunState(c, log, 0, 0, 0), CpuRuns.PauseEv)
    ensures CpuRuns.Smooth(CpuRuns.RunState(c, log, 0, 0, 0), CpuRuns.ResumeEv)
  {
    hide C.Panics; hide CpuForwarding.ExitNow;
  }

  /** What a switch changes of an engine: modes, and nothing else once something is inside the DRAM. */
  lemma SwitchCarries(e: Engine, from: Mode, idle: bool, log: seq<Isa.Access>)
    requires e.proc.Cgo? && Carries(e.proc.cpu, log, e.portal, PimInside(e.dram))
    ensures var e' := Switch(e, from, idle);
            && e'.proc == e.proc && Carries(e'.proc.cpu, log, e'.portal, PimInside(e'.dram)) && e'.sched == e.sched
  {
    hide F.Inv; hide H.PauseOk; hide Q.OneIn;
    SameFront(e.proc.cpu.active, e.portal, Switch(e, from, idle).portal, PimInside(e.dram));
  }

  lemma ScheduleCarries(e: Engine, idle: bool, log: seq<Isa.Access>)
    requires BeforeSchedule(e) && (e.sched == HostCgoShare || e.sched == CgoOnly)
    requires e.proc.Cgo? && Carries(e.proc.cpu, log, e.portal, PimInside(e.dram))
    ensures var e' := Schedule(e, idle);
            && e'.proc.Cgo? && Carries(e'.proc.cpu, log, e'.portal, PimInside(e'.dram)) && e'.sched == e.sched
            && e'.proc.cpu.prog == e.proc.cpu.prog && F.Abs(e'.proc.cpu, log) == F.Abs(e.proc.cpu, log)
  {
    hide Carries; hide C.SignalPause; hide C.SignalResume; hide BatchSize; hide WantsHost; hide EngineSpec.SubmitAll;
    hide ProcInBank; hide F.Abs; hide NonePim; hide AllPim; hide Switch;
    StartedCarries(e.proc.cpu, log, e.portal, PimInside(e.dram));
    SignalsCarry(e.proc.cpu, log, e.portal, PimInside(e.dram));
    if e.sched == CgoOnly {
      ForcedSide(e.proc.cpu, log, e.portal, PimInside(e.dram));
    } else if e.mode == ServePim {
      if WantsHost(e) {
        SwitchCarries(e.(firstSwitch := true, pimRec := 0, proc := SignalPause(e.proc)), ServePim, idle, log);
      }
    } else if e.mode == SwitchDelay {
      SwitchCarries(e, SwitchDelay, idle, log);
    } else {
      BatchFits(e);
      BatchIsHost(e);
      var batch := B.Reversed(e.hostPool[..BatchSize(e)]);
      SubmitKeeps(e.portal, batch);
      var p := EngineSpec.SubmitAll(e.portal, batch);
      PortalCarries(e.proc.cpu, log, e.portal, p, PimInside(e.dram));
      SignalsCarry(e.proc.cpu, log, p, PimInside(e.dram));
      var e1 := e.(hostPool := e.hostPool[BatchSize(e)..], memRec := e.memRec + BatchSize(e), portal := p);
      SwitchCarries(e1.(pimWatermark := e1.memRec, memRec := 0, proc := SignalResume(e1.proc)), ServeHost, idle, log);
    }
  }

  lemma BatchIsHost(e: Engine)
    requires NonePim(e.hostPool) && BatchSize(e) <= |e.hostPool|
    ensures NonePim(B.Reversed(e.hostPool[..BatchSize(e)]))
  {
    hide BatchSize;
    ReversedIn(e.hostPool[..BatchSize(e)]);
  }

  lemma StartedCarries(c: C.Cpu, log: seq<Isa.Access>, p: Portal, inDram: seq<DramReq>)
    requires Carries(c, log, p, inDram)
    ensures c.started && C.SignalPause(c).prog == c.prog && C.SignalResume(c).prog == c.prog
  {
    hide F.Inv; hide H.PauseOk; hide Q.OneIn;
  }

  lemma PortalCarries(c: C.Cpu, log: seq<Isa.Access>, p: Portal, p': Portal, inDram: seq<DramReq>)
    requires Carries(c, log, p, inDram) && p'.pimReq == p.pimReq && p'.pimResp == p.pimResp
    ensures Carries(c, log, p', inDram)
  {
    hide F.Inv; hide H.PauseOk; hide Q.OneIn;
    SameFront(c.active, p, p', inDram);
  }

  lemma ForcedSide(c: C.Cpu, log: seq<Isa.Access>, p: Portal, inDram: seq<DramReq>)
    requires Carries(c, log, p, inDram)
    ensures Carries(c, log, p.(mode := PIM), inDram)
  {
    PortalCarries(c, log, p, p.(mode := PIM), inDram);
  }

  // ---- one tick of the engine ----

  lemma CarriedTick(phys: AddrMap, e: Engine, env: Env, log: seq<Isa.Access>)
    requires Carried(e, log) && Legal(phys, e, env) && RunsFrom(e.proc.cpu, log, e.portal)
    ensures var e' := Tick(phys, e, env);
            var log' := F.LogAfter(log, e.portal, C.Tick(e.proc.cpu, e.portal).1);
            && Carried(e', log') && e'.proc.cpu.prog == e.proc.cpu.prog
            && F.Abs(e'.proc.cpu, log') == NextSpec(e.proc.cpu, log, e.portal)
  {
    hide Schedule; hide C.Tick; hide Outstanding; hide ProcInBank; hide Carries; hide F.LogAfter; hide F.Abs;
    hide NextSpec;
    hide RunsFrom; hide Sides; hide NonePim; hide AllPim; hide DrainPort; hide Complete; hide CompleteAll;
    hide PimInside;
    TickIsExclusive(phys, e, env);
    var log' := F.LogAfter(log, e.portal, C.Tick(e.proc.cpu, e.portal).1);
    CpuTick(e.proc.cpu, log, e.portal, PimInside(e.dram));
    CarriedStarted(e, log);
    CollectCarries(phys, e, env, log');
    var e1 := Collect(phys, Offered(e, env), env.completions);
    ScheduleCarries(e1, env.idle, log');
  }

  lemma CarriedStarted(e: Engine, log: seq<Isa.Access>)
    requires Carried(e, log)
    ensures e.proc.cpu.started
  {
    hide F.Inv; hide H.PauseOk; hide Q.OneIn; hide Exclusive;
  }

  lemma CollectCarries(phys: AddrMap, e: Engine, env: Env, log': seq<Isa.Access>)
    requires Exclusive(e) && (e.sched == HostCgoShare || e.sched == CgoOnly) && e.proc.Cgo? && e.proc.cpu.started
    requires Legal(phys, e, env)
    requires var (c', p') := C.Tick(e.proc.cpu, e.portal);
             Carries(c', log', p', PimInside(e.dram)) && p'.mode == e.portal.mode
    ensures var e1 := Collect(phys, Offered(e, env), env.completions);
            && BeforeSchedule(e1) && e1.sched == e.sched && e1.proc.Cgo?
            && e1.proc.cpu == C.Tick(e.proc.cpu, e.portal).0
            && Carries(e1.proc.cpu, log', e1.portal, PimInside(e1.dram))
  {
    hide C.Tick; hide Outstanding; hide ProcInBank; hide F.Inv; hide H.PauseOk; hide Q.OneIn;
    hide NonePim; hide AllPim; hide DrainPort; hide Complete; hide CompleteAll; hide ProcessCmds; hide PimInside;
    OfferedKeeps(e, env);
    ProcTick(e);
    CmdsTouch(TickProc(e));
    CollectKeeps(phys, Offered(e, env), env.completions);
    var (c', p') := C.Tick(e.proc.cpu, e.portal);
    PortKeepsSides(e.portal, p', e.dram);
    MemoryKeeps(c'.active, phys, p', e.dram, e.clock, env.quota, env.completions);
    var (p1, d1) := DrainPort(p', e.dram, e.clock, env.quota);
    var (done, left) := Complete(phys, d1.pending, env.completions).value;
    SameFront(c'.active, CompleteAll(p1, done), CompleteAll(p1, done).(hostResp := []),
          PimInside(d1.(pending := left)));
  }

  // ---- whole runs ----

  /** What the host does leaves the CPU alone, but for the delays. */
  lemma HostCarries(phys: AddrMap, s: RunState, ev: Event, log: seq<Isa.Access>)
    requires Carried(s.engine, log) && EngineRuns.Allowed(phys, s.engine, ev) && !ev.TickEv?
    ensures var e' := RunOne(phys, s, ev).engine;
            && Carried(e', log) && e'.proc.cpu.prog == s.engine.proc.cpu.prog
            && F.Abs(e'.proc.cpu, log) == F.Abs(s.engine.proc.cpu, log)
  {
    hide Legal; hide ProcInBank; hide Sides; hide NonePim; hide F.Inv; hide H.PauseOk;
    hide Q.OneIn; hide F.Abs;
    HostKeepsExclusive(phys, s.engine, ev);
    SameEngine(phys, s, ev);
    if ev.Delays? {
      DelaysCarry(s.engine.proc.cpu, log, ev.pause, ev.resume);
    }
  }

  lemma DelaysCarry(c: C.Cpu, log: seq<Isa.Access>, pause: nat, resume: nat)
    requires F.Inv(c, log) && H.PauseOk(c)
    ensures var c' := c.(pause := c.pause.(pauseDelay := pause, resumeDelay := resume));
            F.Inv(c', log) && H.PauseOk(c') && F.Abs(c', log) == F.Abs(c, log)
  {
    hide A.SigOk; hide H.Frozen;
    SameFrozen(c, c.(pause := c.pause.(pauseDelay := pause, resumeDelay := resume)));
  }

  lemma SameFrozen(c: C.Cpu, c': C.Cpu)
    requires c'.core == c.core && c'.active == c.active && c'.pause.requested == c.pause.requested
    ensures H.Frozen(c') == H.Frozen(c)
  {
  }

  /** The event is no tick in which the CPU takes an exit or panics. */
  ghost predicate CpuPasses(e: Engine, ev: Event) {
    ev.TickEv? && e.proc.Cgo? ==> !CpuForwarding.ExitNow(e.proc.cpu.core) && !C.Panics(e.proc.cpu, e.portal)
  }

  ghost predicate AllCpuPass(r: Trace, n: nat, m: nat)
    requires |r.states| == |r.evs| + 1 && n <= m <= |r.evs|
  {
    forall i: nat :: n <= i < m ==> CpuPasses(r.states[i].engine, r.evs[i])
  }

  predicate FetchEvent(e: Engine, ev: Event) {
    ev.TickEv? && e.proc.Cgo? && FetchesNow(e.proc.cpu, e.portal)
  }

  /** The instructions the engine's CPU fetches between two events. */
  function Fetched(r: Trace, n: nat, m: nat): nat
    requires |r.states| == |r.evs| + 1 && n <= m <= |r.evs|
  {
    if m == n then 0
    else Fetched(r, n, m - 1) + if FetchEvent(r.states[m - 1].engine, r.evs[m - 1]) then 1 else 0
  }

  /** The CPU of the engine meets its invariants and stands for the fetching machine after `k` steps. */
  ghost predicate CarriedTo(e: Engine, prog: CpuStages.Program, s0: Spec, k: nat) {
    exists log :: StandsFor(e, log, prog, s0, k)
  }

  ghost predicate StandsFor(e: Engine, log: seq<Isa.Access>, prog: CpuStages.Program, s0: Spec, k: nat) {
    Carried(e, log) && e.proc.cpu.prog == prog && F.Abs(e.proc.cpu, log) == FetchSteps(prog, s0, k)
  }

  /** The CPU theorems hold inside an engine. In every run of an engine that shares its DRAM between a
      started CPU and the host -- whatever the host sends, the DRAM accepts, refuses and completes, and
      however often the two change over -- and up to a tick in which the CPU takes an exit, panics or
      fetches an instruction that faults, the CPU stands for the fetching machine after as many steps as it
      fetched, readiness is reported only by a frozen pipeline, and at most one request of the CPU is in
      flight, the one it waits for. */
  lemma {:induction false} EngineRefines(phys: AddrMap, r: Trace, proc: Processor, n: nat, m: nat, log: seq<Isa.Access>)
    requires IsRun(phys, r, proc) && n <= m <= |r.evs| && Carried(r.states[n].engine, log) && AllCpuPass(r, n, m)
    requires CpuRuns.AllAllowed(r.states[n].engine.proc.cpu.prog, F.Abs(r.states[n].engine.proc.cpu, log),
                                Fetched(r, n, m))
    ensures CarriedTo(r.states[m].engine, r.states[n].engine.proc.cpu.prog,
                      F.Abs(r.states[n].engine.proc.cpu, log), Fetched(r, n, m))
  {
    hide Carries; hide Exclusive; hide RunOne; hide EngineRuns.Allowed; hide ProcInBank; hide FetchMachine.Allowed;
    hide F.Abs; hide NewEngine; hide FetchStep; hide CpuPasses; hide FetchEvent;
    var prog := r.states[n].engine.proc.cpu.prog;
    var s0 := F.Abs(r.states[n].engine.proc.cpu, log);
    if m == n {
      assert FetchSteps(prog, s0, 0) == s0;
      assert StandsFor(r.states[n].engine, log, prog, s0, 0);
    } else {
      EngineRefines(phys, r, proc, n, m - 1, log);
      var k := Fetched(r, n, m - 1);
      var log1 :| StandsFor(r.states[m - 1].engine, log1, prog, s0, k);
      assert Linked(phys, r, m - 1);
      var log2 := StandsOne(phys, r.states[m - 1], r.evs[m - 1], log1, prog, s0, k);
    }
  }

  lemma StandsOne(phys: AddrMap, s: RunState, ev: Event, log: seq<Isa.Access>, prog: CpuStages.Program, s0: Spec,
                  k: nat) returns (log': seq<Isa.Access>)
    requires StandsFor(s.engine, log, prog, s0, k) && EngineRuns.Allowed(phys, s.engine, ev) && CpuPasses(s.engine, ev)
    requires FetchEvent(s.engine, ev) ==> FetchMachine.Allowed(prog, FetchSteps(prog, s0, k))
    ensures StandsFor(RunOne(phys, s, ev).engine, log', prog, s0, if FetchEvent(s.engine, ev) then k + 1 else k)
  {
    hide Carries; hide Tick; hide Legal; hide Exclusive; hide F.Abs; hide FetchStep; hide F.LogAfter;
    hide C.Panics; hide CpuForwarding.ExitNow; hide C.Decided; hide C.PrepareResume; hide CpuSteps.Fetches;
    hide FetchMachine.Allowed;
    log' := log;
    if ev.TickEv? {
      EngineHandover.TickAllowed(phys, s.engine, ev);
      CarriedTick(phys, s.engine, ev.env, log);
      log' := F.LogAfter(log, s.engine.portal, C.Tick(s.engine.proc.cpu, s.engine.portal).1);
      assert FetchSteps(prog, s0, k + 1) == FetchStep(prog, FetchSteps(prog, s0, k));
    } else {
      HostCarries(phys, s, ev, log);
    }
  }

  // ---- a whole handover ----

  /** The CPU stands for a running machine after its next tick. */
  ghost predicate RunsAfter(e: Engine, log: seq<Isa.Access>) {
    e.proc.Cgo? && NextSpec(e.proc.cpu, log, e.portal).arch.d.status == Isa.Running
  }

  /** The engine decides for the host in its next tick, in which the CPU takes no exit. */
  ghost predicate Decides(e: Engine, log: seq<Isa.Access>) {
    && Carried(e, log) && e.sched == HostCgoShare && e.mode == ServePim && WantsHost(e)
    && RunsFrom(e.proc.cpu, log, e.portal)
  }

  /** A wait that has just begun. */
  ghost predicate Begins(e: Engine, sure: bool) {
    && e.proc.Cgo? && Waits(e, e.proc.cpu.pause.pauseDelay, false) && Slack(e) == 0
    && WaitRank(e) <= 19 + 2 * e.proc.cpu.pause.pauseDelay
    && (sure ==> Surely(e, e.proc.cpu.pause.pauseDelay))
  }

  lemma CarriedHandshake(phys: AddrMap, e: Engine, env: Env, log: seq<Isa.Access>)
    requires Decides(e, log) && Legal(phys, e, env)
    ensures Begins(Tick(phys, e, env), RunsAfter(e, log))
  {
    hide Legal; hide F.Inv; hide H.PauseOk; hide Q.OneIn; hide F.Abs; hide RunsFrom; hide F.LogAfter; hide C.Tick;
    hide WantsHost; hide Tick; hide NextSpec; hide Sides; hide ProcInBank; hide NonePim; hide Yields; hide WaitRank;
    assert e.dram.pimMode;
    HandshakeStarts(phys, e, env, log);
    CpuTick(e.proc.cpu, log, e.portal, e.dram.pending);
    Begun(Tick(phys, e, env), F.LogAfter(log, e.portal, C.Tick(e.proc.cpu, e.portal).1));
  }

  lemma Begun(e: Engine, log: seq<Isa.Access>)
    requires e.proc.Cgo? && Yields(e, log, e.proc.cpu.pause.pauseDelay)
    requires WaitRank(e) <= 19 + 2 * e.proc.cpu.pause.pauseDelay
    ensures Begins(e, F.Abs(e.proc.cpu, log).arch.d.status == Isa.Running)
  {
    hide Yields; hide WaitRank; hide F.Abs; hide Halted; hide Parted;
    var delay := e.proc.cpu.pause.pauseDelay;
    YieldsSeen(e, log, delay);
    assert F.Abs(e.proc.cpu, log).arch.d.status == Isa.Running ==> StillRuns(e, log, delay);
  }

  /** From the CPU running to the host being served. When an engine decides in a tick to serve the host, and
      as long as it has not served it by event `m`: the CPU has taken an exit that leaves a request late, and
      the host is lost; or since that tick the DRAM has obliged in at most 19 + 2 * pause_cycles ticks, and
      three more if the CPU has taken an exit. If the CPU stands for a running machine after the tick, the
      bound always holds. */
  lemma HostGetsDram(phys: AddrMap, r: Trace, proc: Processor, n: nat, m: nat, log: seq<Isa.Access>)
    requires IsRun(phys, r, proc) && n < m <= |r.evs| && r.evs[n].TickEv? && DelaysFixed(r.evs, n + 1, m)
    requires Decides(r.states[n].engine, log) && !ServedBy(r, n + 1, m)
    ensures r.states[n + 1].engine.proc.Cgo?
    ensures var delay := r.states[n + 1].engine.proc.cpu.pause.pauseDelay;
            if LateExitIn(r, n + 1, m) then Lost(r.states[m].engine, delay)
            else ObligingTicks(phys, r, n + 1, m) <= 19 + 2 * delay + Slack(r.states[m].engine)
    ensures RunsAfter(r.states[n].engine, log) ==>
              ObligingTicks(phys, r, n + 1, m) <= 19 + 2 * r.states[n + 1].engine.proc.cpu.pause.pauseDelay
  {
    hide Decides; hide EngineRuns.Allowed; hide RunsAfter; hide Tick; hide Waits;
    hide WaitRank; hide Surely; hide Lost; hide LateExitIn;
    hide ObligingTicks; hide ProcInBank; hide NewEngine; hide ServedBy;
    assert Linked(phys, r, n);
    EngineHandover.TickAllowed(phys, r.states[n].engine, r.evs[n]);
    CarriedHandshake(phys, r.states[n].engine, r.evs[n].env, log);
    var delay := r.states[n + 1].engine.proc.cpu.pause.pauseDelay;
    HandoverDecided(phys, r, proc, n + 1, m, delay);
    if RunsAfter(r.states[n].engine, log) {
      HostIsServed(phys, r, proc, n + 1, m, delay);
    }
  }
}
