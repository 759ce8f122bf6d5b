/** Handing the DRAM from a CPU to the host, one tick at a time: what an engine that has asked its CPU to
    pause does while the CPU runs, while it takes an exit, and after it has finished. */
module EngineHandshake {
  import opened DramPortals
  import opened DramWrappers
  import opened EngineSpec
  import opened EngineProcessors
  import opened EngineExclusive
  import opened EngineLiveness
  import C = CpuPipeline
  import F = CpuRefinement
  import H = CpuPause
  import K = CpuHalt
  import Q = CpuResponses
  import X = CpuFinish
  import S = Scoreboard
  import A = CpuArbitration
  import CpuForwarding
  import CpuEnding
  import CpuExit
  import CpuSteps
  import CpuRuns
  import Isa
  import opened EngineWaiting
  import opened FetchMachine

  // ---- one tick of a waiting engine ----

  /** A waiting engine whose CPU has not taken an exit. */
  ghost predicate Yields(e: Engine, log: seq<Isa.Access>, delay: nat) {
    Waiting(e) && Exclusive(e) && Yielding(e.proc.cpu, log, e.portal, e.dram.pending, delay)
  }

  /** The DRAM accepts a request if there is one, completes all it holds, and says that it is idle. */
  ghost predicate Obliging(phys: AddrMap, e: Engine, env: Env)
    requires Compatible(e.proc, e.sched)
  {
    env.quota > 0 && env.idle && multiset(env.completions) == Outstanding(phys, Offered(e, env).dram.pending)
  }

  /** The obliging ticks the engine may still wait. A CPU that has finished makes no requests any more;
      those it has left behind in the portal leave one by one. */
  ghost function WaitRank(e: Engine): nat
    requires e.proc.Cgo?
  {
    if e.proc.cpu.finished then |e.portal.pimReq|
    else if e.proc.cpu.progEndSeen then K.HaltRank(e.proc.cpu)
    else 2 * H.AckRank(e.proc.cpu) + if Open(e.portal, e.dram.pending) then 1 else 0
  }

  /** A waiting engine whose CPU finished after it had acknowledged. */
  ghost predicate Parted(e: Engine) {
    Waiting(e) && Exclusive(e) && e.proc.cpu.finished && e.proc.cpu.pause.ready
  }

  lemma {:induction false} DrainShrinks(p: Portal, d: Dram, clock: nat, quota: nat)
    requires p.mode == PIM
    ensures var p' := DrainPort(p, d, clock, quota).0;
            AllPim(p.pimReq) ==> |p'.pimReq| <= |p.pimReq| && (quota > 0 && p.pimReq != [] ==> |p'.pimReq| < |p.pimReq|)
    decreases quota
  {
    hide Stamped;
    if p.pimReq != [] && AllPim(p.pimReq) {
      var (q, p1) := p.GetOne();
      assert q.value in p.pimReq;
      forall r | r in p1.pimReq ensures r in p.pimReq {}
      if quota > 0 {
        DrainShrinks(p1, Dram(d.pending + [Stamped(q.value, d.nextId, clock)], d.nextId + 1, d.pimMode), clock,
              quota - 1);
      }
    }
  }

  lemma PartedTick(phys: AddrMap, e: Engine, env: Env)
    requires Parted(e) && Legal(phys, e, env)
    ensures var e' := Tick(phys, e, env);
            e'.mode == ServeHost || (Parted(e') && e'.proc.cpu == e.proc.cpu && WaitRank(e') <= WaitRank(e)
                                     && (Obliging(phys, e, env) ==> WaitRank(e') < WaitRank(e)))
  {
    hide C.Run; hide Offered; hide Collect; hide Outstanding; hide ProcInBank; hide NonePim; hide DrainPort;
    hide Schedule; hide AllPim;
    ServesExactly(phys, e, env);
    TickIsExclusive(phys, e, env);
    WaitingParts(phys, e, env);
    FinishedQuiet(e.proc.cpu, e.portal);
    DrainShrinks(e.portal, e.dram, e.clock, env.quota);
    CollectPending(phys, Offered(e, env), env.completions);
    var e1 := Collect(phys, Offered(e, env), env.completions);
    var e' := Tick(phys, e, env);
    assert e'.portal.pimReq == e'.portal.(mode := PIM).pimReq == e1.portal.(mode := PIM).pimReq == e1.portal.pimReq;
  }

  lemma CollectPending(phys: AddrMap, e: Engine, cs: seq<Completion>)
    requires multiset(cs) <= Outstanding(phys, e.dram.pending)
    ensures multiset(cs) == Outstanding(phys, e.dram.pending) ==> Collect(phys, e, cs).dram.pending == []
  {
    hide Outstanding; hide CompleteAll;
    PanicsExactly(phys, e.dram.pending, cs);
    var (done, left) := Complete(phys, e.dram.pending, cs).value;
    if multiset(cs) == Outstanding(phys, e.dram.pending) {
      NothingLeft(phys, left, cs);
    }
  }

  lemma FinishedQuiet(c: C.Cpu, port: Portal)
    requires c.finished && !c.pause.resumePending
    ensures C.Tick(c, port) == (c, port)
  {
    hide C.Run;
  }

  lemma FlightTick(phys: AddrMap, e: Engine, env: Env, log: seq<Isa.Access>, delay: nat)
    requires Yields(e, log, delay) && Legal(phys, e, env) && !CpuForwarding.ExitNow(e.proc.cpu.core)
    ensures var (c', port') := C.Tick(e.proc.cpu, e.portal);
            var e1 := Collect(phys, Offered(e, env), env.completions);
            && e1.proc.Cgo? && e1.proc.cpu == c' && Q.OneIn(c'.active, e1.portal, e1.dram.pending)
            && (!Open(port', e.dram.pending) ==> !Open(e1.portal, e1.dram.pending))
            && (Obliging(phys, e, env) ==> !Open(e1.portal, e1.dram.pending))
  {
    hide C.Tick; hide DrainPort; hide Outstanding; hide ProcInBank; hide NonePim; hide AllPim; hide Q.OneIn;
    hide F.LogAfter;
    hide F.Inv; hide H.PauseOk; hide H.AckRank; hide H.NoAnswer; hide F.Abs; hide CompleteAll; hide BeforeDram;
    hide CpuForwarding.ExitNow; hide X.Prompt;
    WaitingParts(phys, e, env);
    YieldTick(e.proc.cpu, log, e.portal, e.dram.pending, delay);
    var (c', port') := C.Tick(e.proc.cpu, e.portal);
    var (p, d) := DrainPort(port', e.dram, e.clock, env.quota);
    DrainFlight(c'.active, port', e.dram, e.clock, env.quota);
    CollectFlight(c'.active, phys, p, d, env.completions);
    var (done, left) := Complete(phys, d.pending, env.completions).value;
    CompleteOneIn(c'.active, CompleteAll(p, done), left);
  }

  /** Handing the host its responses does not touch the processor's side. */
  lemma CompleteOneIn(m: S.ActiveMap, p: Portal, pending: seq<DramReq>)
    requires Q.OneIn(m, p, pending)
    ensures Q.OneIn(m, p.(hostResp := []), pending) && Q.OneIn(m, p.(mode := PIM), pending)
    ensures Q.OneIn(m, p.(mode := HOST), pending)
  {
    hide Q.IsOwn; hide H.BlockIs;
  }

  /** One tick that takes no exit: the host is served, or the engine goes on waiting and the wait becomes
      no longer; if the DRAM obliges, it becomes shorter. */
  lemma YieldsTick(phys: AddrMap, e: Engine, env: Env, log: seq<Isa.Access>, delay: nat)
    requires Yields(e, log, delay) && Legal(phys, e, env) && !CpuForwarding.ExitNow(e.proc.cpu.core)
    ensures var e' := Tick(phys, e, env);
            var log' := F.LogAfter(log, e.portal, C.Tick(e.proc.cpu, e.portal).1);
            e'.mode == ServeHost || (Yields(e', log', delay) && WaitRank(e') <= WaitRank(e)
                                     && (Obliging(phys, e, env) ==> WaitRank(e') < WaitRank(e))
                                     && F.Abs(e'.proc.cpu, log') == F.Abs(e.proc.cpu, log))
  {
    hide C.Tick; hide Offered; hide Collect; hide Outstanding; hide ProcInBank; hide Sides; hide NonePim;
    hide Q.OneIn; hide F.LogAfter;
    hide F.Inv; hide H.AckRank; hide H.NoAnswer; hide F.Abs; hide H.PauseOk; hide Schedule;
    hide CpuForwarding.ExitNow; hide X.Prompt; hide K.HaltRank;
    NotFinished(e.proc.cpu, log);
    ServesExactly(phys, e, env);
    TickIsExclusive(phys, e, env);
    YieldTick(e.proc.cpu, log, e.portal, e.dram.pending, delay);
    FlightTick(phys, e, env, log, delay);
    var e1 := Collect(phys, Offered(e, env), env.completions);
    var e' := Tick(phys, e, env);
    SameFlight(e'.proc.cpu.active, e1.portal, e'.portal, e1.dram.pending);
    NotFinished(e'.proc.cpu, F.LogAfter(log, e.portal, C.Tick(e.proc.cpu, e.portal).1));
  }

  lemma NotFinished(c: C.Cpu, log: seq<Isa.Access>)
    requires F.Inv(c, log)
    ensures !c.finished && !c.progEndSeen
  {
    hide CpuSteps.Fine; hide A.SigOk;
  }

  lemma SameFlight(m: S.ActiveMap, p: Portal, p': Portal, pending: seq<DramReq>)
    requires Q.OneIn(m, p, pending) && p.(mode := PIM) == p'.(mode := PIM)
    ensures Q.OneIn(m, p', pending) && Open(p', pending) == Open(p, pending)
  {
    hide Q.IsOwn; hide H.BlockIs;
    assert p'.pimReq == p.(mode := PIM).pimReq && p'.pimResp == p.(mode := PIM).pimResp;
  }

  // ---- a CPU that takes an exit while its engine waits ----

  /** A waiting engine whose CPU has taken an exit that still drains; none of its requests is in flight. */
  ghost predicate Halted(e: Engine, log: seq<Isa.Access>, delay: nat) {
    && Waiting(e) && Exclusive(e) && K.Halting(e.proc.cpu, log, delay) && Q.OneIn(map[], e.portal, e.dram.pending)
  }

  lemma ClosedTick(phys: AddrMap, e: Engine, env: Env)
    requires Waiting(e) && Exclusive(e) && Legal(phys, e, env) && Q.OneIn(map[], e.portal, e.dram.pending)
    requires C.Tick(e.proc.cpu, e.portal).1 == e.portal
    ensures var e1 := Collect(phys, Offered(e, env), env.completions);
            Q.OneIn(map[], e1.portal, e1.dram.pending)
  {
    hide C.Tick; hide DrainPort; hide Outstanding; hide ProcInBank; hide NonePim; hide AllPim; hide Q.OneIn;
    hide CompleteAll; hide BeforeDram;
    WaitingParts(phys, e, env);
    var (p, d) := DrainPort(e.portal, e.dram, e.clock, env.quota);
    DrainFlight(map[], e.portal, e.dram, e.clock, env.quota);
    CollectFlight(map[], phys, p, d, env.completions);
    var (done, left) := Complete(phys, d.pending, env.completions).value;
    CompleteOneIn(map[], CompleteAll(p, done), left);
  }

  lemma Closed(p: Portal, pending: seq<DramReq>)
    ensures Q.OneIn(map[], p, pending) <==> p.pimReq == [] && pending == [] && p.pimResp == []
  {
  }

  /** While the exit drains the host is served as soon as the CPU has acknowledged, unless a request is
      late: then the CPU finishes, unacknowledged. */
  lemma HaltedTick(phys: AddrMap, e: Engine, env: Env, log: seq<Isa.Access>, delay: nat)
    requires Halted(e, log, delay) && Legal(phys, e, env)
    ensures var e' := Tick(phys, e, env);
            && (!K.Late(e.proc.cpu) ==>
                  e'.mode == ServeHost ||
                  (Halted(e', log, delay) && !K.Late(e'.proc.cpu) && WaitRank(e') <= WaitRank(e)
                   && (Obliging(phys, e, env) ==> WaitRank(e') < WaitRank(e))))
            && (K.Late(e.proc.cpu) ==>
                  e'.mode != ServeHost && e'.hostPool == e.hostPool &&
                  (Stuck(e') || (Halted(e', log, delay) && K.Late(e'.proc.cpu) && WaitRank(e') < WaitRank(e))))
  {
    hide C.Tick; hide Offered; hide Collect; hide Outstanding; hide ProcInBank; hide Sides; hide NonePim;
    hide Q.OneIn; hide K.Ending; hide K.Late; hide Schedule; hide K.HaltRank; hide K.Phases; hide K.Remaining;
    ServesExactly(phys, e, env);
    TickIsExclusive(phys, e, env);
    WaitingParts(phys, e, env);
    K.HaltTick(e.proc.cpu, log, e.portal, delay);
    HaltingSeen(e.proc.cpu, log, delay);
    var (c', port') := C.Tick(e.proc.cpu, e.portal);
    if !c'.finished {
      ClosedTick(phys, e, env);
      var e1 := Collect(phys, Offered(e, env), env.completions);
      var e' := Tick(phys, e, env);
      Closed(e1.portal, e1.dram.pending);
      SameFlight(map[], e1.portal, e'.portal, e1.dram.pending);
      HaltingSeen(c', log, delay);
      if K.Late(c') {
        K.LateNotReady(c', log, delay);
      }
      if c'.pause.ready {
        ReadyRank(c', log, delay);
      }
    }
  }

  lemma HaltingSeen(c: C.Cpu, log: seq<Isa.Access>, delay: nat)
    requires K.Halting(c, log, delay)
    ensures c.progEndSeen && !c.finished
  {
    hide K.Draining; hide K.Remains; hide K.Remaining;
  }

  lemma ReadyRank(c: C.Cpu, log: seq<Isa.Access>, delay: nat)
    requires K.Halting(c, log, delay) && c.pause.ready
    ensures K.HaltRank(c) == 0
  {
    hide K.Ending; hide K.Remaining;
    K.LateIsLeft(K.Remaining(c));
  }

  /** The tick in which a CPU that is asked to pause takes an exit. */
  lemma ExitedTick(phys: AddrMap, e: Engine, env: Env, log: seq<Isa.Access>, delay: nat)
    requires Yields(e, log, delay) && Legal(phys, e, env) && CpuForwarding.ExitNow(e.proc.cpu.core)
    ensures var e' := Tick(phys, e, env);
            && e'.mode != ServeHost && Halted(e', log, delay) && WaitRank(e') <= WaitRank(e) + 2
            && (K.Late(e'.proc.cpu) <==> X.LateAccess(e.proc.cpu))
  {
    hide C.Tick; hide Offered; hide Collect; hide Outstanding; hide ProcInBank; hide Sides; hide NonePim;
    hide Q.OneIn; hide K.Halting; hide K.Late; hide Schedule; hide K.HaltRank; hide CpuForwarding.ExitNow;
    hide X.Prompt; hide X.LateAccess; hide F.Inv; hide H.Frozen; hide H.Rank;
    ServesExactly(phys, e, env);
    TickIsExclusive(phys, e, env);
    WaitingParts(phys, e, env);
    NotFinished(e.proc.cpu, log);
    PromptClosed(e.proc.cpu, e.portal, e.dram.pending);
    K.HaltStarts(e.proc.cpu, log, e.portal, delay);
    ClosedTick(phys, e, env);
    var e1 := Collect(phys, Offered(e, env), env.completions);
    var e' := Tick(phys, e, env);
    SameFlight(map[], e1.portal, e'.portal, e1.dram.pending);
    HaltingSeen(e'.proc.cpu, log, delay);
  }

  /** When an exit is taken no request is in flight. */
  lemma PromptClosed(c: C.Cpu, p: Portal, pending: seq<DramReq>)
    requires X.Prompt(c) && CpuForwarding.ExitNow(c.core) && Q.OneIn(c.active, p, pending)
    ensures Q.OneIn(map[], p, pending)
  {
    hide CpuForwarding.ExitNow; hide Q.IsOwn;
    assert !H.BlockIs(c.active, S.Waiting);
  }

  // ---- where the wait begins ----

  /** The tick in which an engine with a running CPU decides to serve the host. */
  lemma HandshakeStarts(phys: AddrMap, e: Engine, env: Env, log: seq<Isa.Access>)
    requires Exclusive(e) && e.sched == HostCgoShare && e.mode == ServePim && Legal(phys, e, env) && WantsHost(e)
    requires e.proc.Cgo? && e.proc.cpu.started
    requires var c := e.proc.cpu;
             && F.Inv(c, log) && H.PauseOk(c) && RunsFrom(c, log, e.portal)
             && Q.OneIn(c.active, e.portal, e.dram.pending)
    ensures var e' := Tick(phys, e, env);
            var log' := F.LogAfter(log, e.portal, C.Tick(e.proc.cpu, e.portal).1);
            && e'.proc.Cgo? && Yields(e', log', e'.proc.cpu.pause.pauseDelay)
            && WaitRank(e') <= 19 + 2 * e'.proc.cpu.pause.pauseDelay
            && F.Abs(e'.proc.cpu, log') == F.Abs(C.Tick(e.proc.cpu, e.portal).0, log')
  {
    hide C.Tick; hide DrainPort; hide Outstanding; hide ProcInBank; hide Sides; hide NonePim; hide Q.OneIn;
    hide F.LogAfter; hide RunsFrom; hide X.Prompt; hide K.HaltRank;
    hide F.Inv; hide H.AckRank; hide F.Abs; hide H.PauseOk; hide ProcessCmds;
    hide CompleteAll;
    hide Exclusive;
    TickIsExclusive(phys, e, env);
    CpuStarts(e.proc.cpu, log, e.portal, e.dram.pending);
    RunningParts(phys, e, env);
    var (c', port') := C.Tick(e.proc.cpu, e.portal);
    var (p, d) := DrainPort(port', e.dram, e.clock, env.quota);
    DrainFlight(c'.active, port', e.dram, e.clock, env.quota);
    CollectFlight(c'.active, phys, p, d, env.completions);
    var (done, left) := Complete(phys, d.pending, env.completions).value;
    CompleteOneIn(c'.active, CompleteAll(p, done), left);
    AskedToPause(c', F.LogAfter(log, e.portal, port'));
    NotFinished(C.SignalPause(c'), F.LogAfter(log, e.portal, port'));
  }

  /** A tick of the CPU that takes no exit, does not panic, and fetches nothing that faults. */
  ghost predicate RunsFrom(c: C.Cpu, log: seq<Isa.Access>, port: Portal) {
    !CpuForwarding.ExitNow(c.core) && !C.Panics(c, port) && F.FetchesAllowed(c, log, port)
  }

  /** The same when the CPU takes an exit in that tick, or has taken one that still drains: it finishes,
      and the engine is stuck, or it is asked to pause in time. */
  lemma HandshakeEnds(phys: AddrMap, e: Engine, env: Env, log: seq<Isa.Access>)
    requires Exclusive(e) && e.sched == HostCgoShare && e.mode == ServePim && Legal(phys, e, env) && WantsHost(e)
    requires e.proc.Cgo? && e.proc.cpu.started
    requires var c := e.proc.cpu;
             || (F.Inv(c, log) && CpuForwarding.ExitNow(c.core) && X.Prompt(c) && CpuExit.Steady(c, false)
                 && Q.OneIn(c.active, e.portal, e.dram.pending))
             || (K.Ending(c, log, false) && Q.OneIn(map[], e.portal, e.dram.pending))
    ensures var e' := Tick(phys, e, env);
            var c := e.proc.cpu;
            && e'.proc.Cgo? && (Stuck(e') <==> C.Tick(c, e.portal).0.finished)
            && (!Stuck(e') ==>
                  && Halted(e', log, e'.proc.cpu.pause.pauseDelay)
                  && WaitRank(e') <= 4 + e'.proc.cpu.pause.pauseDelay
                  && (K.Late(e'.proc.cpu) <==> if F.Inv(c, log) then X.LateAccess(c) else K.Late(c)))
  {
    hide C.Tick; hide DrainPort; hide Outstanding; hide ProcInBank; hide Sides; hide NonePim; hide Q.OneIn;
    hide X.Prompt; hide K.HaltRank; hide F.Inv; hide ProcessCmds; hide CompleteAll; hide Exclusive; hide K.Ending;
    hide K.Halting; hide K.Late; hide X.LateAccess; hide CpuForwarding.ExitNow;
    TickIsExclusive(phys, e, env);
    StartedStays(e.proc.cpu, e.portal);
    RunningParts(phys, e, env);
    var (c', port') := C.Tick(e.proc.cpu, e.portal);
    EndsFrom(e.proc.cpu, log, e.portal, e.dram.pending);
    if !c'.finished {
      K.HaltAsked(c', log);
      var (p, d) := DrainPort(port', e.dram, e.clock, env.quota);
      DrainFlight(map[], port', e.dram, e.clock, env.quota);
      CollectFlight(map[], phys, p, d, env.completions);
      var (done, left) := Complete(phys, d.pending, env.completions).value;
      CompleteOneIn(map[], CompleteAll(p, done), left);
      HaltingSeen(C.SignalPause(c'), log, c'.pause.pauseDelay);
    }
  }

  lemma EndsFrom(c: C.Cpu, log: seq<Isa.Access>, port: Portal, pending: seq<DramReq>)
    requires || (F.Inv(c, log) && CpuForwarding.ExitNow(c.core) && X.Prompt(c) && CpuExit.Steady(c, false)
                 && Q.OneIn(c.active, port, pending))
             || (K.Ending(c, log, false) && Q.OneIn(map[], port, pending))
    ensures var (c', port') := C.Tick(c, port);
            && (!c'.finished ==>
                  && K.Ending(c', log, false) && port' == port && Q.OneIn(map[], port', pending)
                  && (K.Late(c') <==> if F.Inv(c, log) then X.LateAccess(c) else K.Late(c)))
  {
    hide C.Tick; hide Q.OneIn; hide X.Prompt; hide F.Inv; hide K.Late; hide X.LateAccess; hide CpuForwarding.ExitNow;
    hide K.Draining; hide K.Remaining; hide K.Remains;
    if F.Inv(c, log) {
      NotFinished(c, log);
      PromptClosed(c, port, pending);
      K.EndingStarts(c, log, port);
    } else {
      K.EndingTick(c, log, port);
    }
  }

  lemma RunningParts(phys: AddrMap, e: Engine, env: Env)
    requires Exclusive(e) && e.sched == HostCgoShare && e.mode == ServePim && Legal(phys, e, env) && WantsHost(e)
    requires e.proc.Cgo? && e.proc.cpu.started && C.Tick(e.proc.cpu, e.portal).0.started
    ensures var (c', port') := C.Tick(e.proc.cpu, e.portal);
            var (p, d) := DrainPort(port', e.dram, e.clock, env.quota);
            var r := Complete(phys, d.pending, env.completions);
            var e' := Tick(phys, e, env);
            && port'.mode == PIM && AllPim(d.pending) && multiset(env.completions) <= Outstanding(phys, d.pending)
            && r.Some?
            && e'.proc.Cgo? && e'.proc.cpu == C.SignalPause(c')
            && e'.portal == CompleteAll(p, r.value.0).(hostResp := []) && e'.dram.pending == r.value.1
            && Waiting(e')
  {
    hide C.Tick; hide ProcessCmds; hide DrainPort; hide Outstanding; hide ProcInBank; hide NonePim;
    hide AllPim; hide CompleteAll;
    OfferedKeeps(e, env);
    ProcTick(e);
    CmdsTouch(TickProc(e));
    CollectKeeps(phys, Offered(e, env), env.completions);
    PortKeepsSides(e.portal, TickProc(e).portal, e.dram);
    DrainKeepsSides(TickProc(e).portal, e.dram, e.clock, env.quota);
    PanicsExactly(phys, Offered(e, env).dram.pending, env.completions);
  }

  /** A tick of the running CPU before it is asked to pause. */
  lemma CpuStarts(c: C.Cpu, log: seq<Isa.Access>, port: Portal, pending: seq<DramReq>)
    requires F.Inv(c, log) && H.PauseOk(c) && RunsFrom(c, log, port) && Q.OneIn(c.active, port, pending)
    ensures var (c', port') := C.Tick(c, port);
            var log' := F.LogAfter(log, port, port');
            var fetched := CpuSteps.Fetches(C.Decided(C.PrepareResume(c), port).ops);
            && F.Inv(c', log') && H.PauseOk(c') && X.Prompt(c') && Q.OneIn(c'.active, port', pending)
            && c'.started == c.started && c'.prog == c.prog && port'.mode == port.mode
            && F.Abs(c', log') == (if fetched then FetchStep(c.prog, F.Abs(c, log)) else F.Abs(c, log))
  {
    hide F.Inv; hide C.Tick; hide F.Abs; hide C.Decided; hide F.LogAfter; hide H.PauseOk; hide Q.OneIn;
    hide CpuForwarding.ExitNow; hide C.PrepareResume; hide CpuSteps.Fetches; hide X.Prompt;
    hide CpuSteps.JumpBehindTest;
    hide F.NewReqs; hide F.ClashNow; hide Q.ConsumesOwn; hide F.KeptApart; hide C.Panics; hide FetchStep; hide Allowed;
    hide F.Orderly; hide CpuSteps.Conserved;
    F.InvIsOrderly(c, log);
    CpuRuns.PanicsExactly(c, log, port);
    F.TickRefines(c, log, port);
    Q.TickFlight(c, log, port, pending);
    H.PauseOkTick(c, log, port);
    CpuEnding.PromptTick(c, log, port);
    StartedStays(c, port);
  }

  lemma StartedStays(c: C.Cpu, port: Portal)
    ensures C.Tick(c, port).0.started == c.started
  {
    hide C.Decided; hide C.NextCore; hide C.EvalAll;
  }

  lemma AskedToPause(c: C.Cpu, log: seq<Isa.Access>)
    requires F.Inv(c, log) && H.PauseOk(c) && X.Prompt(c)
    ensures var c' := C.SignalPause(c);
            && F.Inv(c', log) && H.PauseOk(c') && H.Asking(c'.pause, c.pause.pauseDelay) && X.Prompt(c')
            && F.Abs(c', log) == F.Abs(c, log) && c'.active == c.active
            && H.AckRank(c') <= 9 + c.pause.pauseDelay && c'.pause.pauseDelay == c.pause.pauseDelay
  {
    hide F.Inv; hide F.Abs; hide H.PauseOk; hide H.Rank; hide CpuForwarding.ExitNow;
    CpuRuns.PauseKeeps(c, log);
    PauseOkPaused(c);
    H.AckStarts(CpuRuns.RunState(c, log, 0, 0, 0));
  }

  lemma PauseOkPaused(c: C.Cpu)
    ensures H.PauseOk(C.SignalPause(c))
  {
  }
}
