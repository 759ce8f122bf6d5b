/** A CPU that has finished never acknowledges a pause, so its engine never serves the host again. */
module EngineLiveness {
  import opened DramPortals
  import opened DramWrappers
  import opened EngineSpec
  import opened EngineProcessors
  import opened EngineExclusive
  import opened EngineRuns
  import C = CpuPipeline

  /** Paused after it finished: the tick returns before it looks at the handshake. */
  predicate PausedTooLate(c: C.Cpu) {
    c.started && c.finished && c.pause.requested && !c.pause.ready && !c.pause.resumePending
  }

  /** The handshake answers a pause only as long as the CPU runs. */
  lemma FinishedIgnoresPause(c: C.Cpu, port: Portal)
    requires PausedTooLate(c)
    ensures C.Tick(c, port) == (c, port)
  {
    hide C.Run;
  }

  ghost predicate Stuck(e: Engine) {
    && e.sched == HostCgoShare && e.proc.Cgo? && PausedTooLate(e.proc.cpu)
    && e.mode == SwitchDelay && e.next == SwitchDelay && e.lastService == ServePim
  }

  lemma StuckTick(phys: AddrMap, e: Engine, env: Env)
    requires Stuck(e) && Exclusive(e) && Legal(phys, e, env)
    ensures Stuck(Tick(phys, e, env)) && Tick(phys, e, env).hostPool == e.hostPool
  {
    hide C.Tick; hide ProcessCmds; hide DrainPort; hide Outstanding; hide ProcInBank; hide Sides; hide NonePim;
    FinishedIgnoresPause(e.proc.cpu, e.portal);
    OfferedKeeps(e, env);
    CmdsTouch(TickProc(e));
    CollectKeeps(phys, Offered(e, env), env.completions);
  }

  /** A host request to an engine whose CPU has finished makes the engine stuck. */
  lemma BecomesStuck(phys: AddrMap, e: Engine, env: Env)
    requires Exclusive(e) && e.sched == HostCgoShare && e.mode == ServePim && Legal(phys, e, env)
    requires e.proc.Cgo? && e.proc.cpu.started && e.proc.cpu.finished && WantsHost(e)
    ensures Stuck(Tick(phys, e, env))
  {
    hide ProcessCmds; hide DrainPort; hide Outstanding; hide ProcInBank; hide Sides; hide NonePim; hide C.Run;
    OfferedKeeps(e, env);
    ProcTick(e);
    CmdsTouch(TickProc(e));
    CollectKeeps(phys, Offered(e, env), env.completions);
  }

  /** Once stuck, forever stuck: none of the host requests that wait is ever issued. */
  lemma {:induction false} HostStarves(phys: AddrMap, r: Trace, proc: Processor, n: nat, m: nat)
    requires IsRun(phys, r, proc) && n <= m <= |r.evs| && Stuck(r.states[n].engine)
    ensures Stuck(r.states[m].engine) && r.states[n].engine.hostPool <= r.states[m].engine.hostPool
  {
    hide Stuck; hide RunOne; hide Allowed; hide ProcInBank; hide Exclusive; hide Conserved;
    if m > n {
      HostStarves(phys, r, proc, n, m - 1);
      EngineIsSound(phys, r, proc, m - 1);
      assert Linked(phys, r, m - 1);
      StuckStep(phys, r.states[m - 1], r.evs[m - 1]);
    }
  }

  lemma StuckStep(phys: AddrMap, s: RunState, ev: Event)
    requires Stuck(s.engine) && Exclusive(s.engine) && Allowed(phys, s.engine, ev)
    ensures var e' := RunOne(phys, s, ev).engine;
            Stuck(e') && s.engine.hostPool <= e'.hostPool
  {
    hide Exclusive; hide Tick; hide Legal;
    if ev.TickEv? {
      StuckTick(phys, s.engine, ev.env);
    }
  }
}
