/** Counting requests over all engines. */
module SimTotals {
  import opened DramPortals
  import opened DramWrappers
  import opened RequestRouter
  import opened EngineConservation
  import opened SimSpec
  import E = EngineSpec
  import X = EngineExclusive
  import EP = EngineProcessors
  import B = BootFsm
  import CpuBounds

  ghost function Total(m: Engines, x: Mark): nat
    decreases |m|
  {
    if m == map[] then 0
    else
      var k :| k in m;
      InEngine(m[k], x) + Total(m - {k}, x)
  }

  lemma {:induction false} TotalSplit(m: Engines, k: Cfg, x: Mark)
    requires k in m
    ensures Total(m, x) == InEngine(m[k], x) + Total(m - {k}, x)
    decreases |m|
  {
    hide InEngine;
    var k0 :| k0 in m && Total(m, x) == InEngine(m[k0], x) + Total(m - {k0}, x);
    if k0 != k {
      TotalSplit(m - {k0}, k, x);
      TotalSplit(m - {k}, k0, x);
      assert (m - {k0}) - {k} == (m - {k}) - {k0};
    }
  }

  lemma TotalUpdate(m: Engines, k: Cfg, e: E.Engine, x: Mark)
    ensures Total(m[k := e], x) == Total(m, x) - (if k in m then InEngine(m[k], x) else 0) + InEngine(e, x)
  {
    hide InEngine;
    TotalSplit(m[k := e], k, x);
    assert m[k := e] - {k} == m - {k};
    if k in m {
      TotalSplit(m, k, x);
    } else {
      assert m - {k} == m;
    }
  }

  lemma {:induction false} TotalSame(m: Engines, m': Engines, x: Mark)
    requires m.Keys == m'.Keys && forall k :: k in m ==> InEngine(m'[k], x) == InEngine(m[k], x)
    ensures Total(m', x) == Total(m, x)
    decreases |m|
  {
    hide InEngine;
    if m == map[] {
      assert m' == map[];
    } else {
      var k :| k in m;
      TotalSplit(m, k, x);
      TotalSplit(m', k, x);
      assert (m - {k}).Keys == m.Keys - {k} && (m' - {k}).Keys == m'.Keys - {k};
      TotalSame(m - {k}, m' - {k}, x);
    }
  }

  /** Every engine in `ts` gained one, the others nothing. */
  lemma {:induction false} TotalGain(m: Engines, m': Engines, ts: set<Cfg>, x: Mark)
    requires m.Keys == m'.Keys && ts <= m.Keys
    requires forall k :: k in m ==> InEngine(m'[k], x) == InEngine(m[k], x) + (if k in ts then 1 else 0)
    ensures Total(m', x) == Total(m, x) + |ts|
    decreases |ts|
  {
    hide InEngine;
    if ts == {} {
      TotalSame(m, m', x);
    } else {
      var k :| k in ts;
      var mid := m'[k := m[k]];
      TotalUpdate(m', k, m[k], x);
      TotalGain(m, mid, ts - {k}, x);
    }
  }

  lemma {:induction false} TotalZero(m: Engines, x: Mark)
    requires forall k :: k in m ==> InEngine(m[k], x) == 0
    ensures Total(m, x) == 0
    decreases |m|
  {
    hide InEngine;
    if m != map[] {
      var k :| k in m;
      TotalSplit(m, k, x);
      TotalZero(m - {k}, x);
    }
  }

  // ---- engines inside the simulator ----

  /** What the simulator keeps about each engine. */
  ghost predicate EngineOk(e: E.Engine) {
    && X.Exclusive(e) && e.sched != E.Unconfigured
    && NoCommand(e.hostPool) && NoCommand(e.portal.hostReq)
  }

  lemma EngineTickOk(phys: AddrMap, e: E.Engine, env: E.Env, x: Mark)
    requires EngineOk(e) && E.Legal(phys, e, env)
    ensures EngineOk(E.Tick(phys, e, env)) && InEngine(E.Tick(phys, e, env), x) == InEngine(e, x)
    ensures E.Tick(phys, e, env).proc.Cgo? == e.proc.Cgo?
  {
    hide InEngine; hide E.Tick; hide X.Exclusive; hide E.Legal;
    X.TickIsExclusive(phys, e, env);
    TickConserves(phys, e, env, x);
    TickNoCommand(phys, e, env);
  }

  lemma {:induction false} DrainNoCommand(p: Portal, d: Dram, clock: nat, quota: nat)
    requires NoCommand(p.hostReq) && X.Sides(p, d)
    ensures NoCommand(E.DrainPort(p, d, clock, quota).0.hostReq)
    decreases quota
  {
    hide IsBroadcast;
    var (q, p1) := p.GetOne();
    if q.Some? {
      forall r | r in p1.hostReq ensures r in p.hostReq {}
      assert q.value in p.hostReq || q.value in p.pimReq;
      if quota > 0 {
        GetKeepsSides(p, d, clock);
        DrainNoCommand(p1, Dram(d.pending + [Stamped(q.value, d.nextId, clock)], d.nextId + 1, d.pimMode), clock,
              quota - 1);
      }
    }
  }

  lemma OfferedNoCommand(e: E.Engine, env: E.Env)
    requires EngineOk(e)
    ensures NoCommand(E.Offered(e, env).hostPool) && NoCommand(E.Offered(e, env).portal.hostReq)
  {
    hide E.TickProc; hide E.ProcessCmds; hide E.DrainPort; hide EP.ProcInBank; hide X.Sides; hide NoCommand;
    EP.ProcTick(e);
    var e1 := E.TickProc(e);
    SameHost(e.portal, e1.portal);
    X.PortKeepsSides(e.portal, e1.portal, e.dram);
    EP.CmdsTouch(e1);
    var e2 := E.ProcessCmds(e1);
    DrainNoCommand(e2.portal, e2.dram, e2.clock, env.quota);
  }

  lemma SameHost(p: Portal, p': Portal)
    requires CpuBounds.PortOnly(p, p')
    ensures p'.hostReq == p.hostReq
  {
  }

  lemma MovesNoCommand(e: E.Engine, e': E.Engine)
    requires PoolToPortal(e, e') && NoCommand(e.hostPool) && NoCommand(e.portal.hostReq)
    ensures NoCommand(e'.hostPool) && NoCommand(e'.portal.hostReq)
  {
    hide IsBroadcast; hide ProcReqs; hide CmdReqs;
    var n: nat :| n <= |e.hostPool| && e'.hostPool == e.hostPool[n..]
         && (e'.portal.hostReq == e.portal.hostReq + e.hostPool[..n] ||
             e'.portal.hostReq == e.portal.hostReq + B.Reversed(e.hostPool[..n]));
    X.ReversedIn(e.hostPool[..n]);
  }

  lemma TickNoCommand(phys: AddrMap, e: E.Engine, env: E.Env)
    requires EngineOk(e) && E.Legal(phys, e, env)
    ensures NoCommand(E.Tick(phys, e, env).hostPool) && NoCommand(E.Tick(phys, e, env).portal.hostReq)
  {
    hide E.Offered; hide E.Collect; hide E.Schedule; hide EP.ProcInBank; hide X.Sides; hide X.NonePim; hide Outstanding;
    hide NoCommand; hide PoolToPortal;
    X.OfferedKeeps(e, env);
    OfferedNoCommand(e, env);
    var e1 := E.Offered(e, env);
    X.CollectKeeps(phys, e1, env.completions);
    var e2 := E.Collect(phys, e1, env.completions);
    ScheduleMoves(e2, env.idle);
    MovesNoCommand(e2, E.Schedule(e2, env.idle));
  }
}
