/** Whole runs of an engine, against any DRAM that completes only what it accepted. */
module EngineRuns {
  import opened Words
  import opened DramPortals
  import opened DramWrappers
  import opened EngineSpec
  import opened EngineProcessors
  import opened EngineExclusive
  import opened EngineConservation
  import opened EngineNumbers
  import P = PePipeline
  import T = PeTypes

  datatype Event =
    | TickEv(env: Env)
    | HostMem(req: DramReq)
    | HostCmd(cmd: CgoCmd, req: DramReq)
    | HostJob(job: P.Job)
    | Deliver
    | Configure(s: Sched)
    | Delays(pause: nat, resume: nat)

  /** The engine, everything the host ever enqueued, and everything it took back. */
  datatype RunState = RunState(engine: Engine, sent: seq<DramReq>, taken: seq<DramReq>)

  ghost function RunOne(phys: AddrMap, s: RunState, ev: Event): RunState
    requires Allowed(phys, s.engine, ev)
  {
    match ev
    case TickEv(env) => s.(engine := Tick(phys, s.engine, env))
    case HostMem(q) => s.(engine := EnqueueMem(s.engine, q), sent := s.sent + [q])
    case HostCmd(c, q) => s.(engine := EnqueueCmd(s.engine, c, q), sent := s.sent + [q])
    case HostJob(j) => s.(engine := EnqueueJob(s.engine, j), sent := s.sent + OptReq(j.req))
    case Deliver =>
      var (q, e) := TakeDone(s.engine);
      s.(engine := e, taken := s.taken + OptReq(q))
    case Configure(sched) => s.(engine := SetScheduling(s.engine, sched).1)
    case Delays(p, r) => s.(engine := SetDelays(s.engine, p, r))
  }

  /** What the engine's callers must respect: it panics on a tick before it is configured, on a
      processor's request sent by the host, and on a PE instruction outside the pseudo bank. */
  ghost predicate Allowed(phys: AddrMap, e: Engine, ev: Event) {
    match ev
    case TickEv(env) => e.sched != Unconfigured && Compatible(e.proc, e.sched) && Legal(phys, e, env)
    case HostMem(q) => !q.isPim && IsFresh(q)
    case HostJob(j) => e.proc.Fgo? && JobInBank(j.inst)
    case _ => true
  }

  datatype Trace = Trace(evs: seq<Event>, states: seq<RunState>)

  ghost predicate Linked(phys: AddrMap, r: Trace, i: nat)
    requires i < |r.evs| && |r.states| == |r.evs| + 1
  {
    Allowed(phys, r.states[i].engine, r.evs[i]) && r.states[i + 1] == RunOne(phys, r.states[i], r.evs[i])
  }

  ghost predicate IsRun(phys: AddrMap, r: Trace, proc: Processor) {
    && |r.states| == |r.evs| + 1 && ProcInBank(proc) && ProcReqs(proc) == []
    && r.states[0] == RunState(NewEngine(proc), [], [])
    && forall i: nat :: i < |r.evs| ==> Linked(phys, r, i)
  }

  // ---- the invariant ----

  ghost predicate Conserved(s: RunState) {
    forall q: DramReq {:trigger Key(q)} :: InEngine(s.engine, Key(q)) + Count(s.taken, Key(q)) == Count(s.sent, Key(q))
  }

  ghost predicate Good(s: RunState) {
    Exclusive(s.engine) && Unnumbered(s.engine) && Numbered(s.engine.dram) && Conserved(s)
  }

  // ---- what the host does ----

  lemma {:induction false} CmdReqsSum(q: seq<(CgoCmd, DramReq)>, c: (CgoCmd, DramReq))
    ensures CmdReqs(q + [c]) == CmdReqs(q) + [c.1]
  {
    if q == [] {
      assert q + [c] == [c] && [c][1..] == [];
    } else {
      CmdReqsSum(q[1..], c);
      assert (q + [c])[1..] == q[1..] + [c];
    }
  }

  lemma {:induction false} JobReqsSum(q: seq<P.Job>, j: P.Job)
    ensures JobReqs(q + [j]) == JobReqs(q) + OptReq(j.req)
  {
    if q == [] {
      assert q + [j] == [j] && [j][1..] == [];
    } else {
      JobReqsSum(q[1..], j);
      assert (q + [j])[1..] == q[1..] + [j];
    }
  }

  /** The request that arrives with an event, and the one that leaves. */
  function Arriving(ev: Event): seq<DramReq> {
    match ev
    case HostMem(q) => [q]
    case HostCmd(_, q) => [q]
    case HostJob(j) => OptReq(j.req)
    case _ => []
  }

  function Leaving(e: Engine, ev: Event): seq<DramReq> {
    if ev.Deliver? then OptReq(TakeDone(e).0) else []
  }

  /** Every event but a tick moves exactly its own request. */
  lemma HostCounts(phys: AddrMap, s: RunState, ev: Event, x: Mark)
    requires Allowed(phys, s.engine, ev) && !ev.TickEv?
    ensures var s' := RunOne(phys, s, ev);
            && InEngine(s'.engine, x) + Count(Leaving(s.engine, ev), x)
                  == InEngine(s.engine, x) + Count(Arriving(ev), x)
            && s'.sent == s.sent + Arriving(ev) && s'.taken == s.taken + Leaving(s.engine, ev)
            && s'.engine.dram.nextId == s.engine.dram.nextId
  {
    hide Count; hide InEngine; hide Legal; hide EnqueueMem; hide EnqueueCmd; hide EnqueueJob; hide TakeDone;
    hide SetScheduling; hide SetDelays;
    NothingCounted(x);
    match ev
    case HostMem(q) => MemArrives(s.engine, q, x);
    case HostCmd(c, q) => CmdArrives(s.engine, c, q, x);
    case HostJob(j) => JobArrives(s.engine, j, x);
    case Deliver => DeliverCounts(s.engine, x);
    case Configure(sched) => SettingsCount(s.engine, sched, 0, 0, x);
    case Delays(p, r) => SettingsCount(s.engine, HostOnly, p, r, x);
  }

  lemma MemArrives(e: Engine, q: DramReq, x: Mark)
    ensures InEngine(EnqueueMem(e, q), x) == InEngine(e, x) + Count([q], x) && EnqueueMem(e, q).dram == e.dram
  {
    hide Count; hide HostCount;
    CountSum(e.hostPool, [q], x);
  }

  lemma CmdArrives(e: Engine, c: CgoCmd, q: DramReq, x: Mark)
    ensures InEngine(EnqueueCmd(e, c, q), x) == InEngine(e, x) + Count([q], x) && EnqueueCmd(e, c, q).dram == e.dram
  {
    hide Count; hide HostCount; hide CmdReqs;
    CmdReqsSum(e.cmdQueue, (c, q));
    CountSum(CmdReqs(e.cmdQueue), [q], x);
  }

  lemma JobArrives(e: Engine, j: P.Job, x: Mark)
    requires e.proc.Fgo?
    ensures InEngine(EnqueueJob(e, j), x) == InEngine(e, x) + Count(OptReq(j.req), x) && EnqueueJob(e, j).dram == e.dram
  {
    hide Count; hide HostCount; hide PeReqs; hide P.PushHost;
    JobCounts(e.proc.pe, j, x);
  }

  lemma SettingsCount(e: Engine, sched: Sched, pause: nat, resume: nat, x: Mark)
    ensures InEngine(SetScheduling(e, sched).1, x) == InEngine(e, x)
    ensures InEngine(SetDelays(e, pause, resume), x) == InEngine(e, x)
    ensures SetScheduling(e, sched).1.dram.nextId == e.dram.nextId && SetDelays(e, pause, resume).dram == e.dram
  {
    hide Count; hide HostCount; hide PeReqs;
  }

  lemma JobCounts(p: P.Pe, j: P.Job, x: Mark)
    ensures Count(PeReqs(P.PushHost(p, j)), x) == Count(PeReqs(p), x) + Count(OptReq(j.req), x)
  {
    hide Count; hide JobReqs; hide PeReqs;
    JobReqsSum(p.imem, j);
    CountSum(JobReqs(p.imem), OptReq(j.req), x);
    PeCounts(p, x);
    PeCounts(P.PushHost(p, j), x);
  }

  lemma DeliverCounts(e: Engine, x: Mark)
    ensures InEngine(TakeDone(e).1, x) + Count(OptReq(TakeDone(e).0), x) == InEngine(e, x)
    ensures TakeDone(e).1.dram == e.dram
  {
    hide Count; hide HostCount;
    NothingCounted(x);
    if e.hostDone != [] {
      CountFirst(e.hostDone, 1, x);
      assert e.hostDone[..1] == [e.hostDone[0]];
    }
  }

  lemma HostKeepsExclusive(phys: AddrMap, e: Engine, ev: Event)
    requires Exclusive(e) && Allowed(phys, e, ev) && !ev.TickEv?
    ensures Exclusive(RunOne(phys, RunState(e, [], []), ev).engine)
  {
    hide Exclusive; hide ProcInBank; hide JobInBank; hide AllFresh;
    match ev
    case HostMem(q) => HostIsExclusive(e, q, HostOnly, NoJob(), StartCmd);
    case HostCmd(c, q) => HostIsExclusive(e, q, HostOnly, NoJob(), c);
    case HostJob(j) => HostIsExclusive(e, NewReq(0, true, true), HostOnly, j, StartCmd);
    case Deliver => HostIsExclusive(e, NewReq(0, true, true), HostOnly, NoJob(), StartCmd);
    case Configure(sched) => HostIsExclusive(e, NewReq(0, true, true), sched, NoJob(), StartCmd);
    case Delays(p, r) => DelaysAreExclusive(e, p, r);
  }

  function NoJob(): P.Job {
    P.Job(T.NOP, None)
  }

  // ---- the theorem ----

  lemma HostKeepsGood(phys: AddrMap, s: RunState, ev: Event)
    requires Good(s) && Allowed(phys, s.engine, ev) && !ev.TickEv?
    ensures Good(RunOne(phys, s, ev))
  {
    hide Exclusive; hide Unnumbered; hide InEngine; hide Count; hide Allowed; hide RunOne; hide Arriving; hide Leaving;
    hide Numbered;
    var s' := RunOne(phys, s, ev);
    HostKeepsExclusive(phys, s.engine, ev);
    SameEngine(phys, s, ev);
    HostKeepsNumbers(phys, s, ev);
    forall q: DramReq {:trigger Key(q)}
      ensures InEngine(s'.engine, Key(q)) + Count(s'.taken, Key(q)) == Count(s'.sent, Key(q))
    {
      HostCounts(phys, s, ev, Key(q));
      CountSum(s.sent, Arriving(ev), Key(q));
      CountSum(s.taken, Leaving(s.engine, ev), Key(q));
    }
  }

  lemma HostKeepsNumbers(phys: AddrMap, s: RunState, ev: Event)
    requires Unnumbered(s.engine) && Numbered(s.engine.dram) && Allowed(phys, s.engine, ev) && !ev.TickEv?
    ensures Unnumbered(RunOne(phys, s, ev).engine) && Numbered(RunOne(phys, s, ev).engine.dram)
  {
    hide IsFresh; hide Rising; hide Legal;
  }

  lemma SameEngine(phys: AddrMap, s: RunState, ev: Event)
    requires Allowed(phys, s.engine, ev)
    ensures RunOne(phys, s, ev).engine == RunOne(phys, RunState(s.engine, [], []), ev).engine
  {
  }

  lemma TickKeepsGood(phys: AddrMap, s: RunState, env: Env)
    requires Good(s) && Allowed(phys, s.engine, TickEv(env))
    ensures Good(RunOne(phys, s, TickEv(env)))
  {
    hide Exclusive; hide Unnumbered; hide Numbered; hide InEngine; hide Count; hide Tick; hide Legal;
    var s' := RunOne(phys, s, TickEv(env));
    TickIsExclusive(phys, s.engine, env);
    forall q: DramReq {:trigger Key(q)}
      ensures InEngine(s'.engine, Key(q)) + Count(s'.taken, Key(q)) == Count(s'.sent, Key(q))
    {
      TickConserves(phys, s.engine, env, Key(q));
    }
    TickNumbers(phys, s.engine, env);
  }

  lemma StartIsGood(proc: Processor)
    requires ProcInBank(proc) && ProcReqs(proc) == []
    ensures Good(RunState(NewEngine(proc), [], []))
  {
    hide ProcInBank; hide ProcReqs; hide IsFresh; hide Hit;
    var s := RunState(NewEngine(proc), [], []);
    forall q: DramReq {:trigger Key(q)}
      ensures InEngine(s.engine, Key(q)) + Count(s.taken, Key(q)) == Count(s.sent, Key(q))
    {
      NothingCounted(Key(q));
    }
  }

  /** The engine theorem. Whatever the host sends and whatever the DRAM accepts, refuses, completes and
      in whatever order: the DRAM serves one side at a time; every request the host sent is in the
      engine or was taken back, exactly as often as it was sent; requests are numbered once and the numbers
      inside the DRAM are distinct. */
  lemma {:induction false} EngineIsSound(phys: AddrMap, r: Trace, proc: Processor, n: nat)
    requires IsRun(phys, r, proc) && n <= |r.evs|
    ensures Good(r.states[n])
  {
    hide Good; hide RunOne; hide Allowed; hide ProcInBank; hide NewEngine;
    if n == 0 {
      StartIsGood(proc);
    } else {
      EngineIsSound(phys, r, proc, n - 1);
      assert Linked(phys, r, n - 1);
      if r.evs[n - 1].TickEv? {
        TickKeepsGood(phys, r.states[n - 1], r.evs[n - 1].env);
      } else {
        HostKeepsGood(phys, r.states[n - 1], r.evs[n - 1]);
      }
    }
  }

  /** Against a DRAM that completes only what it has accepted the wrapper never panics. What it is offered
      in a tick, the requests the processor makes in that tick included, has no number yet, and every
      processor request in it lies in the pseudo bank, so the fatal branch is never taken. */
  lemma WrapperNeverPanics(phys: AddrMap, r: Trace, proc: Processor, n: nat)
    requires IsRun(phys, r, proc) && n < |r.evs| && r.evs[n].TickEv?
    ensures var e := r.states[n].engine;
            && Compatible(e.proc, e.sched)
            && Complete(phys, Offered(e, r.evs[n].env).dram.pending, r.evs[n].env.completions).Some?
            && (var offer := BeforeDram(e).portal;
                && AllPim(offer.pimReq) && NonePim(offer.hostReq) && AllFresh(offer.pimReq) && AllFresh(offer.hostReq))
  {
    EngineIsSound(phys, r, proc, n);
    hide RunOne; hide ProcInBank; hide NewEngine; hide Offered; hide Outstanding; hide InEngine; hide Complete;
    hide Count;
    assert Linked(phys, r, n);
    var e := r.states[n].engine;
    OfferIsSound(e);
    PanicsExactly(phys, Offered(e, r.evs[n].env).dram.pending, r.evs[n].env.completions);
  }

  /** Nothing more outstanding means that the host has everything back. */
  lemma AllDelivered(phys: AddrMap, r: Trace, proc: Processor, n: nat, q: DramReq)
    requires IsRun(phys, r, proc) && n <= |r.evs| && InEngine(r.states[n].engine, Key(q)) == 0
    ensures Count(r.states[n].taken, Key(q)) == Count(r.states[n].sent, Key(q))
  {
    EngineIsSound(phys, r, proc, n);
    hide InEngine; hide Count; hide Exclusive; hide Unnumbered; hide Numbered;
  }
}
