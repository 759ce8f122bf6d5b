/** Sharing a DRAM between a PE and the host: one request at a time, first come first served within the
    host, and bounded bypass between the two. */
module EngineFairness {
  import opened Words
  import opened DramPortals
  import opened DramWrappers
  import opened EngineSpec
  import opened EngineProcessors
  import opened EngineExclusive
  import opened EngineRuns
  import opened CpuBounds
  import P = PePipeline
  import FlatMemory
  import EngineNumbers
  import EngineConservation
  import Tally

  function Hosts(s: seq<DramReq>): nat {
    |EngineConservation.HostPart(s)|
  }

  /** Host requests between the pool and their completion. */
  function HostBusy(e: Engine): nat {
    |e.portal.hostReq| + Hosts(e.dram.pending)
  }

  /** The PE has an instruction in EX or the permission to fetch one. */
  predicate PeBusy(p: P.Pe) {
    p.latch.valid || p.allowed
  }

  predicate PeOk(p: P.Pe) {
    && (!p.latch.valid ==> p.latch == P.EMPTY_ISSUE && (p.stop.st.Done? || p.stop.st.Release?))
    && (p.latch.valid ==> p.stop.st.Done? || p.stop.st.Waiting? || p.stop.st.WriteBack?)
    && (p.stop.st.Waiting? || p.stop.st.WriteBack? ==> !p.latch.mem.MemIdle?)
  }

  /** One instruction in flight: permitted, then in EX, then finished. */
  predicate InFlight(p: P.Pe) {
    && !p.finished
    && ((p.allowed && p.imem != [] && !p.latch.valid) || (!p.allowed && p.latch.valid))
  }

  ghost predicate OneAtATime(e: Engine) {
    && e.sched == HostFgoShare && e.proc.Fgo? && PeOk(e.proc.pe)
    && (if e.fgoState == PimInFlight then e.mode == ServePim && InFlight(e.proc.pe)
        else !PeBusy(e.proc.pe) && !e.proc.pe.finished)
    && HostBusy(e) <= 1
    && (e.fgoState == HostInFlight ==> e.mode == ServeHost)
    && (e.fgoState != HostInFlight ==> HostBusy(e) == 0)
    && (e.fgoNext == ServePim || e.fgoNext == ServeHost)
  }

  // ---- one tick of the PE ----

  /** The instruction is fetched, waits, or finishes. */
  lemma PeFlight(p: P.Pe, port: Portal)
    requires PeOk(p) && InFlight(p)
    ensures var p' := P.Tick(p, port).0;
            PeOk(p') && (if p'.finished then !PeBusy(p') else InFlight(p'))
  {
    hide P.AluComp; hide FlatMemory.ReadV; hide FlatMemory.ReadS; hide P.ApplyAll; hide P.WbActs;
    hide P.BypassV; hide P.BypassS;
    hide P.EvalISSUE; hide FirstMatch;
    Issued(p);
  }

  lemma Issued(p: P.Pe)
    ensures var l := P.EvalISSUE(P.Peek(p), p.st.v, p.st.s);
            if P.Peek(p) == None then l == P.EMPTY_ISSUE else l.valid
  {
  }

  // ---- one tick of the engine ----

  lemma HostsSum(s: seq<DramReq>, t: seq<DramReq>)
    ensures Hosts(s + t) == Hosts(s) + Hosts(t)
  {
    EngineConservation.HostPartSum(s, t);
  }

  lemma HostsOne(q: DramReq)
    ensures Hosts([q]) == if q.isPim then 0 else 1
  {
    assert [q][1..] == [];
    EngineConservation.HostPartFirst([q]);
    EngineConservation.NoHostPart();
  }

  lemma {:induction false} HostsIsTotal(s: seq<DramReq>, w: DramReq -> nat)
    requires forall q :: w(q) == Hosts([q])
    ensures Hosts(s) == Tally.Total(w, s)
  {
    if s == [] {
      EngineConservation.NoHostPart();
    } else {
      hide Hosts;
      HostsIsTotal(s[1..], w);
      assert s == [s[0]] + s[1..];
      HostsSum([s[0]], s[1..]);
    }
  }

  lemma HostsPermuted(s: seq<DramReq>, t: seq<DramReq>)
    requires multiset(s) == multiset(t)
    ensures Hosts(s) == Hosts(t)
  {
    hide Hosts;
    var w := (q: DramReq) => Hosts([q]);
    HostsIsTotal(s, w);
    HostsIsTotal(t, w);
    Tally.TotalPermuted(w, s, t);
  }

  lemma {:induction false} DrainBusy(p: Portal, d: Dram, clock: nat, quota: nat)
    requires Sides(p, d)
    ensures var (p', d') := DrainPort(p, d, clock, quota);
            |p'.hostReq| + Hosts(d'.pending) == |p.hostReq| + Hosts(d.pending)
    decreases quota
  {
    hide Hosts;
    var (q, p1) := p.GetOne();
    if q.Some? {
      assert q.value in p.pimReq || q.value in p.hostReq;
      if quota > 0 {
        var stamped := Stamped(q.value, d.nextId, clock);
        HostsSum(d.pending, [stamped]);
        HostsOne(stamped);
        EngineConservation.GetKeepsSides(p, d, clock);
        if p.mode == HOST {
          assert q.value in p.hostReq;
        } else {
          assert q.value in p.pimReq;
        }
        DrainBusy(p1, Dram(d.pending + [stamped], d.nextId + 1, d.pimMode), clock, quota - 1);
      } else if p.mode == HOST {
        assert q.value in p.hostReq;
      } else {
        assert q.value in p.pimReq;
      }
    }
  }

  /** The engine right before it schedules. */
  ghost function Serviced(phys: AddrMap, e: Engine, env: Env): Engine
    requires Compatible(e.proc, e.sched)
  {
    Collect(phys, Offered(e, env), env.completions)
  }

  /** Before scheduling an instruction in flight may just have finished, and completions only reduce what
      the host has in the DRAM. */
  ghost predicate AlmostOne(e: Engine) {
    && e.sched == HostFgoShare && e.proc.Fgo? && PeOk(e.proc.pe)
    && (if e.fgoState == PimInFlight then
          e.mode == ServePim && (if e.proc.pe.finished then !PeBusy(e.proc.pe) else InFlight(e.proc.pe))
        else !PeBusy(e.proc.pe) && !e.proc.pe.finished)
    && HostBusy(e) <= 1
    && (e.fgoState == HostInFlight ==> e.mode == ServeHost)
    && (e.fgoState != HostInFlight ==> HostBusy(e) == 0)
    && (e.fgoNext == ServePim || e.fgoNext == ServeHost)
  }

  lemma ServiceKeeps(phys: AddrMap, e: Engine, env: Env)
    requires Exclusive(e) && OneAtATime(e) && Legal(phys, e, env)
    ensures var e' := Serviced(phys, e, env);
            && AlmostOne(e') && BeforeSchedule(e') && Compatible(e'.proc, e'.sched)
            && e'.hostPool == e.hostPool && e'.mode == e.mode && e'.fgoState == e.fgoState && e'.fgoNext == e.fgoNext
            && e'.lastService == e.lastService
            && (e.fgoState != PimInFlight ==> e'.proc.pe.imem == e.proc.pe.imem)
  {
    hide P.Tick; hide DrainPort; hide Outstanding; hide Complete; hide CompleteAll; hide InFlight; hide PeOk;
    hide Hosts;
    hide ProcInBank; hide Sides; hide PortOnly;
    ProcTick(e);
    if e.fgoState == PimInFlight {
      PeFlight(e.proc.pe, e.portal);
    }
    var e1 := TickProc(e);
    PortKeepsSides(e.portal, e1.portal, e.dram);
    OnlyPort(e.portal, e1.portal);
    DrainBusy(e1.portal, e1.dram, e.clock, env.quota);
    OfferedKeeps(e, env);
    var e2 := Offered(e, env);
    CollectKeeps(phys, e2, env.completions);
    PanicsExactly(phys, e2.dram.pending, env.completions);
    var (done, left) := Complete(phys, e2.dram.pending, env.completions).value;
    assert multiset(done + left) == multiset(e2.dram.pending);
    HostsPermuted(done + left, e2.dram.pending);
    HostsSum(done, left);
    ClearedCompleted(e2);
  }

  lemma OnlyPort(p: Portal, p': Portal)
    requires PortOnly(p, p')
    ensures p'.hostReq == p.hostReq && p'.mode == p.mode
  {
  }

  lemma ClearedCompleted(e: Engine)
    requires e.proc.Fgo?
    ensures var pe' := e.proc.pe.(completed := []);
            PeOk(pe') == PeOk(e.proc.pe) && InFlight(pe') == InFlight(e.proc.pe)
  {
  }

  // ---- who waits, and for how many ----

  /** An instruction finishes in this tick; the scheduler notices it. */
  ghost predicate PimCompletes(e1: Engine) {
    e1.mode == ServePim && e1.fgoState == PimInFlight && e1.proc.Fgo? && e1.proc.pe.finished
  }

  ghost predicate HostCompletes(e1: Engine, idle: bool) {
    e1.mode == ServeHost && e1.fgoState == HostInFlight && Drained(e1, HOST, idle)
  }

  /** The oldest host request goes to the portal. */
  ghost predicate HostIssues(e1: Engine, e2: Engine) {
    e2.hostPool != e1.hostPool
  }

  ghost predicate PimIssues(e1: Engine, e2: Engine) {
    e1.proc.Fgo? && e2.proc.Fgo? && e2.proc.pe.allowed && !e1.proc.pe.allowed
  }

  /** `hostDebt`: instructions that completed while host requests were waiting, since the last host issue;
      `pimDebt` the other way round; and the host requests issued so far. */
  datatype Fair = Fair(hostDebt: nat, pimDebt: nat, issued: seq<DramReq>)

  ghost function Charge(e1: Engine, e2: Engine, idle: bool, f: Fair): Fair {
    Fair(if HostIssues(e1, e2) then 0 else if PimCompletes(e1) && e1.hostPool != [] then f.hostDebt + 1 else f.hostDebt,
         if PimIssues(e1, e2) then 0 else if HostCompletes(e1, idle) && PimReady(e1) then f.pimDebt + 1 else f.pimDebt,
         if HostIssues(e1, e2) && e1.hostPool != [] then f.issued + [e1.hostPool[0]] else f.issued)
  }

  /** A side that has been passed over once is served next: the engine is idle, or on its way there. */
  ghost predicate DebtsOk(e: Engine, f: Fair) {
    && f.hostDebt <= 1 && f.pimDebt <= 1
    && (f.hostDebt == 1 ==>
          && e.hostPool != [] && e.fgoNext == ServeHost && e.fgoState == Idle
          && ((e.mode == SwitchDelay && e.lastService == ServePim) || e.mode == ServeHost))
    && (f.pimDebt == 1 ==>
          && PimReady(e) && e.fgoNext == ServePim && e.fgoState == Idle
          && ((e.mode == SwitchDelay && e.lastService == ServeHost) || e.mode == ServePim))
  }

  lemma SelectPim(e: Engine, idle: bool)
    requires AlmostOne(e) && e.mode == ServePim && e.fgoState == Idle && e.next == e.mode && !e.proc.pe.finished
    ensures var e2 := SelectInPim(e, idle);
            OneAtATime(e2.(mode := e2.next)) && e2.hostPool == e.hostPool && e2.fgoNext == e.fgoNext
            && (PimReady(e) && (e.fgoNext == ServePim || e.hostPool == []) ==>
                  e2.fgoState == PimInFlight && e2.proc.pe.allowed)
            && (e.hostPool != [] && e.fgoNext == ServeHost ==>
                  e2.next == SwitchDelay && e2.lastService == ServePim && e2.fgoState == Idle && e2.proc == e.proc)
  {
    hide Hosts;
  }

  lemma SelectHost(e: Engine, idle: bool)
    requires AlmostOne(e) && e.mode == ServeHost && e.fgoState == Idle && e.next == e.mode && NonePim(e.hostPool)
    ensures var e2 := SelectInHost(e, idle);
            OneAtATime(e2.(mode := e2.next)) && e2.fgoNext == e.fgoNext && e2.proc == e.proc
            && (e.hostPool != [] && (e.fgoNext == ServeHost || !PimReady(e)) ==>
                  e2.hostPool == e.hostPool[1..] && e2.fgoState == HostInFlight)
            && (PimReady(e) && e.fgoNext == ServePim ==>
                  e2.next == SwitchDelay && e2.lastService == ServeHost && e2.fgoState == Idle
                        && e2.hostPool == e.hostPool)
            && (e2.hostPool == e.hostPool || (e.hostPool != [] && e2.hostPool == e.hostPool[1..]))
  {
    hide Hosts; hide PeOk; hide InFlight;
    if e.hostPool != [] {
      assert e.hostPool[0] in e.hostPool;
    }
  }

  lemma DelayStep(e: Engine, idle: bool)
    requires AlmostOne(e) && e.mode == SwitchDelay && e.next == e.mode && e.lastService != SwitchDelay
    ensures var e2 := Switch(e, SwitchDelay, idle);
            && OneAtATime(e2.(mode := e2.next)) && e2.hostPool == e.hostPool && e2.fgoNext == e.fgoNext
            && e2.fgoState == e.fgoState && e2.proc == e.proc && e2.lastService == e.lastService
            && (e2.next == SwitchDelay || e2.next == (if e.lastService == ServePim then ServeHost else ServePim))
  {
    hide Hosts; hide PeOk; hide InFlight; hide SwitchDone;
  }

  /** The scheduler keeps service exclusive and pays its debts. */
  lemma ScheduleFair(e: Engine, idle: bool, f: Fair)
    requires AlmostOne(e) && BeforeSchedule(e) && DebtsOk(e, f)
    ensures var e2 := Schedule(e, idle);
            && OneAtATime(e2.(mode := e2.next)) && DebtsOk(e2.(mode := e2.next), Charge(e, e2, idle, f))
            && (e2.hostPool == e.hostPool || (e.hostPool != [] && e2.hostPool == e.hostPool[1..]))
  {
    hide Sides; hide ProcInBank; hide PeOk; hide SelectInPim; hide SelectInHost; hide Switch; hide Hosts; hide HostBusy;
    match e.mode
    case SwitchDelay => DelayStep(e, idle);
    case ServePim =>
      var e1 := NoticePim(e);
      NoticedPim(e);
      if e1.fgoState == Idle {
        SelectPim(e1, idle);
      }
    case ServeHost =>
      var e1 := NoticeHost(e, idle);
      NoticedHost(e, idle);
      if e1.fgoState == Idle {
        SelectHost(e1, idle);
      }
  }

  lemma NoticedPim(e: Engine)
    requires AlmostOne(e) && e.mode == ServePim
    ensures var e1 := NoticePim(e);
            && AlmostOne(e1) && !e1.proc.pe.finished && (e1.fgoState == PimInFlight ==> OneAtATime(e1))
  {
    hide Hosts;
  }

  lemma NoticedHost(e: Engine, idle: bool)
    requires AlmostOne(e) && e.mode == ServeHost
    ensures AlmostOne(NoticeHost(e, idle))
    ensures NoticeHost(e, idle).fgoState != Idle ==> OneAtATime(NoticeHost(e, idle))
  {
    hide PeOk; hide InFlight;
    assert e.dram.pending == [] ==> Hosts(e.dram.pending) == 0;
  }

  // ---- runs ----

  datatype Trace = Trace(evs: seq<Event>, states: seq<RunState>, fair: seq<Fair>)

  ghost function FairOne(phys: AddrMap, s: RunState, ev: Event, f: Fair): Fair
    requires Allowed(phys, s.engine, ev)
  {
    if ev.TickEv? then
      var e1 := Serviced(phys, s.engine, ev.env);
      Charge(e1, Tick(phys, s.engine, ev.env), ev.env.idle, f)
    else f
  }

  ghost predicate Linked(phys: AddrMap, r: Trace, i: nat)
    requires i < |r.evs| && |r.states| == |r.evs| + 1 && |r.fair| == |r.evs| + 1
  {
    && Allowed(phys, r.states[i].engine, r.evs[i]) && !r.evs[i].Configure?
    && r.states[i + 1] == RunOne(phys, r.states[i], r.evs[i])
    && r.fair[i + 1] == FairOne(phys, r.states[i], r.evs[i], r.fair[i])
  }

  /** A PE engine configured to share with the host. */
  ghost predicate IsRun(phys: AddrMap, r: Trace) {
    && |r.states| == |r.evs| + 1 && |r.fair| == |r.evs| + 1
    && r.states[0] == RunState(SetScheduling(NewEngine(Fgo(P.NewPe())), HostFgoShare).1, [], [])
    && r.fair[0] == Fair(0, 0, [])
    && forall i: nat :: i < |r.evs| ==> Linked(phys, r, i)
  }

  /** The memory requests among the events, in the order the host enqueued them. */
  function MemSent(evs: seq<Event>): seq<DramReq> {
    if evs == [] then []
    else MemSent(evs[..|evs| - 1]) + (if evs[|evs| - 1].HostMem? then [evs[|evs| - 1].req] else [])
  }

  ghost predicate FairOk(e: Engine, f: Fair, sent: seq<DramReq>) {
    Exclusive(e) && OneAtATime(e) && DebtsOk(e, f) && f.issued + e.hostPool == sent
  }

  lemma TickFair(phys: AddrMap, e: Engine, env: Env, f: Fair, sent: seq<DramReq>)
    requires FairOk(e, f, sent) && Legal(phys, e, env)
    ensures var e' := Tick(phys, e, env);
            FairOk(e', Charge(Serviced(phys, e, env), e', env.idle, f), sent)
  {
    hide Serviced; hide Schedule; hide AlmostOne; hide BeforeSchedule; hide OneAtATime; hide Exclusive; hide Sides;
    hide Legal; hide DebtsOk; hide Charge; hide Compatible; hide Tick;
    ExclusiveSched(e);
    ServiceKeeps(phys, e, env);
    var e1 := Serviced(phys, e, env);
    SameDebts(e, e1, f);
    TickIsExclusive(phys, e, env);
    ScheduleFair(e1, env.idle, f);
    TickIsSchedule(phys, e, env);
    var e2 := Schedule(e1, env.idle);
    ChargeSame(e1, e2, Tick(phys, e, env), env.idle, f);
    OneKeepsClock(e2);
    IssuedInOrder(e1, e2, env.idle, f);
  }

  lemma IssuedInOrder(e1: Engine, e2: Engine, idle: bool, f: Fair)
    requires e2.hostPool == e1.hostPool || (e1.hostPool != [] && e2.hostPool == e1.hostPool[1..])
    ensures Charge(e1, e2, idle, f).issued + e2.hostPool == f.issued + e1.hostPool
  {
    hide PimCompletes; hide HostCompletes; hide PimReady; hide PimIssues;
    if HostIssues(e1, e2) {
      assert f.issued + e1.hostPool == (f.issued + [e1.hostPool[0]]) + e1.hostPool[1..];
    }
  }

  lemma ExclusiveSched(e: Engine)
    requires OneAtATime(e)
    ensures e.sched == HostFgoShare && Compatible(e.proc, e.sched)
  {
  }

  lemma TickIsSchedule(phys: AddrMap, e: Engine, env: Env)
    requires Compatible(e.proc, e.sched) && Compatible(Serviced(phys, e, env).proc, Serviced(phys, e, env).sched)
    ensures var e2 := Schedule(Serviced(phys, e, env), env.idle);
            Tick(phys, e, env) == e2.(mode := e2.next, clock := e2.clock + 1)
  {
    hide Schedule; hide Collect; hide Offered;
  }

  lemma OneKeepsClock(e2: Engine)
    ensures OneAtATime(e2.(mode := e2.next)) ==> OneAtATime(e2.(mode := e2.next, clock := e2.clock + 1))
    ensures forall f :: DebtsOk(e2.(mode := e2.next), f) ==> DebtsOk(e2.(mode := e2.next, clock := e2.clock + 1), f)
  {
    hide Hosts; hide PeOk; hide InFlight;
  }

  lemma SameDebts(e: Engine, e1: Engine, f: Fair)
    requires DebtsOk(e, f) && AlmostOne(e1) && OneAtATime(e)
    requires e1.hostPool == e.hostPool && e1.mode == e.mode && e1.fgoState == e.fgoState && e1.fgoNext == e.fgoNext
    requires e1.lastService == e.lastService && (e.fgoState != PimInFlight ==> e1.proc.pe.imem == e.proc.pe.imem)
    ensures DebtsOk(e1, f)
  {
    hide Hosts; hide PeOk; hide InFlight;
  }

  lemma ChargeSame(e1: Engine, e2: Engine, e': Engine, idle: bool, f: Fair)
    requires e' == e2.(mode := e'.mode, clock := e'.clock)
    ensures Charge(e1, e', idle, f) == Charge(e1, e2, idle, f)
  {
  }

  lemma HostEventsFair(phys: AddrMap, s: RunState, ev: Event, f: Fair, sent: seq<DramReq>)
    requires FairOk(s.engine, f, sent) && Allowed(phys, s.engine, ev) && !ev.TickEv? && !ev.Configure?
    ensures FairOk(RunOne(phys, s, ev).engine, f, sent + if ev.HostMem? then [ev.req] else [])
  {
    hide Exclusive; hide Hosts; hide Legal; hide EngineNumbers.IsFresh; hide JobInBank;
    HostKeepsExclusive(phys, s.engine, ev);
    SameEngine(phys, s, ev);
    if ev.HostMem? {
      assert f.issued + (s.engine.hostPool + [ev.req]) == (f.issued + s.engine.hostPool) + [ev.req];
    } else {
      assert sent + [] == sent;
    }
  }

  /** The fairness theorem. In every reachable state of an engine shared by PE and host: at most one
      request is served at a time; the host's requests are issued in the order it sent them; and while
      one side waits, at most one request of the other side completes before it is served. */
  lemma {:induction false} ShareIsFair(phys: AddrMap, r: Trace, n: nat)
    requires IsRun(phys, r) && n <= |r.evs|
    ensures var e, f := r.states[n].engine, r.fair[n];
            && OneAtATime(e) && !(HostBusy(e) > 0 && PeBusy(e.proc.pe))
            && f.issued + e.hostPool == MemSent(r.evs[..n])
            && f.hostDebt <= 1 && f.pimDebt <= 1
    ensures FairOk(r.states[n].engine, r.fair[n], MemSent(r.evs[..n]))
  {
    hide FairOk; hide RunOne; hide Allowed; hide FairOne; hide Hosts;
    if n == 0 {
      StartFair();
    } else {
      ShareIsFair(phys, r, n - 1);
      assert Linked(phys, r, n - 1);
      assert r.evs[..n][..n - 1] == r.evs[..n - 1];
      OneFair(phys, r.states[n - 1], r.evs[n - 1], r.fair[n - 1], MemSent(r.evs[..n - 1]));
    }
    UnpackFair(r.states[n].engine, r.fair[n], MemSent(r.evs[..n]));
  }

  lemma UnpackFair(e: Engine, f: Fair, sent: seq<DramReq>)
    requires FairOk(e, f, sent)
    ensures OneAtATime(e) && !(HostBusy(e) > 0 && PeBusy(e.proc.pe))
    ensures f.issued + e.hostPool == sent && f.hostDebt <= 1 && f.pimDebt <= 1
  {
    hide Hosts; hide PeOk; hide Exclusive;
  }

  lemma OneFair(phys: AddrMap, s: RunState, ev: Event, f: Fair, sent: seq<DramReq>)
    requires FairOk(s.engine, f, sent) && Allowed(phys, s.engine, ev) && !ev.Configure?
    ensures FairOk(RunOne(phys, s, ev).engine, FairOne(phys, s, ev, f), sent + if ev.HostMem? then [ev.req] else [])
  {
    hide FairOk; hide Tick; hide Serviced; hide Charge; hide Legal;
    if ev.TickEv? {
      TickFair(phys, s.engine, ev.env, f, sent);
      assert sent + [] == sent;
    } else {
      HostEventsFair(phys, s, ev, f, sent);
    }
  }

  lemma StartFair()
    ensures FairOk(SetScheduling(NewEngine(Fgo(P.NewPe())), HostFgoShare).1, Fair(0, 0, []), MemSent([]))
  {
    var e := NewEngine(Fgo(P.NewPe()));
    assert Exclusive(e);
    HostIsExclusive(e, NewReq(0, true, true), HostFgoShare, NoJob(), StartCmd);
  }
}
