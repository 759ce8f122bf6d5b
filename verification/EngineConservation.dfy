/** No host request is lost or duplicated inside an engine, and every request is numbered once. */
module EngineConservation {
  import opened Words
  import opened DramPortals
  import opened DramWrappers
  import opened EngineSpec
  import opened EngineProcessors
  import opened EngineExclusive
  import opened RequestRouter
  import B = BootFsm
  import P = PePipeline
  import T = PeTypes
  import S = Scoreboard
  import CpuPipeline
  import Tally

  // ---- counting requests, up to the number, the time and the answer word they receive ----

  function Strip(q: DramReq): DramReq {
    q.(id := None, issueTime := None, payload := q.payload[0 := 0])
  }

  /** What to look for: a request as the host made it, the copies of a broadcast command, those of them
      that are queries, or a command without a number. */
  datatype Mark = Key(req: DramReq) | Copy(id: nat) | QueryCopy(id: nat) | Stray

  predicate Hit(x: Mark, q: DramReq) {
    match x
    case Key(req) => Strip(q) == req
    case Copy(id) => IsBroadcast(q.addr) && q.id == Some(id)
    case QueryCopy(id) => KindOf(q.addr) == CgoQuery && q.id == Some(id)
    case Stray => IsBroadcast(q.addr) && q.id == None
  }

  function Count(s: seq<DramReq>, x: Mark): nat {
    if s == [] then 0 else (if Hit(x, s[0]) then 1 else 0) + Count(s[1..], x)
  }

  /** Requests on their way to the DRAM are no commands. */
  predicate NoCommand(s: seq<DramReq>) {
    forall q :: q in s ==> !IsBroadcast(q.addr)
  }

  function HostPart(s: seq<DramReq>): seq<DramReq> {
    if s == [] then [] else (if s[0].isPim then [] else [s[0]]) + HostPart(s[1..])
  }

  lemma {:induction false} CountSum(s: seq<DramReq>, t: seq<DramReq>, x: Mark)
    ensures Count(s + t, x) == Count(s, x) + Count(t, x)
  {
    if s == [] {
      assert s + t == t;
    } else {
      CountSum(s[1..], t, x);
      assert (s + t)[1..] == s[1..] + t;
    }
  }

  lemma CountOne(q: DramReq, x: Mark)
    ensures Count([q], x) == if Hit(x, q) then 1 else 0
  {
    assert [q][1..] == [];
  }

  lemma CountLast(s: seq<DramReq>, x: Mark)
    requires s != []
    ensures Count(s, x) == Count(s[..|s| - 1], x) + (if Hit(x, s[|s| - 1]) then 1 else 0)
  {
    assert s == s[..|s| - 1] + [s[|s| - 1]];
    CountSum(s[..|s| - 1], [s[|s| - 1]], x);
    CountOne(s[|s| - 1], x);
  }

  lemma CountFirst(s: seq<DramReq>, n: nat, x: Mark)
    requires n <= |s|
    ensures Count(s, x) == Count(s[..n], x) + Count(s[n..], x)
  {
    assert s == s[..n] + s[n..];
    CountSum(s[..n], s[n..], x);
  }

  lemma {:induction false} CountReversed(s: seq<DramReq>, x: Mark)
    ensures Count(B.Reversed(s), x) == Count(s, x)
  {
    if s != [] {
      CountReversed(s[1..], x);
      CountSum(B.Reversed(s[1..]), [s[0]], x);
      CountOne(s[0], x);
    }
  }

  lemma {:induction false} HostPartSum(s: seq<DramReq>, t: seq<DramReq>)
    ensures HostPart(s + t) == HostPart(s) + HostPart(t)
  {
    hide HostPart;
    if s == [] {
      assert s + t == t;
      NoHostPart();
    } else {
      HostPartSum(s[1..], t);
      HostPartFirst(s);
      HostPartFirst(s + t);
      assert (s + t)[1..] == s[1..] + t;
    }
  }

  lemma NoHostPart()
    ensures HostPart([]) == []
  {
  }

  lemma HostPartFirst(s: seq<DramReq>)
    requires s != []
    ensures HostPart(s) == (if s[0].isPim then [] else [s[0]]) + HostPart(s[1..])
  {
  }

  function HostCount(s: seq<DramReq>, x: Mark): nat {
    Count(HostPart(s), x)
  }

  lemma HostCountSum(s: seq<DramReq>, t: seq<DramReq>, x: Mark)
    ensures HostCount(s + t, x) == HostCount(s, x) + HostCount(t, x)
  {
    HostPartSum(s, t);
    CountSum(HostPart(s), HostPart(t), x);
  }

  lemma HostCountOne(q: DramReq, x: Mark)
    ensures HostCount([q], x) == if !q.isPim && Hit(x, q) then 1 else 0
  {
    assert [q][1..] == [];
    assert HostPart([q]) == if q.isPim then [] else [q];
    CountOne(q, x);
  }

  lemma {:induction false} HostCountIsTotal(s: seq<DramReq>, x: Mark, w: DramReq -> nat)
    requires forall q :: w(q) == HostCount([q], x)
    ensures HostCount(s, x) == Tally.Total(w, s)
  {
    hide HostCount;
    if s == [] {
      NothingInHostPart(x);
    } else {
      HostCountIsTotal(s[1..], x, w);
      assert s == [s[0]] + s[1..];
      HostCountSum([s[0]], s[1..], x);
    }
  }

  lemma NothingInHostPart(x: Mark)
    ensures HostCount([], x) == 0
  {
  }

  /** Counting does not depend on the order. */
  lemma HostCountPermuted(s: seq<DramReq>, t: seq<DramReq>, x: Mark)
    requires multiset(s) == multiset(t)
    ensures HostCount(s, x) == HostCount(t, x)
  {
    hide HostCount;
    var w := (q: DramReq) => HostCount([q], x);
    HostCountIsTotal(s, x, w);
    HostCountIsTotal(t, x, w);
    Tally.TotalPermuted(w, s, t);
  }

  // ---- where a host request can be ----

  function CmdReqs(q: seq<(CgoCmd, DramReq)>): seq<DramReq> {
    if q == [] then [] else [q[0].1] + CmdReqs(q[1..])
  }

  function JobReqs(q: seq<P.Job>): seq<DramReq> {
    if q == [] then [] else OptReq(q[0].req) + JobReqs(q[1..])
  }

  function OptReq(q: Option<DramReq>): seq<DramReq> {
    if q.Some? then [q.value] else []
  }

  function PeReqs(p: P.Pe): seq<DramReq> {
    JobReqs(p.imem) + OptReq(p.latch.simReq) + p.completed
  }

  function ProcReqs(p: Processor): seq<DramReq> {
    if p.Fgo? then PeReqs(p.pe) else []
  }

  /** How often the host request `x` is in the engine: waiting, in the portal, in the DRAM, answered,
      a command, a PE instruction, or ready to be taken. */
  function InEngine(e: Engine, x: Mark): nat {
    Count(e.hostPool, x) + Count(e.portal.hostReq, x) + HostCount(e.dram.pending, x) + Count(e.portal.hostResp, x)
    + Count(e.hostDone, x) + Count(CmdReqs(e.cmdQueue), x) + Count(e.cmdDone, x) + Count(ProcReqs(e.proc), x)
  }

  // ---- the parts of a tick ----

  /** The stop machine holds both stages, holds ISSUE while EX commits, or holds nothing. */
  lemma StopShapes(stop: P.Stop, r: S.Reason, port: Portal)
    ensures var (ops, _, _) := P.StopDecision(stop, r, port);
            var op := CpuPipeline.StageOp(ops.issue, ops.ex);
            || (!ops.ex.Normal? && op == S.Stall) || (ops.ex.Normal? && op == S.Flush)
            || (ops.ex.Normal? && op == S.Normal)
  {
    hide P.AdvanceStop;
  }

  lemma PeTickCounts(p: P.Pe, port: Portal, x: Mark)
    ensures Count(PeReqs(P.Tick(p, port).0), x) == Count(PeReqs(p), x)
  {
    hide P.EvalEX; hide P.StopDecision; hide P.ApplyAll; hide Hit; hide P.EvalISSUE; hide CpuPipeline.StageOp;
    hide PeReqs;
    hide Count;
    var p' := P.Tick(p, port).0;
    StopShapes(p.stop, P.EvalEX(p.latch, p.fwd, p.st.mem).reason, port);
    IssueCarries(p.st.v, p.st.s);
    PeCounts(p, x);
    PeCounts(p', x);
    CountSum(p.completed, OptReq(p.latch.simReq), x);
    if p.imem != [] {
      CountSum(OptReq(p.imem[0].req), JobReqs(p.imem[1..]), x);
    }
    assert p.completed + [] == p.completed;
    NothingCounted(x);
  }

  lemma NothingCounted(x: Mark)
    ensures Count([], x) == 0
  {
  }

  lemma PeCounts(p: P.Pe, x: Mark)
    ensures Count(PeReqs(p), x) == Count(JobReqs(p.imem), x) + Count(OptReq(p.latch.simReq), x) + Count(p.completed, x)
  {
    CountSum(JobReqs(p.imem) + OptReq(p.latch.simReq), p.completed, x);
    CountSum(JobReqs(p.imem), OptReq(p.latch.simReq), x);
  }

  lemma IssueCarries(v: T.VFile, s: T.SFile)
    ensures forall j :: P.EvalISSUE(Some(j), v, s).simReq == j.req
    ensures P.EvalISSUE(None, v, s).simReq == None
  {
  }

  lemma ProcTickCounts(e: Engine, x: Mark)
    requires Compatible(e.proc, e.sched) && ProcInBank(e.proc)
    ensures Count(ProcReqs(TickProc(e).proc), x) == Count(ProcReqs(e.proc), x)
  {
    hide P.Tick; hide CpuPipeline.Tick; hide B.BootTick; hide Hit; hide PeReqs; hide ProcInBank;
    ProcTick(e);
    if e.proc.Fgo? {
      PeTickCounts(e.proc.pe, e.portal, x);
    }
  }

  lemma AnsweredCounts(e: Engine, cmd: CgoCmd, req: DramReq)
    requires e.proc.Cgo?
    ensures Strip(Answered(e, cmd, req)) == Strip(req) && Answered(e, cmd, req).id == req.id
  {
    var w: u64 := if e.proc.cpu.finished then 1 else 0;
    assert req.payload[0 := w][0 := 0] == req.payload[0 := 0];
  }

  lemma CmdsCount(e: Engine, x: Mark)
    ensures var e' := ProcessCmds(e);
            Count(CmdReqs(e'.cmdQueue), x) + Count(e'.cmdDone, x) == Count(CmdReqs(e.cmdQueue), x) + Count(e.cmdDone, x)
    decreases |e.cmdQueue|
  {
    if e.proc.Cgo? && e.cmdQueue != [] {
      var (cmd, req) := e.cmdQueue[0];
      var e1 := e.(cmdQueue := e.cmdQueue[1..]);
      CmdsCount(DoCommand(e1, cmd, req), x);
      AnsweredCounts(e1, cmd, req);
      CountSum(e.cmdDone, [Answered(e1, cmd, req)], x);
      CountOne(Answered(e1, cmd, req), x);
      CountSum([req], CmdReqs(e.cmdQueue[1..]), x);
      CountOne(req, x);
      hide Hit;
    }
  }

  lemma {:induction false} DrainCounts(p: Portal, d: Dram, clock: nat, quota: nat, x: Mark)
    requires Sides(p, d) && (!x.Key? ==> NoCommand(p.hostReq))
    ensures var (p', d') := DrainPort(p, d, clock, quota);
            && Count(p'.hostReq, x) + HostCount(d'.pending, x) == Count(p.hostReq, x) + HostCount(d.pending, x)
            && p' == p.(pimReq := p'.pimReq, hostReq := p'.hostReq)
    decreases quota
  {
    hide HostCount;
    var (q, p1) := p.GetOne();
    if q.Some? && quota > 0 {
      var top := q.value;
      var stamped := Stamped(top, d.nextId, clock);
      var d1 := Dram(d.pending + [stamped], d.nextId + 1, d.pimMode);
      HostCountSum(d.pending, [stamped], x);
      HostCountOne(stamped, x);
      if p.mode == HOST {
        CountLast(p.hostReq, x);
        assert top in p.hostReq;
      } else {
        assert top in p.pimReq;
      }
      GetKeepsSides(p, d, clock);
      DrainCounts(p1, d1, clock, quota - 1, x);
    } else if q.Some? {
      if p.mode == HOST {
        assert q.value in p.hostReq;
        assert p1.hostReq + [q.value] == p.hostReq;
      } else {
        assert q.value in p.pimReq;
      }
    }
  }

  lemma GetKeepsSides(p: Portal, d: Dram, clock: nat)
    requires Sides(p, d) && p.GetOne().0.Some?
    ensures var (q, p1) := p.GetOne();
            Sides(p1, Dram(d.pending + [Stamped(q.value, d.nextId, clock)], d.nextId + 1, d.pimMode))
  {
    var (q, p1) := p.GetOne();
    if p.mode == PIM {
      assert q.value in p.pimReq;
      forall r | r in p1.pimReq ensures r in p.pimReq {}
    } else {
      assert q.value in p.hostReq;
      forall r | r in p1.hostReq ensures r in p.hostReq {}
    }
  }

  lemma {:induction false} CompleteCounts(p: Portal, reqs: seq<DramReq>, x: Mark)
    ensures Count(CompleteAll(p, reqs).hostResp, x) == Count(p.hostResp, x) + HostCount(reqs, x)
  {
    hide HostCount;
    if reqs == [] {
      HostCountNone(x);
    } else {
      var n := |reqs| - 1;
      CompleteCounts(p, reqs[..n], x);
      assert reqs == reqs[..n] + [reqs[n]];
      HostCountSum(reqs[..n], [reqs[n]], x);
      HostCountOne(reqs[n], x);
      CountSum(CompleteAll(p, reqs[..n]).hostResp, [reqs[n]], x);
      CountOne(reqs[n], x);
    }
  }

  lemma HostCountNone(x: Mark)
    ensures HostCount([], x) == 0
  {
  }

  lemma CollectCounts(phys: AddrMap, e: Engine, cs: seq<Completion>, x: Mark)
    requires multiset(cs) <= Outstanding(phys, e.dram.pending) && Sides(e.portal, e.dram) && ProcInBank(e.proc)
    ensures InEngine(Collect(phys, e, cs), x) == InEngine(e, x)
  {
    hide HostCount; hide Count; hide Outstanding; hide ProcInBank; hide Sides; hide Complete; hide CompleteAll;
    CollectKeeps(phys, e, cs);
    PanicsExactly(phys, e.dram.pending, cs);
    var (done, left) := Complete(phys, e.dram.pending, cs).value;
    assert multiset(done + left) == multiset(e.dram.pending);
    HostCountPermuted(done + left, e.dram.pending, x);
    HostCountSum(done, left, x);
    CompleteCounts(e.portal, done, x);
    CompleteKeepsStacks(e.portal, done);
    var e1 := e.(portal := CompleteAll(e.portal, done), dram := e.dram.(pending := left));
    CompletionsCount(e1, x);
  }

  lemma CompletionsCount(e: Engine, x: Mark)
    ensures InEngine(DrainCompletions(e), x) == InEngine(e, x)
  {
    hide HostCount; hide Hit;
    var jobs := if e.proc.Fgo? then e.proc.pe.completed else [];
    CountSum(e.hostDone + e.cmdDone + jobs, B.Reversed(e.portal.hostResp), x);
    CountSum(e.hostDone + e.cmdDone, jobs, x);
    CountSum(e.hostDone, e.cmdDone, x);
    CountReversed(e.portal.hostResp, x);
    if e.proc.Fgo? {
      PeCounts(e.proc.pe, x);
      PeCounts(e.proc.pe.(completed := []), x);
    }
  }

  /** What scheduling may do to the host's requests: move some from the pool to the portal. */
  ghost predicate PoolToPortal(e: Engine, e': Engine) {
    && e'.dram.pending == e.dram.pending && e'.portal.hostResp == e.portal.hostResp && e'.hostDone == e.hostDone
    && e'.cmdQueue == e.cmdQueue && e'.cmdDone == e.cmdDone && ProcReqs(e'.proc) == ProcReqs(e.proc)
    && e'.portal.pimReq == e.portal.pimReq && e'.dram.nextId == e.dram.nextId
    && exists n: nat :: n <= |e.hostPool| && e'.hostPool == e.hostPool[n..]
         && (e'.portal.hostReq == e.portal.hostReq + e.hostPool[..n] ||
             e'.portal.hostReq == e.portal.hostReq + B.Reversed(e.hostPool[..n]))
  }

  lemma Moved(e: Engine, e': Engine, n: nat)
    requires e'.dram.pending == e.dram.pending && e'.portal.hostResp == e.portal.hostResp && e'.hostDone == e.hostDone
    requires e'.cmdQueue == e.cmdQueue && e'.cmdDone == e.cmdDone && ProcReqs(e'.proc) == ProcReqs(e.proc)
    requires e'.portal.pimReq == e.portal.pimReq && e'.dram.nextId == e.dram.nextId
    requires n <= |e.hostPool| && e'.hostPool == e.hostPool[n..]
    requires e'.portal.hostReq == e.portal.hostReq + e.hostPool[..n] ||
             e'.portal.hostReq == e.portal.hostReq + B.Reversed(e.hostPool[..n])
    ensures PoolToPortal(e, e')
  {
  }

  lemma NotMoved(e: Engine, e': Engine)
    requires e'.dram.pending == e.dram.pending && e'.portal.hostResp == e.portal.hostResp && e'.hostDone == e.hostDone
    requires e'.cmdQueue == e.cmdQueue && e'.cmdDone == e.cmdDone && ProcReqs(e'.proc) == ProcReqs(e.proc)
    requires e'.portal.pimReq == e.portal.pimReq && e'.dram.nextId == e.dram.nextId
    requires e'.hostPool == e.hostPool && e'.portal.hostReq == e.portal.hostReq
    ensures PoolToPortal(e, e')
  {
    assert e.hostPool[0..] == e.hostPool && e.portal.hostReq + e.hostPool[..0] == e.portal.hostReq;
    Moved(e, e', 0);
  }

  lemma CgoMoves(e: Engine, idle: bool)
    requires e.proc.Cgo? && NonePim(e.hostPool)
    ensures PoolToPortal(e, ScheduleCgo(e, idle))
  {
    hide BatchSize; hide WantsHost; hide EngineSpec.SubmitAll; hide PoolToPortal; hide SwitchDone; hide CmdReqs;
    hide CpuPipeline.SignalPause; hide CpuPipeline.SignalResume; hide PeReqs; hide NonePim;
    var e' := ScheduleCgo(e, idle);
    if e.mode == ServeHost {
      BatchFits(e);
      var n := BatchSize(e);
      ReversedNone(e.hostPool, n);
      SubmitKeeps(e.portal, B.Reversed(e.hostPool[..n]));
      Moved(e, e', n);
    } else {
      NotMoved(e, e');
    }
  }

  lemma ScheduleMoves(e: Engine, idle: bool)
    requires BeforeSchedule(e)
    ensures PoolToPortal(e, Schedule(e, idle))
  {
    hide Sides; hide ProcInBank; hide ScheduleCgo; hide ScheduleFgo; hide EngineSpec.SubmitAll; hide PoolToPortal;
    hide PeReqs; hide NonePim; hide CmdReqs;
    var e' := Schedule(e, idle);
    match e.sched
    case HostCgoShare => CgoMoves(e, idle);
    case HostFgoShare => FgoMoves(e, idle);
    case HostOnly =>
      assert e.hostPool[..|e.hostPool|] == e.hostPool && e.hostPool[|e.hostPool|..] == [];
      ReversedNone(e.hostPool, |e.hostPool|);
      SubmitKeeps(ForceHost(e).portal, B.Reversed(e.hostPool));
      Moved(e, e', |e.hostPool|);
    case _ => NotMoved(e, e');
  }

  lemma ReversedNone(s: seq<DramReq>, n: nat)
    requires n <= |s| && NonePim(s)
    ensures NonePim(B.Reversed(s[..n]))
  {
    ReversedIn(s[..n]);
  }

  lemma SwitchMoves(e: Engine, from: Mode, idle: bool)
    ensures PoolToPortal(e, Switch(e, from, idle))
  {
    hide PoolToPortal; hide SwitchDone; hide ProcReqs; hide CmdReqs;
    NotMoved(e, Switch(e, from, idle));
  }

  lemma SelectInPimMoves(e: Engine, idle: bool)
    requires e.proc.Fgo?
    ensures PoolToPortal(e, SelectInPim(e, idle))
  {
    hide PoolToPortal; hide Switch; hide PimReady; hide P.AllowNext; hide PeReqs;
    SwitchMoves(e, ServePim, idle);
    FlagsCarry(e.proc.pe);
    NotMoved(e, e);
    NotMoved(e, IssuePim(e));
  }

  lemma SelectInHostMoves(e: Engine, idle: bool)
    requires e.proc.Fgo? && NonePim(e.hostPool)
    ensures PoolToPortal(e, SelectInHost(e, idle))
  {
    hide PoolToPortal; hide Switch; hide PimReady; hide PeReqs; hide NonePim;
    SwitchMoves(e, ServeHost, idle);
    NotMoved(e, e);
    if e.hostPool != [] {
      FirstIsHost(e.hostPool);
      assert e.hostPool[..1] == [e.hostPool[0]];
      Moved(e, IssueHost(e), 1);
    }
  }

  lemma FgoMoves(e: Engine, idle: bool)
    requires e.proc.Fgo? && NonePim(e.hostPool)
    ensures PoolToPortal(e, ScheduleFgo(e, idle))
  {
    hide PoolToPortal; hide Switch; hide Drained; hide SelectInPim; hide SelectInHost; hide PeReqs; hide P.HasFinished;
    SwitchMoves(e, SwitchDelay, idle);
    FlagsCarry(e.proc.pe);
    SelectInPimMoves(NoticePim(e), idle);
    SelectInHostMoves(NoticeHost(e, idle), idle);
    NotMoved(e, NoticePim(e));
    NotMoved(e, NoticeHost(e, idle));
    SameStart(e, NoticePim(e), SelectInPim(NoticePim(e), idle));
    SameStart(e, NoticeHost(e, idle), SelectInHost(NoticeHost(e, idle), idle));
  }

  lemma SameStart(e: Engine, e1: Engine, e': Engine)
    requires e1 == e.(proc := e1.proc, fgoState := e1.fgoState, fgoNext := e1.fgoNext)
    requires ProcReqs(e1.proc) == ProcReqs(e.proc) && PoolToPortal(e1, e')
    ensures PoolToPortal(e, e')
  {
    hide ProcReqs;
  }

  lemma FirstIsHost(s: seq<DramReq>)
    requires s != [] && NonePim(s)
    ensures !s[0].isPim
  {
  }

  lemma FlagsCarry(p: P.Pe)
    ensures PeReqs(P.AllowNext(p)) == PeReqs(p) && PeReqs(P.HasFinished(p).1) == PeReqs(p)
  {
  }

  lemma MovesCount(e: Engine, e': Engine, x: Mark)
    requires PoolToPortal(e, e')
    ensures InEngine(e', x) == InEngine(e, x)
  {
    hide HostCount; hide Hit;
    var n: nat :| n <= |e.hostPool| && e'.hostPool == e.hostPool[n..]
         && (e'.portal.hostReq == e.portal.hostReq + e.hostPool[..n] ||
             e'.portal.hostReq == e.portal.hostReq + B.Reversed(e.hostPool[..n]));
    CountFirst(e.hostPool, n, x);
    CountReversed(e.hostPool[..n], x);
    CountSum(e.portal.hostReq, e.hostPool[..n], x);
    CountSum(e.portal.hostReq, B.Reversed(e.hostPool[..n]), x);
  }

  /** Conservation: a tick neither loses nor duplicates a host request, whatever the DRAM does. */
  lemma TickConserves(phys: AddrMap, e: Engine, env: Env, x: Mark)
    requires Exclusive(e) && e.sched != Unconfigured && Legal(phys, e, env) && (!x.Key? ==> NoCommand(e.portal.hostReq))
    ensures InEngine(Tick(phys, e, env), x) == InEngine(e, x)
  {
    hide Offered; hide Collect; hide Schedule; hide ProcInBank; hide Sides; hide NonePim; hide Outstanding; hide Count;
    hide HostCount; hide PoolToPortal; hide ProcReqs; hide CmdReqs;
    OfferedKeeps(e, env);
    OfferedCounts(e, env, x);
    var e1 := Offered(e, env);
    CollectKeeps(phys, e1, env.completions);
    CollectCounts(phys, e1, env.completions, x);
    var e2 := Collect(phys, e1, env.completions);
    ScheduleMoves(e2, env.idle);
    MovesCount(e2, Schedule(e2, env.idle), x);
  }

  lemma OfferedCounts(e: Engine, env: Env, x: Mark)
    requires Exclusive(e) && e.sched != Unconfigured && (!x.Key? ==> NoCommand(e.portal.hostReq))
    ensures InEngine(Offered(e, env), x) == InEngine(e, x)
  {
    hide TickProc; hide ProcessCmds; hide DrainPort; hide ProcInBank; hide Sides; hide Count; hide HostCount;
    hide PeReqs;
    hide CmdReqs;
    ProcTick(e);
    var e1 := TickProc(e);
    ProcTickCounts(e, x);
    PortKeepsSides(e.portal, e1.portal, e.dram);
    CmdsTouch(e1);
    CmdsCount(e1, x);
    var e2 := ProcessCmds(e1);
    assert ProcReqs(e2.proc) == ProcReqs(e1.proc);
    DrainCounts(e2.portal, e2.dram, e2.clock, env.quota, x);
  }
}
