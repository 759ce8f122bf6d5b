/** Requests get their number when the DRAM accepts them: once, and no number twice. */
module EngineNumbers {
  import opened Words
  import opened DramPortals
  import opened DramWrappers
  import opened EngineSpec
  import opened EngineProcessors
  import opened EngineExclusive
  import opened EngineConservation
  import B = BootFsm

  predicate IsFresh(q: DramReq) {
    q.id == None && q.issueTime == None
  }

  predicate AllFresh(s: seq<DramReq>) {
    forall q :: q in s ==> IsFresh(q)
  }

  /** A request on its way to the DRAM has neither number nor time, so numbering it is no panic. */
  ghost predicate Unnumbered(e: Engine) {
    AllFresh(e.hostPool) && AllFresh(e.portal.hostReq) && AllFresh(e.portal.pimReq)
  }

  /** Inside the DRAM every request has a number and a time, and the numbers rise. */
  ghost predicate Rising(s: seq<DramReq>, limit: nat) {
    && (forall i :: 0 <= i < |s| ==> s[i].id.Some? && s[i].issueTime.Some? && s[i].id.value < limit)
    && (forall i, j :: 0 <= i < j < |s| ==> s[i].id.value < s[j].id.value)
  }

  ghost predicate Numbered(d: Dram) {
    Rising(d.pending, d.nextId)
  }

  lemma DrainOne(d: Dram, q: DramReq, clock: nat)
    requires Numbered(d)
    ensures Numbered(Dram(d.pending + [Stamped(q, d.nextId, clock)], d.nextId + 1, d.pimMode))
  {
  }

  /** Accepting requests hands out the next numbers, each to one request. */
  lemma {:induction false} DrainNumbers(p: Portal, d: Dram, clock: nat, quota: nat)
    requires AllFresh(p.pimReq) && AllFresh(p.hostReq) && Numbered(d)
    ensures var (p', d') := DrainPort(p, d, clock, quota);
            && d.nextId <= d'.nextId && AllFresh(p'.pimReq) && AllFresh(p'.hostReq) && Numbered(d')
            && |d'.pending| == |d.pending| + (d'.nextId - d.nextId) && d.pending <= d'.pending
    decreases quota
  {
    hide Numbered; hide Stamped;
    var (q, p1) := p.GetOne();
    if q.Some? {
      GetKeepsFresh(p);
      if quota > 0 {
        DrainOne(d, q.value, clock);
        DrainNumbers(p1, Dram(d.pending + [Stamped(q.value, d.nextId, clock)], d.nextId + 1, d.pimMode), clock,
              quota - 1);
      }
    }
  }

  lemma GetKeepsFresh(p: Portal)
    requires AllFresh(p.pimReq) && AllFresh(p.hostReq) && p.GetOne().0.Some?
    ensures var (q, p1) := p.GetOne();
            IsFresh(q.value) && AllFresh(p1.pimReq) && AllFresh(p1.hostReq)
  {
    var (q, p1) := p.GetOne();
    forall r | r in p1.pimReq ensures r in p.pimReq {}
    forall r | r in p1.hostReq ensures r in p.hostReq {}
    assert q.value in p.pimReq || q.value in p.hostReq;
  }

  /** Completions leave the others in order. */
  lemma {:induction false} CompleteRising(phys: AddrMap, s: seq<DramReq>, cs: seq<Completion>, limit: nat)
    requires Rising(s, limit)
    ensures Complete(phys, s, cs).Some? ==> Rising(Complete(phys, s, cs).value.1, limit)
  {
    hide FirstWith;
    if cs != [] {
      var i := FirstWith(phys, s, cs[0]);
      if i < |s| {
        RisingWithout(s, i, limit);
        CompleteRising(phys, s[..i] + s[i + 1..], cs[1..], limit);
      }
    }
  }

  lemma RisingWithout(s: seq<DramReq>, i: nat, limit: nat)
    requires Rising(s, limit) && i < |s|
    ensures Rising(s[..i] + s[i + 1..], limit)
  {
    var t := s[..i] + s[i + 1..];
    forall k | 0 <= k < |t| ensures t[k] == s[if k < i then k else k + 1] {}
  }

  lemma MovesFresh(e: Engine, e': Engine)
    requires PoolToPortal(e, e') && Unnumbered(e)
    ensures Unnumbered(e') && e'.dram.nextId == e.dram.nextId && e'.dram.pending == e.dram.pending
  {
    hide IsFresh; hide ProcReqs; hide CmdReqs;
    var n: nat :| n <= |e.hostPool| && e'.hostPool == e.hostPool[n..]
         && (e'.portal.hostReq == e.portal.hostReq + e.hostPool[..n] ||
             e'.portal.hostReq == e.portal.hostReq + B.Reversed(e.hostPool[..n]));
    ReversedIn(e.hostPool[..n]);
  }

  lemma CollectNumbers(phys: AddrMap, e: Engine, cs: seq<Completion>)
    requires multiset(cs) <= Outstanding(phys, e.dram.pending) && Sides(e.portal, e.dram) && ProcInBank(e.proc)
    requires Unnumbered(e) && Numbered(e.dram)
    ensures var e' := Collect(phys, e, cs);
            Unnumbered(e') && Numbered(e'.dram) && e'.dram.nextId == e.dram.nextId
  {
    hide Outstanding; hide ProcInBank; hide Sides; hide Complete; hide CompleteAll; hide AllFresh; hide Rising;
    CollectKeeps(phys, e, cs);
    PanicsExactly(phys, e.dram.pending, cs);
    CompleteRising(phys, e.dram.pending, cs, e.dram.nextId);
  }

  /** What the wrapper is offered in a tick, the processor's requests of that same tick included: nothing
      has a number yet, processor requests lie in the pseudo bank, and host requests are the host's. */
  lemma OfferIsSound(e: Engine)
    requires Exclusive(e) && e.sched != Unconfigured && Unnumbered(e)
    ensures var e1 := BeforeDram(e);
            && Unnumbered(e1) && e1.dram == e.dram && e1.clock == e.clock
            && AllPim(e1.portal.pimReq) && NonePim(e1.portal.hostReq)
  {
    hide TickProc; hide ProcessCmds; hide ProcInBank; hide NonePim; hide AllPim;
    ProcTick(e);
    var e1 := TickProc(e);
    assert e1.portal.pimReq == e1.portal.pimReq[..|e.portal.pimReq|] + e1.portal.pimReq[|e.portal.pimReq|..];
    PortKeepsSides(e.portal, e1.portal, e.dram);
    CmdsTouch(e1);
  }

  lemma OfferedNumbers(e: Engine, env: Env)
    requires Exclusive(e) && e.sched != Unconfigured && Unnumbered(e) && Numbered(e.dram)
    ensures Unnumbered(Offered(e, env)) && Numbered(Offered(e, env).dram)
          && e.dram.nextId <= Offered(e, env).dram.nextId
  {
    hide BeforeDram; hide DrainPort; hide Sides; hide ProcInBank; hide Numbered;
    OfferIsSound(e);
    var e1 := BeforeDram(e);
    DrainNumbers(e1.portal, e1.dram, e1.clock, env.quota);
  }

  /** No number is given twice, and none is overwritten. */
  lemma TickNumbers(phys: AddrMap, e: Engine, env: Env)
    requires Exclusive(e) && e.sched != Unconfigured && Legal(phys, e, env) && Unnumbered(e) && Numbered(e.dram)
    ensures var e' := Tick(phys, e, env);
            Unnumbered(e') && Numbered(e'.dram) && e.dram.nextId <= e'.dram.nextId
  {
    hide Offered; hide Collect; hide Schedule; hide ProcInBank; hide Sides; hide NonePim; hide Outstanding;
    hide Rising; hide AllFresh; hide PoolToPortal;
    OfferedKeeps(e, env);
    OfferedNumbers(e, env);
    var e1 := Offered(e, env);
    CollectKeeps(phys, e1, env.completions);
    CollectNumbers(phys, e1, env.completions);
    var e2 := Collect(phys, e1, env.completions);
    ScheduleMoves(e2, env.idle);
    MovesFresh(e2, Schedule(e2, env.idle));
  }
}
