/** What an engine's processor -- CPU, boot controller or PE -- may do to the shared portal. */
module EngineProcessors {
  import opened Words
  import opened DramPortals
  import opened FlatMemory
  import opened EngineSpec
  import opened CpuBounds
  import B = BootFsm
  import R = BootRuns
  import C = CpuPipeline
  import P = PePipeline
  import T = PeTypes
  import S = Scoreboard

  // ---- processing element ----

  predicate JobInBank(i: T.PeInst) {
    (i.LD128? || i.ST128? || i.LD32? || i.ST32?) ==> i.addr < B.PSEUDO_BANK_ENTRIES
  }

  predicate LatchInBank(l: P.IssueEx) {
    !l.mem.MemIdle? ==> l.mem.addr < B.PSEUDO_BANK_ENTRIES
  }

  predicate PeInBank(p: P.Pe) {
    && (forall j :: j in p.imem ==> JobInBank(j.inst)) && LatchInBank(p.latch)
    && (p.stop.req.Some? ==> p.stop.req.value.isPim)
  }

  lemma PeStaysInBank(p: P.Pe, port: Portal)
    requires PeInBank(p)
    ensures var (p', port') := P.Tick(p, port);
            PeInBank(p') && PortOnly(port, port')
  {
    hide P.AluComp; hide ReadV; hide ReadS; hide P.ApplyAll; hide P.BypassV; hide P.BypassS; hide FirstMatch;
    hide PortOnly;
    var e := P.EvalEX(p.latch, p.fwd, p.st.mem);
    StopInBank(p.stop, e.reason, port);
    var issued := P.EvalISSUE(P.Peek(p), p.st.v, p.st.s);
    IssuedInBank(p);
  }

  lemma IssuedInBank(p: P.Pe)
    requires PeInBank(p)
    ensures LatchInBank(P.EvalISSUE(P.Peek(p), p.st.v, p.st.s))
  {
    if P.Peek(p).Some? {
      assert p.imem[0] in p.imem;
    }
  }

  lemma StopInBank(stop: P.Stop, r: S.Reason, port: Portal)
    requires (stop.req.Some? ==> stop.req.value.isPim) && ReasonInBank(r)
    ensures var (ops, stop', port') := P.StopDecision(stop, r, port);
            (stop'.req.Some? ==> stop'.req.value.isPim) && PortOnly(port, port')
  {
    assert port.pimReq == port.pimReq[..|port.pimReq|];
    if P.Woken(stop, r).st.Submit? && r.MemBlock? {
      var q := NewReq(r.addr, r.isRead, true);
      assert (port.pimReq + [q])[..|port.pimReq|] == port.pimReq;
      assert (port.pimReq + [q])[|port.pimReq|..] == [q];
    }
  }

  // ---- boot controller ----

  ghost predicate BootInBank(b: B.Boot) {
    R.RangeOk(b) && R.PimReads(b.pending)
  }

  lemma TakeAllPort(pending: seq<DramReq>, idx: nat, port: Portal)
    requires idx <= |pending| && R.PimReads(pending) && R.NoMatch(pending, idx, port.pimResp)
    ensures var (pending', port') := B.TakeAll(pending, idx, port);
            R.PimReads(pending') && PortOnly(port, port')
  {
    R.TakeAllBalances(pending, idx, port);
    assert port.pimReq == port.pimReq[..|port.pimReq|];
  }

  lemma SubmitChunksPort(b: B.Boot, port: Portal, first: u32, count: u32, next: B.BootState)
    requires first + count <= B.PSEUDO_BANK_ENTRIES
    ensures var (b', port') := B.SubmitChunks(b, port, first, count, next);
            R.PimReads(b'.pending) && b' == b.(st := next, pending := b'.pending) && PortOnly(port, port')
  {
    var reqs := B.ChunkReqs(first, count);
    R.ChunksAreReads(first, count);
    var more := B.Reversed(reqs);
    assert (port.pimReq + more)[..|port.pimReq|] == port.pimReq;
    assert (port.pimReq + more)[|port.pimReq|..] == more;
    forall q | q in more ensures q.isPim && q.addr < B.PSEUDO_BANK_CACHELINES && q.id == None && q.issueTime == None {
      var i :| 0 <= i < |more| && more[i] == q;
      assert q == B.ChunkReq(first + (count - 1 - i));
    }
  }

  lemma BootStaysInBank(b: B.Boot, l: B.Loaded, port: Portal)
    requires BootInBank(b) && R.TableBounded(l.agu)
    ensures var (b', l', port') := B.BootTick(b, l, port);
            BootInBank(b') && R.TableBounded(l'.agu) && PortOnly(port, port')
  {
    hide B.TakeAll; hide B.LoadAguTable; hide B.LoadProgram; hide B.SubmitChunks; hide PortOnly; hide R.PimReads;
    NoStep(port);
    R.TableLoads(l);
    R.ProgramKeepsTable(l, b.base, b.chunks);
    R.NothingBefore(b.pending, port.pimResp);
    TakeAllPort(b.pending, 0, port);
    SubmitChunksPort(b, port, 0, B.AGU_TABLE_CHUNKS, B.AguStall);
    SubmitChunksPort(b, port, b.base, b.chunks, B.ImemStall);
  }

  // ---- either ----

  ghost predicate ProcInBank(p: Processor) {
    match p
    case Cgo(cpu, boot) => InBank(cpu) && BootInBank(boot)
    case Fgo(pe) => PeInBank(pe)
  }

  /** Whatever the processor does in its tick: it only adds requests of its own, all inside the pseudo
      bank, and only takes responses to its own. */
  lemma ProcTick(e: Engine)
    requires Compatible(e.proc, e.sched) && ProcInBank(e.proc)
    ensures var e' := TickProc(e);
            && ProcInBank(e'.proc) && PortOnly(e.portal, e'.portal) && e'.proc.Cgo? == e.proc.Cgo?
            && e' == e.(proc := e'.proc, portal := e'.portal)
  {
    hide C.Tick; hide B.BootTick; hide P.Tick; hide PortOnly; hide PeInBank; hide BootInBank; hide R.TableBounded;
    NoStep(e.portal);
    match e.proc
    case Cgo(cpu, boot) =>
      CpuStaysInBank(cpu, e.portal);
      BootStaysInBank(boot, LoadedOf(cpu), e.portal);
    case Fgo(pe) =>
      PeStaysInBank(pe, e.portal);
  }

  /** Commands touch the boot controller only. */
  lemma CmdsTouch(e: Engine)
    requires ProcInBank(e.proc)
    ensures var e' := ProcessCmds(e);
            && ProcInBank(e'.proc) && e' == e.(proc := e'.proc, cmdQueue := e'.cmdQueue, cmdDone := e'.cmdDone)
            && (e.proc.Fgo? ==> e' == e) && (e.proc.Cgo? ==> e'.proc.cpu == e.proc.cpu)
    decreases |e.cmdQueue|
  {
    hide InBank; hide PeInBank;
    if e.proc.Cgo? && e.cmdQueue != [] {
      var (cmd, req) := e.cmdQueue[0];
      CmdsTouch(DoCommand(e.(cmdQueue := e.cmdQueue[1..]), cmd, req));
    }
  }
}
