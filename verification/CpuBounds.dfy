/** What a CPU does to its portal, for every program, exits and faults included. */
module CpuBounds {
  import opened Words
  import opened DramPortals
  import opened FlatMemory
  import opened AguUnits
  import opened CpuTypes
  import opened Scoreboard
  import opened CpuStages
  import opened CpuPipeline
  import opened BootFsm
  import BootRuns

  /** A pointer the AGU accepts translates without wrap-around into the pseudo bank. */
  lemma TranslationInBank(t: AguTable, p: FatPtr)
    requires BootRuns.TableBounded(t)
    ensures Translate(t, p).Some? ==>
              && t[p.tag].base + p.offset < PSEUDO_BANK_ENTRIES
              && Translate(t, p).value == t[p.tag].base + p.offset
              && Translate(t, p).value / ENTRIES_PER_CACHELINE < PSEUDO_BANK_CACHELINES
  {
  }

  predicate ReasonInBank(r: Reason) {
    r.MemBlock? ==> r.addr < PSEUDO_BANK_CACHELINES
  }

  predicate FsmInBank(f: Fsm) {
    f.MemFsm? && f.req.Some? ==> f.req.value.isPim && f.req.value.addr < PSEUDO_BANK_CACHELINES
  }

  ghost predicate SignalsInBank(m: ActiveMap) {
    forall k :: k in m ==> ReasonInBank(m[k].reason) && FsmInBank(m[k].fsm)
  }

  predicate PhysInBank(l: AguMem) {
    l.phys.Some? ==> l.phys.value < PSEUDO_BANK_ENTRIES
  }

  ghost predicate InBank(c: Cpu) {
    BootRuns.TableBounded(c.prog.agu) && PhysInBank(c.core.agumem) && SignalsInBank(c.active)
  }

  /** The tick adds requests of the processor inside its bank and may consume processor responses;
      the host's side and the mode are untouched. */
  ghost predicate PortOnly(p: Portal, p': Portal) {
    && |p.pimReq| <= |p'.pimReq| && p.pimReq == p'.pimReq[..|p.pimReq|]
    && (forall q :: q in p'.pimReq[|p.pimReq|..] ==>
          q.isPim && q.addr < PSEUDO_BANK_CACHELINES && q.id == None && q.issueTime == None)
    && (forall q :: q in p'.pimResp ==> q in p.pimResp)
    && p'.hostReq == p.hostReq && p'.hostResp == p.hostResp && p'.mode == p.mode
  }

  lemma SubmitInBank(m: ActiveMap, q: SignalReq)
    requires SignalsInBank(m) && ReasonInBank(q.reason)
    ensures SignalsInBank(Scoreboard.SubmitSignal(m, q))
  {
  }

  lemma EvalsInBank(prog: Program, c: Core, requested: bool)
    requires BootRuns.TableBounded(prog.agu) && PhysInBank(c.agumem)
    ensures var e := EvalAll(prog, c, requested);
            && ReasonInBank(e.wbReq.reason) && ReasonInBank(e.mem.req.reason) && ReasonInBank(e.agu.req.reason)
            && ReasonInBank(e.ex.req.reason) && ReasonInBank(e.id.req.reason) && ReasonInBank(e.iF.req.reason)
            && PhysInBank(e.agu.next)
  {
    hide ReadData; hide ReadFptr; hide ExVReg; hide Lanes4; hide Decode; hide Accept; hide Translate; hide AguDma;
    hide PtrArith; hide BootRuns.TableBounded; hide AguVReg;
    AguInBank(prog, c);
  }

  lemma AguInBank(prog: Program, c: Core)
    requires BootRuns.TableBounded(prog.agu)
    ensures PhysInBank(EvalAGU(prog, c).next) && !EvalAGU(prog, c).req.reason.MemBlock?
  {
    hide PtrArith; hide BootRuns.TableBounded; hide AguVReg; hide AguDma; hide Translate; hide Accept;
    if c.exagu.agu.Chk? && AguFReg(c, c.exagu.agu.frs).Some? {
      TranslationInBank(prog.agu, AguFReg(c, c.exagu.agu.frs).value);
    }
  }

  lemma SubmitAllInBank(m: ActiveMap, e: Evals)
    requires SignalsInBank(m)
    requires ReasonInBank(e.wbReq.reason) && ReasonInBank(e.mem.req.reason) && ReasonInBank(e.agu.req.reason)
    requires ReasonInBank(e.ex.req.reason) && ReasonInBank(e.id.req.reason) && ReasonInBank(e.iF.req.reason)
    ensures SignalsInBank(SubmitAll(m, e))
  {
    hide Scoreboard.SubmitSignal; hide SignalsInBank; hide ReasonInBank;
    var m1 := Scoreboard.SubmitSignal(m, e.wbReq);
    SubmitInBank(m, e.wbReq);
    var m2 := Scoreboard.SubmitSignal(m1, e.mem.req);
    SubmitInBank(m1, e.mem.req);
    var m3 := Scoreboard.SubmitSignal(m2, e.agu.req);
    SubmitInBank(m2, e.agu.req);
    var m4 := Scoreboard.SubmitSignal(m3, e.ex.req);
    SubmitInBank(m3, e.ex.req);
    var m5 := Scoreboard.SubmitSignal(m4, e.id.req);
    SubmitInBank(m4, e.id.req);
    SubmitInBank(m5, e.iF.req);
  }

  lemma AdvanceInBank(f: Fsm, r: Reason, port: Portal)
    requires FsmInBank(f) && ReasonInBank(r)
    ensures var (g, port') := Advance(f, r, port);
            FsmInBank(g) && PortOnly(port, port')
  {
    assert port.pimReq == port.pimReq[..|port.pimReq|];
    if f.MemFsm? && f.st == Submit && r.MemBlock? {
      var q := NewReq(r.addr, r.isRead, true);
      assert (port.pimReq + [q])[..|port.pimReq|] == port.pimReq;
      assert (port.pimReq + [q])[|port.pimReq|..] == [q];
    }
  }

  lemma DecideInBank(m: ActiveMap, port: Portal)
    requires SignalsInBank(m)
    ensures SignalsInBank(Decide(m, port).active) && PortOnly(port, Decide(m, port).port)
  {
    hide Advance; hide PortOnly;
    if m == map[] {
      NoStep(port);
    } else {
      var w := Winner(m);
      AdvanceInBank(m[w].fsm, m[w].reason, port);
    }
  }

  lemma NoStep(port: Portal)
    ensures PortOnly(port, port)
  {
    assert port.pimReq == port.pimReq[..|port.pimReq|];
  }

  /** Address bounds end to end: with a booted descriptor table no CPU, whatever its program does, ever
      asks the DRAM for a line outside its pseudo bank. */
  lemma CpuStaysInBank(c: Cpu, port: Portal)
    requires InBank(c)
    ensures var (c', port') := Tick(c, port);
            InBank(c') && PortOnly(port, port') && c'.prog == c.prog
  {
    hide EvalAll; hide SubmitAll; hide Decide; hide PortOnly; hide CommitAll; hide BootRuns.TableBounded;
    var c1 := PrepareResume(c);
    assert InBank(c1);
    NoStep(port);
    if !c1.finished {
      var e := EvalAll(c1.prog, c1.core, c1.pause.requested);
      EvalsInBank(c1.prog, c1.core, c1.pause.requested);
      SubmitAllInBank(c1.active, e);
      DecideInBank(SubmitAll(c1.active, e), port);
    }
  }

  /** Pause and resume signals change nothing here. */
  lemma SignalsStayInBank(c: Cpu)
    requires InBank(c)
    ensures InBank(SignalPause(c)) && InBank(SignalResume(c))
  {
  }
}
