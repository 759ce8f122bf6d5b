/** A memory block always consumes the response to its own request. */
module CpuResponses {
  import opened Words
  import opened DramPortals
  import opened Scoreboard
  import opened CpuStages
  import opened CpuPipeline
  import opened Isa
  import opened CpuDrain
  import opened CpuForwarding
  import opened CpuArbitration
  import opened CpuDecision
  import opened CpuSteps
  import opened FetchMachine
  import opened CpuRefinement
  import opened CpuRuns
  import opened CpuPause

  /** A running CPU with the DRAM behind its portal, and how many instructions it has fetched. */
  datatype MemRun = MemRun(cpu: Cpu, log: seq<Access>, port: Portal, inDram: seq<DramReq>, fetched: nat)

  datatype Ev =
    | TickNow
    | PauseNow
    | ResumeNow
    | Issue(id: nat, time: nat)   // the DRAM accepts the top request
    | Answer(i: nat)              // the DRAM completes a request it holds
    | Turn(mode: PortalMode)      // the engine serves the other side

  ghost function StepOne(s: MemRun, ev: Ev): MemRun {
    match ev
    case TickNow =>
      var (c', p') := Tick(s.cpu, s.port);
      MemRun(c', LogAfter(s.log, s.port, p'), p', s.inDram,
             s.fetched + Bit(Fetches(Decided(PrepareResume(s.cpu), s.port).ops)))
    case PauseNow => s.(cpu := SignalPause(s.cpu))
    case ResumeNow => s.(cpu := SignalResume(s.cpu))
    case Issue(id, time) =>
      if s.port.mode != PIM || s.port.pimReq == [] then s
      else
        var (q, p) := s.port.GetOne();
        s.(port := p, inDram := s.inDram + [q.value.(id := Some(id), issueTime := Some(time))])
    case Answer(i) =>
      if i >= |s.inDram| || !s.inDram[i].isPim then s
      else s.(port := s.port.Complete(s.inDram[i]), inDram := s.inDram[..i] + s.inDram[i + 1..])
    case Turn(m) => s.(port := s.port.(mode := m))
  }

  /** Everything of the processor between its submission and its consumption. */
  function InFlightReqs(s: MemRun): seq<DramReq> {
    s.port.pimReq + s.inDram + s.port.pimResp
  }

  /** The request of the waiting memory block. */
  ghost predicate IsOwn(m: ActiveMap, q: DramReq) {
    exists k :: k in m && k.reason.MemBlock? && m[k].fsm.MemFsm? && m[k].fsm.st == Waiting
      && q.Matches(NewReq(k.reason.addr, k.reason.isRead, true))
  }

  // ---- the portal's side of a block's step ----

  ghost predicate OneIn(m: ActiveMap, port: Portal, inDram: seq<DramReq>) {
    var out := port.pimReq + inDram + port.pimResp;
    if BlockIs(m, Waiting) then |out| == 1 && IsOwn(m, out[0]) else out == []
  }

  /** Submitting puts the block's request in flight. */
  lemma SubmitFlight(m: ActiveMap, m': ActiveMap, port: Portal, inDram: seq<DramReq>, k: Key)
    requires OneIn(m, port, inDram) && !BlockIs(m, Waiting) && k.reason.MemBlock?
    requires k in m' && m'[k].fsm.MemFsm? && m'[k].fsm.st == Waiting
    ensures OneIn(m', port.Submit(NewReq(k.reason.addr, k.reason.isRead, true)), inDram)
  {
    hide IsOwn;
    var q := NewReq(k.reason.addr, k.reason.isRead, true);
    assert port.pimReq == [] && inDram == [] && port.pimResp == [];
    assert port.Submit(q).pimReq + inDram + port.pimResp == [q];
    IsOwnBy(m', q, k);
  }

  lemma IsOwnBy(m: ActiveMap, q: DramReq, k: Key)
    requires k in m && k.reason.MemBlock? && m[k].fsm.MemFsm? && m[k].fsm.st == Waiting
    requires q.Matches(NewReq(k.reason.addr, k.reason.isRead, true))
    ensures IsOwn(m, q)
  {
  }

  /** The waiting block finds its own response, and nothing else was in flight. */
  lemma TakeFlight(m: ActiveMap, m': ActiveMap, port: Portal, inDram: seq<DramReq>, k: Key)
    requires OneIn(m, port, inDram) && BlockIs(m, Waiting) && k.reason.MemBlock?
    requires forall j :: j in m && j.reason.MemBlock? ==> j == k
    ensures var own := NewReq(k.reason.addr, k.reason.isRead, true);
            var (done, port') := port.TakeCompleted(own);
            && (done.Some? ==>
                  && port.pimReq == [] && inDram == [] && port.pimResp == [done.value] && own.Matches(done.value)
                  && port'.pimResp == [] && IsOwn(m, done.value)
                  && (!BlockIs(m', Waiting) ==> OneIn(m', port', inDram)))
            && (done == None ==>
                  && port' == port
                  && (k in m' && m'[k].fsm.MemFsm? && m'[k].fsm.st == Waiting ==> OneIn(m', port', inDram)))
  {
    var out := port.pimReq + inDram + port.pimResp;
    assert out[0].Matches(NewReq(k.reason.addr, k.reason.isRead, true));
    if k in m' && m'[k].fsm.MemFsm? && m'[k].fsm.st == Waiting {
      IsOwnBy(m', out[0], k);
    }
    var i := FirstMatch(port.pimResp, NewReq(k.reason.addr, k.reason.isRead, true));
    if i < |port.pimResp| {
      assert |port.pimReq| + |inDram| + |port.pimResp| == 1;
      assert port.pimResp == [port.pimResp[0]];
      assert port.pimResp[..0] + port.pimResp[1..] == [];
    }
  }

  lemma OnlyBlock(prog: Program, c: Core, requested: bool, m: ActiveMap, n: ActiveMap, k: Key)
    requires AllExpected(prog, c, requested, n) && Extends(m, n) && k in n && k.reason.MemBlock?
    ensures forall j :: j in m && j.reason.MemBlock? ==> j == k
  {
    hide EvalEX; hide EvalAGU; hide BlockOk;
    assert Expected(prog, c, requested, n[k]);
    forall j | j in m && j.reason.MemBlock? ensures j == k {
      assert j in n;
    }
  }

  /** A tick that a memory block wins. */
  lemma BlockedFlight(c: Cpu, log: seq<Access>, port: Portal, inDram: seq<DramReq>, n: ActiveMap, k: Key)
    requires OneIn(c.active, port, inDram) && Inv(c, log) && k in n && k.reason.MemBlock?
    requires n == SubmitAll(c.active, EvalAll(c.prog, c.core, c.pause.requested))
    requires Submitted(c.prog, c.core, c.pause.requested, n) && Extends(c.active, n)
    ensures var (c', port') := Run(c, port);
            && OneIn(c'.active, port', inDram)
            && (port'.pimResp != port.pimResp ==> ConsumesOwn(c.active, port, inDram, port'))
  {
    hide EvalAll; hide EvalEX; hide EvalAGU; hide Run; hide SubmitAll; hide Drain; hide Fine; hide Submitted;
    hide Extends;
    hide Decide; hide NextOf; hide SigOk; hide BlockOk; hide AllExpected; hide Decided; hide OneIn;
    hide BlockIs; hide IsOwn;
    hide FirstMatch;
    SubmittedExpected(c.prog, c.core, c.pause.requested, n);
    RunParts(c, port);
    DecidedOf(c, port, n);
    BlockTick(c.prog, c.core, c.pause.requested, c.active, port, n, k);
    BlockBefore(c.prog, c.core, c.pause.requested, c.active, n, k);
    BlockAfter(c.prog, c.core, c.pause.requested, c.active, port, n, k);
    OnlyBlock(c.prog, c.core, c.pause.requested, c.active, n, k);
    WaitsForOwn(c.prog, c.core, c.pause.requested, n[k], k);
    var m' := Run(c, port).0.active;
    BlockIsBlock(m', Waiting);
    match n[k].fsm.st {
      case Submit => SubmitFlight(c.active, m', port, inDram, k);
      case Waiting => TakeFlight(c.active, m', port, inDram, k);
      case _ => NothingInFlight(c.active, m', port, inDram);
    }
  }

  lemma WaitsForOwn(prog: Program, c: Core, requested: bool, a: Active, k: Key)
    requires Expected(prog, c, requested, a) && a.fsm.MemFsm? && k == KeyOf(a) && k.reason.MemBlock?
    ensures a.fsm.st == Waiting ==> a.fsm.req == Some(NewReq(k.reason.addr, k.reason.isRead, true))
    ensures a.fsm.st == Submit || a.fsm.st == Waiting || a.fsm.st == WriteBack || a.fsm.st == Release
  {
    hide EvalEX; hide EvalAGU;
  }

  lemma NothingInFlight(m: ActiveMap, m': ActiveMap, port: Portal, inDram: seq<DramReq>)
    requires OneIn(m, port, inDram) && !BlockIs(m, Waiting) && !BlockIs(m', Waiting)
    ensures OneIn(m', port, inDram)
  {
  }

  /** The one response there was answered the request of the waiting block. */
  ghost predicate ConsumesOwn(m: ActiveMap, port: Portal, inDram: seq<DramReq>, port': Portal) {
    && port.pimReq == [] && inDram == [] && |port.pimResp| == 1 && IsOwn(m, port.pimResp[0]) && port'.pimResp == []
  }

  // ---- runs ----

  /** A tick without a memory block leaves the portal alone. */
  lemma FreeFlight(c: Cpu, log: seq<Access>, port: Portal, inDram: seq<DramReq>)
    requires Inv(c, log) && !ExitNow(c.core) && OneIn(c.active, port, inDram)
    requires !HasBlock(SubmitAll(c.active, EvalAll(c.prog, c.core, c.pause.requested)))
    ensures var (c', port') := Run(c, port);
            port' == port && OneIn(c'.active, port', inDram)
  {
    hide EvalAll; hide EvalEX; hide EvalAGU; hide Run; hide SubmitAll; hide Drain; hide OneIn; hide Decided;
    hide BlockIs; hide Decide; hide AfterEx;
    var n := SubmitAll(c.active, EvalAll(c.prog, c.core, c.pause.requested));
    FineIsCoreFine(c.prog, c.core, HasBlock(c.active), log);
    SubmitAllAdds(c.prog, c.core, HasBlock(c.active), log, c.pause.requested, c.active);
    InvIsOrderly(c, log);
    hide Fine; hide Submitted; hide Extends; hide SigOk; hide CoreFine; hide ExitNow;
    NoneBefore(c.active, n);
    BlockIsBlock(c.active, Waiting);
    if c.pause.requested {
      PausedRun(c, log, port, n);
    } else if EvalEX(c.core) == EX_RAW {
      RawRun(c, log, port, n);
    } else {
      FlowDecision(c, log, port, n);
      DecidedOf(c, port, n);
      RunParts(c, port);
    }
    var c' := Run(c, port).0;
    AfterFree(c, port, n);
    BlockIsBlock(c'.active, Waiting);
    NothingInFlight(c.active, c'.active, port, inDram);
  }

  lemma NoneBefore(m: ActiveMap, n: ActiveMap)
    requires Extends(m, n) && !HasBlock(n)
    ensures !HasBlock(m)
  {
    forall k | k in m ensures !k.reason.MemBlock? {
      assert k in n;
    }
  }

  lemma AfterFree(c: Cpu, port: Portal, n: ActiveMap)
    requires n == SubmitAll(c.active, EvalAll(c.prog, c.core, c.pause.requested)) && !HasBlock(n)
    ensures !HasBlock(Run(c, port).0.active)
  {
    hide EvalAll; hide SubmitAll; hide Run; hide Decided;
    RunParts(c, port);
    DecidedOf(c, port, n);
    if n != map[] {
      Survives(n, port);
    }
  }

  lemma Survives(n: ActiveMap, port: Portal)
    ensures forall k :: k in Decide(n, port).active ==> k in n
  {
    hide Advance;
  }

  lemma TickFlight(c: Cpu, log: seq<Access>, port: Portal, inDram: seq<DramReq>)
    requires Inv(c, log) && !ExitNow(c.core) && OneIn(c.active, port, inDram)
    ensures var (c', port') := Tick(c, port);
            && OneIn(c'.active, port', inDram)
            && (port'.pimResp != port.pimResp ==> ConsumesOwn(c.active, port, inDram, port'))
  {
    hide EvalAll; hide EvalEX; hide EvalAGU; hide Run; hide SubmitAll; hide Drain; hide OneIn; hide PrepareResume;
    hide ConsumesOwn;
    PrepareKeeps(c, log);
    InvKeyed(c, log);
    var c1 := PrepareResume(c);
    PrepareFlight(c, port, inDram);
    var n := SubmitAll(c1.active, EvalAll(c1.prog, c1.core, c1.pause.requested));
    FineIsCoreFine(c1.prog, c1.core, HasBlock(c1.active), log);
    SubmitAllAdds(c1.prog, c1.core, HasBlock(c1.active), log, c1.pause.requested, c1.active);
    hide Fine; hide Submitted; hide Extends; hide SigOk; hide ExitNow;
    if HasBlock(n) {
      var k :| k in n && k.reason.MemBlock?;
      BlockedFlight(c1, log, port, inDram, n, k);
      PrepareOwn(c, port, inDram, Run(c1, port).1);
    } else {
      FreeFlight(c1, log, port, inDram);
    }
  }

  /** Clearing a pause leaves the memory blocks alone. */
  lemma PauseCleared(m: ActiveMap)
    requires Keyed(m)
    ensures var m' := ClearActive(m, ExternalPause);
            && BlockIs(m', Waiting) == BlockIs(m, Waiting)
            && forall q :: IsOwn(m', q) == IsOwn(m, q)
  {
    var m' := ClearActive(m, ExternalPause);
    forall k | k in m && k.reason.MemBlock? ensures k in m' && m'[k] == m[k] {
      assert k == KeyOf(m[k]);
    }
  }

  lemma PrepareFlight(c: Cpu, port: Portal, inDram: seq<DramReq>)
    requires Keyed(c.active) && OneIn(c.active, port, inDram)
    ensures OneIn(PrepareResume(c).active, port, inDram)
  {
    hide BlockIs; hide IsOwn; hide ClearActive; hide Keyed;
    PauseCleared(c.active);
  }

  lemma PrepareOwn(c: Cpu, port: Portal, inDram: seq<DramReq>, port': Portal)
    requires Keyed(c.active)
    ensures ConsumesOwn(PrepareResume(c).active, port, inDram, port') ==> ConsumesOwn(c.active, port, inDram, port')
  {
    hide BlockIs; hide IsOwn; hide ClearActive; hide Keyed;
    PauseCleared(c.active);
  }

  lemma InvKeyed(c: Cpu, log: seq<Access>)
    requires Inv(c, log)
    ensures Keyed(c.active)
  {
    hide Fine; hide Keyed;
  }

  // ---- whole runs ----

  /** The CPU stands for the fetching machine, and what is in flight is its own. */
  ghost predicate Safe(s: MemRun, prog: Program, s0: Spec) {
    && Inv(s.cpu, s.log) && s.cpu.prog == prog && OneIn(s.cpu.active, s.port, s.inDram)
    && Abs(s.cpu, s.log) == FetchSteps(prog, s0, s.fetched)
  }

  datatype Flight = Flight(evs: seq<Ev>, states: seq<MemRun>)

  ghost predicate Moves(r: Flight, i: nat)
    requires i < |r.evs| && |r.states| == |r.evs| + 1
  {
    r.states[i + 1] == StepOne(r.states[i], r.evs[i])
  }

  /** The run starts where boot leaves the portal: nothing of the processor anywhere. */
  ghost predicate IsFlight(r: Flight) {
    && |r.states| == |r.evs| + 1 && Inv(r.states[0].cpu, r.states[0].log) && r.states[0].log == []
    && r.states[0].fetched == 0
    && InFlightReqs(r.states[0]) == [] && !BlockIs(r.states[0].cpu.active, Waiting)
    && forall i: nat :: i < |r.evs| ==> Moves(r, i)
  }

  lemma IssueFlight(m: ActiveMap, s: MemRun, id: nat, time: nat)
    requires OneIn(m, s.port, s.inDram)
    ensures var s' := StepOne(s, Issue(id, time));
            OneIn(m, s'.port, s'.inDram)
  {
    if s.port.mode == PIM && s.port.pimReq != [] {
      var s' := StepOne(s, Issue(id, time));
      assert |s.port.pimReq| == 1 && s.inDram == [] && s.port.pimResp == [];
      var q := s.port.pimReq[0];
      assert InFlightReqs(s) == [q] && InFlightReqs(s') == [q.(id := Some(id), issueTime := Some(time))];
    }
  }

  lemma AnswerFlight(m: ActiveMap, s: MemRun, i: nat)
    requires OneIn(m, s.port, s.inDram)
    ensures var s' := StepOne(s, Answer(i));
            OneIn(m, s'.port, s'.inDram)
  {
    if i < |s.inDram| && s.inDram[i].isPim {
      var s' := StepOne(s, Answer(i));
      assert |s.inDram| == 1 && s.port.pimReq == [] && s.port.pimResp == [];
      assert InFlightReqs(s) == [s.inDram[0]] && InFlightReqs(s') == [s.inDram[0]];
    }
  }

  lemma SignalFlight(c: Cpu, port: Portal, inDram: seq<DramReq>)
    requires Keyed(c.active) && OneIn(c.active, port, inDram)
    ensures OneIn(SignalPause(c).active, port, inDram) && OneIn(SignalResume(c).active, port, inDram)
  {
    hide BlockIs; hide IsOwn; hide ClearActive; hide Keyed;
    PauseCleared(c.active);
  }

  /** The event is no tick that takes an exit or panics. */
  ghost predicate Passes(s: MemRun, ev: Ev) {
    ev == TickNow ==> !ExitNow(s.cpu.core) && !Panics(s.cpu, s.port)
  }

  ghost predicate AllPass(r: Flight, n: nat)
    requires n <= |r.evs| && |r.states| == |r.evs| + 1
  {
    forall i: nat :: i < n ==> Passes(r.states[i], r.evs[i])
  }

  lemma FlightGrows(s: MemRun, ev: Ev)
    ensures s.fetched <= StepOne(s, ev).fetched <= s.fetched + 1
  {
    hide Decided; hide Tick; hide LogAfter;
  }

  lemma TickStep(s: MemRun, prog: Program, s0: Spec)
    requires Safe(s, prog, s0) && Passes(s, TickNow)
    requires StepOne(s, TickNow).fetched > s.fetched ==> Allowed(prog, FetchSteps(prog, s0, s.fetched))
    ensures Safe(StepOne(s, TickNow), prog, s0)
    ensures StepOne(s, TickNow).port.pimResp != s.port.pimResp ==>
              ConsumesOwn(s.cpu.active, s.port, s.inDram, StepOne(s, TickNow).port)
  {
    hide Inv; hide OneIn; hide Tick; hide Abs; hide LogAfter; hide Decided; hide Allowed;
    hide ExitNow; hide FetchStep; hide ConsumesOwn; hide Panics; hide ClashNow; hide Orderly;
    hide PrepareResume; hide NewReqs; hide JumpBehindTest; hide Conserved; hide KeptApart; hide EndOfEx; hide Clashes;
    InvIsOrderly(s.cpu, s.log);
    PanicsExactly(s.cpu, s.log, s.port);
    TickRefines(s.cpu, s.log, s.port);
    TickFlight(s.cpu, s.log, s.port, s.inDram);
  }

  lemma FlightStep(s: MemRun, ev: Ev, prog: Program, s0: Spec)
    requires Safe(s, prog, s0) && Passes(s, ev)
    requires StepOne(s, ev).fetched > s.fetched ==> Allowed(prog, FetchSteps(prog, s0, s.fetched))
    ensures Safe(StepOne(s, ev), prog, s0)
    ensures ev == TickNow && StepOne(s, ev).port.pimResp != s.port.pimResp ==>
              ConsumesOwn(s.cpu.active, s.port, s.inDram, StepOne(s, ev).port)
  {
    hide Inv; hide OneIn; hide Tick; hide Abs; hide LogAfter; hide Decided; hide Allowed; hide FetchSteps;
    hide ConsumesOwn; hide Passes; hide PrepareResume;
    InvKeyed(s.cpu, s.log);
    match ev
    case TickNow => TickStep(s, prog, s0);
    case PauseNow =>
      PauseKeeps(s.cpu, s.log);
      SignalFlight(s.cpu, s.port, s.inDram);
    case ResumeNow =>
      ResumeKeeps(s.cpu, s.log);
      SignalFlight(s.cpu, s.port, s.inDram);
    case Issue(id, time) => IssueFlight(s.cpu.active, s, id, time);
    case Answer(k) => AnswerFlight(s.cpu.active, s, k);
    case Turn(m) => TurnFlight(s.cpu.active, s, m);
  }

  lemma TurnFlight(m: ActiveMap, s: MemRun, mode: PortalMode)
    requires OneIn(m, s.port, s.inDram)
    ensures OneIn(m, s.port.(mode := mode), s.inDram)
  {
  }

  /** Response identity. Responses are matched on address, direction and origin only, yet in every run --
      whatever the DRAM's timing, pauses and host turns -- up to a tick that takes an exit, panics or
      fetches an instruction that faults, at most one request of the processor is in flight, it is the one
      the waiting block made, and a tick that takes a response takes the answer to exactly that request. */
  lemma {:induction false} OwnResponses(r: Flight, n: nat)
    requires IsFlight(r) && n <= |r.evs| && AllPass(r, n)
    requires AllAllowed(r.states[0].cpu.prog, Abs(r.states[0].cpu, []), r.states[n].fetched)
    ensures Safe(r.states[n], r.states[0].cpu.prog, Abs(r.states[0].cpu, []))
    ensures |InFlightReqs(r.states[n])| <= 1
    ensures n > 0 && r.evs[n - 1] == TickNow && r.states[n].port.pimResp != r.states[n - 1].port.pimResp ==>
              ConsumesOwn(r.states[n - 1].cpu.active, r.states[n - 1].port, r.states[n - 1].inDram, r.states[n].port)
  {
    hide StepOne; hide ConsumesOwn; hide FetchSteps; hide Abs; hide Allowed; hide Inv; hide BlockIs; hide IsOwn;
    hide Passes;
    var prog, s0 := r.states[0].cpu.prog, Abs(r.states[0].cpu, []);
    if n == 0 {
      NoSteps(prog, s0);
    } else {
      assert Moves(r, n - 1);
      FlightGrows(r.states[n - 1], r.evs[n - 1]);
      OwnResponses(r, n - 1);
      FlightStep(r.states[n - 1], r.evs[n - 1], prog, s0);
    }
  }

  lemma NoSteps(prog: Program, s0: Spec)
    ensures FetchSteps(prog, s0, 0) == s0
  {
  }
}
