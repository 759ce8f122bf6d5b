/** The memory stop of a processing element always consumes the response to its own request. */
module PeResponses {
  import opened Words
  import opened DramPortals
  import opened PePipeline
  import S = Scoreboard

  /** A processing element with the DRAM behind its portal. */
  datatype MemRun = MemRun(pe: Pe, port: Portal, inDram: seq<DramReq>)

  datatype Ev =
    | TickNow
    | Push(job: Job)
    | Allow
    | Take
    | Poll
    | Issue(id: nat, time: nat)   // the DRAM accepts the top request
    | Answer(i: nat)              // the DRAM completes a request it holds
    | Turn(mode: PortalMode)      // the engine serves the other side

  function StepOne(s: MemRun, ev: Ev): MemRun {
    match ev
    case TickNow => var (p', port') := Tick(s.pe, s.port); MemRun(p', port', s.inDram)
    case Push(j) => s.(pe := PushHost(s.pe, j))
    case Allow => s.(pe := AllowNext(s.pe))
    case Take => s.(pe := TakeCompleted(s.pe).1)
    case Poll => s.(pe := HasFinished(s.pe).1)
    case Issue(id, time) =>
      if s.port.mode != PIM || s.port.pimReq == [] then s
      else
        var (q, p) := s.port.GetOne();
        s.(port := p, inDram := s.inDram + [q.value.(id := Some(id), issueTime := Some(time))])
    case Answer(i) =>
      if i >= |s.inDram| || !s.inDram[i].isPim then s
      else s.(port := s.port.Complete(s.inDram[i]), inDram := s.inDram[..i] + s.inDram[i + 1..])
    case Turn(m) => s.(port := s.port.(mode := m))
  }

  function InFlightReqs(port: Portal, inDram: seq<DramReq>): seq<DramReq> {
    port.pimReq + inDram + port.pimResp
  }

  /** A request is in flight exactly while the stop machine waits, and it is the machine's own. */
  predicate OneIn(stop: Stop, port: Portal, inDram: seq<DramReq>) {
    var out := InFlightReqs(port, inDram);
    if stop.st.Waiting? then |out| == 1 && stop.req.Some? && stop.req.value.isPim && stop.req.value.Matches(out[0])
    else out == []
  }

  /** The one response there was answered the request the machine waits for. */
  predicate ConsumesOwn(stop: Stop, port: Portal, inDram: seq<DramReq>, port': Portal) {
    && stop.st.Waiting? && stop.req.Some? && port.pimReq == [] && inDram == [] && |port.pimResp| == 1
    && stop.req.value.Matches(port.pimResp[0]) && port'.pimResp == []
  }

  lemma StopFlight(stop: Stop, r: S.Reason, port: Portal, inDram: seq<DramReq>)
    requires OneIn(stop, port, inDram)
    ensures var (ops, stop', port') := StopDecision(stop, r, port);
            && OneIn(stop', port', inDram)
            && (port'.pimResp != port.pimResp ==> ConsumesOwn(stop, port, inDram, port'))
  {
    var out := InFlightReqs(port, inDram);
    var s := Woken(stop, r);
    var (stop', port') := AdvanceStop(s, r, port);
    if s.st.Submit? && r.MemBlock? {
      assert out == [] && port.pimReq == [] && inDram == [] && port.pimResp == [];
      assert InFlightReqs(port', inDram) == [stop'.req.value];
    } else if s.st.Waiting? {
      var i := FirstMatch(port.pimResp, stop.req.value);
      if i < |port.pimResp| {
        assert |port.pimReq| + |inDram| + |port.pimResp| == 1;
        assert port.pimResp == [port.pimResp[0]];
        assert port.pimResp[..0] + port.pimResp[1..] == [];
      }
    }
  }

  lemma StepFlight(s: MemRun, ev: Ev)
    requires OneIn(s.pe.stop, s.port, s.inDram)
    ensures var s' := StepOne(s, ev);
            && OneIn(s'.pe.stop, s'.port, s'.inDram)
            && (ev == TickNow && s'.port.pimResp != s.port.pimResp ==>
                  ConsumesOwn(s.pe.stop, s.port, s.inDram, s'.port))
  {
    hide StopDecision; hide EvalEX; hide EvalISSUE; hide CommitEx;
    var s' := StepOne(s, ev);
    var out := InFlightReqs(s.port, s.inDram);
    match ev
    case TickNow =>
      StopFlight(s.pe.stop, EvalEX(s.pe.latch, s.pe.fwd, s.pe.st.mem).reason, s.port, s.inDram);
    case Issue(id, time) =>
      if s.port.mode == PIM && s.port.pimReq != [] {
        assert |s.port.pimReq| == 1 && s.inDram == [] && s.port.pimResp == [];
        var q := s.port.pimReq[0];
        assert out == [q] && InFlightReqs(s'.port, s'.inDram) == [q.(id := Some(id), issueTime := Some(time))];
      }
    case Answer(i) =>
      if i < |s.inDram| && s.inDram[i].isPim {
        assert |s.inDram| == 1 && s.port.pimReq == [] && s.port.pimResp == [];
        assert out == [s.inDram[0]] && InFlightReqs(s'.port, s'.inDram) == [s.inDram[0]];
      }
    case _ =>
  }

  datatype Flight = Flight(evs: seq<Ev>, states: seq<MemRun>)

  ghost predicate Moves(r: Flight, i: nat)
    requires i < |r.evs| && |r.states| == |r.evs| + 1
  {
    r.states[i + 1] == StepOne(r.states[i], r.evs[i])
  }

  /** The run starts with a new processing element and nothing of a processor anywhere. */
  ghost predicate IsFlight(r: Flight) {
    && |r.states| == |r.evs| + 1 && r.states[0].pe == NewPe()
    && InFlightReqs(r.states[0].port, r.states[0].inDram) == []
    && forall i: nat :: i < |r.evs| ==> Moves(r, i)
  }

  /** Response identity for the processing element. Responses are matched on address, direction and
      origin only, yet in every run at most one request of the element is in flight, it is the one its
      memory stop waits for, and a tick that takes a response takes the answer to it. */
  lemma {:induction false} OwnResponses(r: Flight, n: nat)
    requires IsFlight(r) && n <= |r.evs|
    ensures OneIn(r.states[n].pe.stop, r.states[n].port, r.states[n].inDram)
    ensures |InFlightReqs(r.states[n].port, r.states[n].inDram)| <= 1
    ensures n > 0 && r.evs[n - 1] == TickNow && r.states[n].port.pimResp != r.states[n - 1].port.pimResp ==>
              ConsumesOwn(r.states[n - 1].pe.stop, r.states[n - 1].port, r.states[n - 1].inDram, r.states[n].port)
  {
    hide StepOne; hide ConsumesOwn;
    if n > 0 {
      OwnResponses(r, n - 1);
      assert Moves(r, n - 1);
      StepFlight(r.states[n - 1], r.evs[n - 1]);
    }
  }
}
