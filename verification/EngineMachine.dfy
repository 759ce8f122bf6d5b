/** The engine as an object: queues, modes and delays updated in place. Processor, portal and DRAM are
    fields holding values here; their own updates in place are proved in their own modules. */
module EngineMachine {
  import opened Words
  import opened DramPortals
  import opened DramWrappers
  import opened EngineSpec
  import B = BootFsm
  import P = PePipeline
  import CpuPipeline

  lemma DrainStep(p: Portal, d: Dram, clock: nat, quota: nat)
    requires p.GetOne().0.Some? && quota > 0
    ensures var (q, p1) := p.GetOne();
            DrainPort(p, d, clock, quota) ==
            DrainPort(p1, Dram(d.pending + [Stamped(q.value, d.nextId, clock)], d.nextId + 1, d.pimMode), clock,
                  quota - 1)
  {
  }

  lemma SubmitOneMore(p: Portal, reqs: seq<DramReq>, q: DramReq)
    ensures SubmitAll(p, reqs + [q]) == SubmitAll(p, reqs).Submit(q)
  {
    assert (reqs + [q])[..|reqs + [q]| - 1] == reqs;
  }

  lemma CompleteOneMore(p: Portal, reqs: seq<DramReq>, q: DramReq)
    ensures CompleteAll(p, reqs + [q]) == CompleteAll(p, reqs).Complete(q)
  {
    assert (reqs + [q])[..|reqs + [q]| - 1] == reqs;
  }

  lemma ReversedMore<T>(s: seq<T>, i: nat)
    requires i < |s|
    ensures B.Reversed(s[i..]) == B.Reversed(s[i + 1..]) + [s[i]]
  {
    assert s[i..][1..] == s[i + 1..] && s[i..][0] == s[i];
  }

  class EngineUnit {
    var proc: Processor
    var portal: Portal
    var dram: Dram
    var hostPool: seq<DramReq>
    var hostDone: seq<DramReq>
    var cmdQueue: seq<(CgoCmd, DramReq)>
    var cmdDone: seq<DramReq>
    var sched: Sched
    var clock: nat
    var mode: Mode
    var next: Mode
    var lastService: Mode
    var pimWatermark: nat
    var pimRec: nat
    var memWatermark: nat
    var memRec: nat
    var firstSwitch: bool
    var fgoState: FgoState
    var fgoNext: Mode
    var delay: nat
    var pauseCycles: nat
    var resumeCycles: nat

    function Value(): Engine
      reads this
    {
      Engine(proc, hostPool, hostDone, cmdQueue, cmdDone, portal, dram, sched, clock,
             mode, next, lastService, pimWatermark, pimRec, memWatermark, memRec, firstSwitch,
             fgoState, fgoNext, delay, pauseCycles, resumeCycles)
    }

    constructor (proc: Processor)
      ensures Value() == NewEngine(proc)
    {
      this.proc, portal, dram := proc, EMPTY_PORTAL, NEW_DRAM;
      hostPool, hostDone, cmdQueue, cmdDone, sched, clock := [], [], [], [], Unconfigured, 0;
      mode, next, lastService, pimWatermark, pimRec, memWatermark := ServePim, ServePim, ServePim, 0, 0, 0;
      memRec, firstSwitch, fgoState, fgoNext, delay, pauseCycles, resumeCycles := 0, false, Idle, ServePim, 0, 0, 0;
    }

    // ---- configuration ----

    method ForcePimMode()
      modifies this
      ensures Value() == ForcePim(old(Value()))
    {
      mode, next := ServePim, ServePim;
      portal := portal.(mode := PIM);
      dram := dram.(pimMode := true);
    }

    method ForceHostMode()
      modifies this
      ensures Value() == ForceHost(old(Value()))
    {
      mode, next := ServeHost, ServeHost;
      portal := portal.(mode := HOST);
      dram := dram.(pimMode := false);
    }

    method SetSchedulingMode(s: Sched) returns (ok: bool)
      modifies this
      ensures (ok, Value()) == SetScheduling(old(Value()), s)
    {
      if sched != Unconfigured || s == Unconfigured || !Compatible(proc, s) {
        return false;
      }
      sched := s;
      if s == HostOnly {
        ForceHostMode();
        firstSwitch := true;
      } else {
        ForcePimMode();
      }
      ok := true;
    }

    // ---- the automaton PIM -> delay -> HOST -> delay -> PIM ----

    method SwitchDelayDone(idle: bool) returns (done: bool)
      ensures done == SwitchDone(Value(), idle)
    {
      match lastService {
        case ServePim =>
          var ready := true;
          if proc.Cgo? {
            ready := proc.cpu.pause.ready;
          }
          done := ready && delay == 0 && portal.Drained(PIM) && dram.pending == [] && idle;
        case ServeHost =>
          done := delay == 0 && portal.Drained(HOST) && dram.pending == [] && idle;
        case SwitchDelay =>
          done := false;
      }
    }

    method StepDelay(idle: bool)
      modifies this`next, this`delay, this`portal, this`dram
      ensures Value() == EngineSpec.Switch(old(Value()), SwitchDelay, idle)
    {
      hide SwitchDone;
      if delay > 0 {
        delay, next := delay - 1, SwitchDelay;
        return;
      }
      var done := SwitchDelayDone(idle);
      if !done {
        next := SwitchDelay;
      } else if lastService == ServePim {
        next := ServeHost;
        portal := portal.(mode := HOST);
        dram := dram.(pimMode := false);
      } else {
        next := ServePim;
        portal := portal.(mode := PIM);
        dram := dram.(pimMode := true);
      }
    }

    method Switch(from: Mode, idle: bool)
      modifies this`next, this`lastService, this`delay, this`portal, this`dram
      ensures Value() == EngineSpec.Switch(old(Value()), from, idle)
    {
      hide SwitchDone;
      match from {
        case ServePim =>
          next, lastService := SwitchDelay, ServePim;
          delay := if proc.Fgo? then pauseCycles else 0;
        case ServeHost =>
          next, lastService := SwitchDelay, ServeHost;
          delay := if proc.Fgo? then resumeCycles else 0;
        case SwitchDelay =>
          StepDelay(idle);
      }
    }

    // ---- schedulers ----

    /** Takes a batch from the front of the pool, one request at a time, until the watermark is passed. */
    method TakeBatch() returns (batch: seq<DramReq>)
      modifies this`hostPool, this`memRec
      ensures var n := BatchSize(old(Value()));
              && n <= |old(hostPool)| && batch == old(hostPool)[..n] && hostPool == old(hostPool)[n..]
              && memRec == old(memRec) + n
    {
      batch := [];
      while hostPool != []
        invariant |batch| <= |old(hostPool)| && batch == old(hostPool)[..|batch|]
              && hostPool == old(hostPool)[|batch|..]
        invariant memRec == old(memRec) + |batch|
        invariant |batch| <= BatchSize(old(Value()))
        invariant batch == [] || memRec <= memWatermark
        decreases |hostPool|
      {
        batch := batch + [hostPool[0]];
        hostPool := hostPool[1..];
        memRec := memRec + 1;
        if memRec > memWatermark {
          break;
        }
      }
    }

    /** The portal is a stack: submitting in reverse preserves the order of issue. */
    method SubmitReversed(batch: seq<DramReq>)
      modifies this`portal
      ensures portal == SubmitAll(old(portal), B.Reversed(batch))
    {
      var i := |batch|;
      while i > 0
        invariant 0 <= i <= |batch|
        invariant portal == SubmitAll(old(portal), B.Reversed(batch[i..]))
      {
        i := i - 1;
        ReversedMore(batch, i);
        SubmitOneMore(old(portal), B.Reversed(batch[i + 1..]), batch[i]);
        portal := portal.Submit(batch[i]);
      }
      assert batch[0..] == batch;
    }

    method CgoInPimMode(idle: bool)
      requires proc.Cgo? && mode == ServePim
      modifies this
      ensures Value() == ScheduleCgo(old(Value()), idle)
    {
      hide EngineSpec.Switch; hide CpuPipeline.SignalPause;
      var shouldSwitch := if firstSwitch then pimWatermark <= pimRec && hostPool != [] else |hostPool| > memWatermark;
      if shouldSwitch {
        firstSwitch, pimRec := true, 0;
        if proc.cpu.started {
          proc := proc.(cpu := CpuPipeline.SignalPause(proc.cpu));
        }
        Switch(ServePim, idle);
      } else {
        pimRec := pimRec + 1;
      }
    }

    method SubmitBatch()
      modifies this`hostPool, this`memRec, this`portal
      ensures var e := old(Value());
              var n := BatchSize(e);
              && n <= |e.hostPool|
              && Value() == e.(hostPool := e.hostPool[n..], memRec := e.memRec + n,
                               portal := SubmitAll(e.portal, B.Reversed(e.hostPool[..n])))
    {
      hide BatchSize; hide EngineSpec.SubmitAll;
      var batch := TakeBatch();
      SubmitReversed(batch);
    }

    method CgoInHostMode(idle: bool)
      requires proc.Cgo? && mode == ServeHost
      modifies this
      ensures Value() == ScheduleCgo(old(Value()), idle)
    {
      hide BatchSize; hide EngineSpec.SubmitAll; hide EngineSpec.Switch; hide EngineSpec.SignalResume;
      SubmitBatch();
      if memRec > memWatermark || hostPool == [] {
        EndBatch();
        Switch(ServeHost, idle);
      }
    }

    method EndBatch()
      requires proc.Cgo?
      modifies this`pimWatermark, this`memRec, this`proc
      ensures var e := old(Value());
              Value() == e.(pimWatermark := e.memRec, memRec := 0, proc := EngineSpec.SignalResume(e.proc))
    {
      hide CpuPipeline.SignalResume;
      pimWatermark, memRec := memRec, 0;
      if proc.cpu.started {
        proc := proc.(cpu := CpuPipeline.SignalResume(proc.cpu));
      }
    }

    method ScheduleHostCgoShare(idle: bool)
      requires proc.Cgo?
      modifies this
      ensures Value() == ScheduleCgo(old(Value()), idle)
    {
      hide EngineSpec.Switch; hide BatchSize; hide WantsHost; hide EngineSpec.SubmitAll;
      match mode {
        case ServePim => CgoInPimMode(idle);
        case ServeHost => CgoInHostMode(idle);
        case SwitchDelay => Switch(SwitchDelay, idle);
      }
    }

    method FgoIssuePim()
      requires proc.Fgo?
      modifies this
      ensures Value() == IssuePim(old(Value()))
    {
      proc := Fgo(P.AllowNext(proc.pe));
      fgoState := PimInFlight;
    }

    method FgoIssueHost()
      requires hostPool != []
      modifies this
      ensures Value() == IssueHost(old(Value()))
    {
      var req := hostPool[0];
      hostPool := hostPool[1..];
      portal := portal.Submit(req);
      fgoState := HostInFlight;
    }

    method FgoSelectInPimMode(idle: bool)
      requires proc.Fgo? && mode == ServePim
      modifies this
      ensures Value() == SelectInPim(old(Value()), idle)
    {
      hide EngineSpec.Switch; hide P.AllowNext;
      var pimReady, hostReady := proc.pe.imem != [], hostPool != [];
      if fgoNext == ServePim && pimReady {
        FgoIssuePim();
      } else if fgoNext == ServeHost && hostReady {
        Switch(ServePim, idle);
      } else if pimReady {
        FgoIssuePim();
      } else if hostReady {
        Switch(ServePim, idle);
      }
    }

    method FgoSelectInHostMode(idle: bool)
      requires proc.Fgo? && mode == ServeHost
      modifies this
      ensures Value() == SelectInHost(old(Value()), idle)
    {
      hide EngineSpec.Switch;
      var pimReady, hostReady := proc.pe.imem != [], hostPool != [];
      if fgoNext == ServePim && pimReady {
        Switch(ServeHost, idle);
      } else if fgoNext == ServeHost && hostReady {
        FgoIssueHost();
      } else if pimReady {
        Switch(ServeHost, idle);
      } else if hostReady {
        FgoIssueHost();
      }
    }

    method ScheduleHostFgoShare(idle: bool)
      requires proc.Fgo?
      modifies this
      ensures Value() == ScheduleFgo(old(Value()), idle)
    {
      hide EngineSpec.Switch; hide SelectInPim; hide SelectInHost;
      match mode {
        case SwitchDelay =>
          Switch(SwitchDelay, idle);
        case ServePim =>
          if fgoState == PimInFlight {
            var (was, pe) := P.HasFinished(proc.pe);
            proc := Fgo(pe);
            if was {
              fgoState, fgoNext := Idle, ServeHost;
            }
          }
          if fgoState == Idle {
            FgoSelectInPimMode(idle);
          }
        case ServeHost =>
          if fgoState == HostInFlight && portal.Drained(HOST) && dram.pending == [] && idle {
            fgoState, fgoNext := Idle, ServePim;
          }
          if fgoState == Idle {
            FgoSelectInHostMode(idle);
          }
      }
    }

    method DoSchedule(idle: bool)
      requires Compatible(proc, sched)
      modifies this
      ensures Value() == Schedule(old(Value()), idle)
    {
      hide ScheduleCgo; hide ScheduleFgo; hide EngineSpec.SubmitAll;
      match sched {
        case Unconfigured =>
          assert false;
        case CgoOnly =>
          ForcePimMode();
        case HostOnly =>
          ForceHostMode();
          var all := hostPool;
          hostPool := [];
          SubmitReversed(all);
        case HostCgoShare =>
          ScheduleHostCgoShare(idle);
        case HostFgoShare =>
          ScheduleHostFgoShare(idle);
      }
    }

    // ---- the parts of a tick ----

    method ProcessOne()
      requires proc.Cgo? && cmdQueue != []
      modifies this`cmdQueue, this`cmdDone, this`proc
      ensures var (cmd, req) := old(cmdQueue)[0];
              Value() == DoCommand(old(Value()).(cmdQueue := old(cmdQueue)[1..]), cmd, req)
      ensures cmdQueue == old(cmdQueue)[1..] && proc.Cgo?
    {
      hide B.SetOn;
      var (cmd, req) := cmdQueue[0];
      cmdQueue := cmdQueue[1..];
      if cmd == StartCmd {
        if sched != HostOnly {
          proc := proc.(boot := B.SetOn(proc.boot).1);
        }
      } else {
        req := req.(payload := req.payload[0 := if proc.cpu.finished then 1 else 0]);
      }
      cmdDone := cmdDone + [req];
    }

    method ProcessCgoCmds()
      modifies this`cmdQueue, this`cmdDone, this`proc
      ensures Value() == ProcessCmds(old(Value()))
    {
      hide DoCommand;
      if proc.Fgo? {
        return;
      }
      while cmdQueue != []
        invariant proc.Cgo? && ProcessCmds(Value()) == ProcessCmds(old(Value()))
        decreases |cmdQueue|
      {
        ProcessOne();
      }
    }

    /** Hands requests to the DRAM until it refuses one; the refused one goes back on the stack. */
    method DrainCurrentPortToDram(quota: nat)
      modifies this`portal, this`dram
      ensures (portal, dram) == DrainPort(old(portal), old(dram), clock, quota)
    {
      var left := quota;
      while true
        invariant 0 <= left <= quota
        invariant DrainPort(portal, dram, clock, left) == DrainPort(old(portal), old(dram), clock, quota)
        decreases left
      {
        var (q, p) := portal.GetOne();
        if q == None {
          break;
        }
        if left == 0 {
          portal := p.Submit(q.value);
          break;
        }
        DrainStep(portal, dram, clock, left);
        portal := p;
        var id := dram.nextId;
        dram := dram.(nextId := id + 1);
        dram := dram.(pending := dram.pending + [Stamped(q.value, id, clock)]);
        left := left - 1;
      }
    }

    method CompleteInPortal(done: seq<DramReq>)
      modifies this`portal
      ensures portal == CompleteAll(old(portal), done)
    {
      for i := 0 to |done|
        invariant portal == CompleteAll(old(portal), done[..i])
      {
        assert done[..i + 1] == done[..i] + [done[i]];
        CompleteOneMore(old(portal), done[..i], done[i]);
        portal := portal.Complete(done[i]);
      }
      assert done[..|done|] == done;
    }

    method TakeResponses()
      modifies this`portal, this`hostDone
      ensures portal == old(portal).(hostResp := []) && hostDone == old(hostDone) + B.Reversed(old(portal).hostResp)
    {
      ghost var responses := portal.hostResp;
      while portal.hostResp != []
        invariant |portal.hostResp| <= |responses| && portal.hostResp == responses[..|portal.hostResp|]
        invariant portal == old(portal).(hostResp := portal.hostResp)
        invariant hostDone == old(hostDone) + B.Reversed(responses[|portal.hostResp|..])
        decreases |portal.hostResp|
      {
        ghost var k := |portal.hostResp| - 1;
        var (q, p) := portal.TakeHostCompleted();
        portal := p;
        ReversedMore(responses, k);
        hostDone := hostDone + [q.value];
      }
      assert responses[0..] == responses;
    }

    /** The answered commands, then the requests of the instructions the PE has finished. */
    method TakeJobs()
      modifies this`hostDone, this`cmdDone, this`proc
      ensures cmdDone == [] && proc == (if old(proc).Fgo? then Fgo(old(proc).pe.(completed := [])) else old(proc))
      ensures hostDone == old(hostDone) + old(cmdDone) + (if old(proc).Fgo? then old(proc).pe.completed else [])
    {
      hostDone := hostDone + cmdDone;
      cmdDone := [];
      if proc.Fgo? {
        hostDone := hostDone + proc.pe.completed;
        proc := Fgo(proc.pe.(completed := []));
      }
    }

    method DrainHostCompletions()
      modifies this`hostDone, this`cmdDone, this`proc, this`portal
      ensures Value() == DrainCompletions(old(Value()))
    {
      TakeJobs();
      TakeResponses();
    }

    method CompleteDram(phys: AddrMap, cs: seq<Completion>)
      requires Complete(phys, dram.pending, cs).Some?
      modifies this`hostDone, this`cmdDone, this`proc, this`portal, this`dram
      ensures Value() == Collect(phys, old(Value()), cs)
    {
      hide Complete; hide CompleteAll; hide DrainCompletions;
      var (done, left) := Complete(phys, dram.pending, cs).value;
      dram := dram.(pending := left);
      CompleteInPortal(done);
      DrainHostCompletions();
    }

    method ServiceDram(quota: nat)
      requires Compatible(proc, sched)
      modifies this`proc, this`portal, this`dram, this`cmdQueue, this`cmdDone
      ensures forall env: Env :: env.quota == quota ==> Value() == Offered(old(Value()), env)
    {
      hide TickProc; hide ProcessCmds; hide DrainPort;
      TickProcessor();
      ProcessCgoCmds();
      DrainCurrentPortToDram(quota);
    }

    /** One clock tick against one choice of the DRAM. A completion of something that is not
        outstanding would be a panic; the environment has to rule it out. */
    method DoTick(phys: AddrMap, env: Env)
      requires Compatible(proc, sched) && Complete(phys, Offered(Value(), env).dram.pending, env.completions).Some?
      modifies this
      ensures Value() == EngineSpec.Tick(phys, old(Value()), env)
    {
      hide Offered; hide Collect; hide Complete; hide Schedule;
      KindKept(phys, Value(), env);
      ServiceDram(env.quota);
      CompleteDram(phys, env.completions);
      DoSchedule(env.idle);
      Advance();
    }

    method Advance()
      modifies this`mode, this`clock
      ensures var e := old(Value());
              Value() == e.(mode := e.next, clock := e.clock + 1)
    {
      mode := next;
      clock := clock + 1;
    }

    method TickProcessor()
      requires Compatible(proc, sched)
      modifies this`proc, this`portal
      ensures Value() == TickProc(old(Value()))
    {
      hide CpuPipeline.Tick; hide B.BootTick; hide P.Tick;
      if sched == CgoOnly || sched == HostCgoShare {
        if proc.cpu.started {
          var (cpu, p) := CpuPipeline.Tick(proc.cpu, portal);
          proc, portal := proc.(cpu := cpu), p;
        } else if mode == ServePim {
          var (boot, l, p) := B.BootTick(proc.boot, LoadedOf(proc.cpu), portal);
          proc, portal := Cgo(WithLoaded(proc.cpu, l), boot), p;
          if boot.st == B.Finished {
            proc := proc.(cpu := proc.cpu.(started := true));
          }
        }
      } else if sched == HostFgoShare {
        if mode == ServePim && fgoState == PimInFlight {
          var (pe, p) := P.Tick(proc.pe, portal);
          proc, portal := Fgo(pe), p;
        }
      }
    }
  }
}
