/** Taking turns: when an engine decides to change sides, how many requests a turn of the host serves, and for
    how many ticks a change of sides holds both. */
module EngineTurns {
  import opened DramPortals
  import opened DramWrappers
  import opened EngineSpec
  import opened EngineProcessors
  import opened EngineExclusive
  import opened EngineNumbers
  import opened EngineRuns
  import opened EngineCommands
  import B = BootFsm
  import C = CpuPipeline
  import P = PePipeline
  import EngineConservation

  // ---- the parts of a tick ----

  /** Before scheduling only processor, commands, completions, portal and DRAM have moved. */
  lemma PartsKeep(phys: AddrMap, e: Engine, env: Env)
    requires Exclusive(e) && e.sched != Unconfigured && Legal(phys, e, env)
    ensures var e1 := Collect(phys, Offered(e, env), env.completions);
            && BeforeSchedule(e1) && e1.proc.Cgo? == e.proc.Cgo?
            && e1 == e.(proc := e1.proc, cmdQueue := e1.cmdQueue, cmdDone := e1.cmdDone, hostDone := e1.hostDone,
                        portal := e1.portal, dram := e1.dram)
  {
    hide ProcInBank; hide Sides; hide NonePim; hide Outstanding; hide Collect; hide DrainPort; hide TickProc;
    hide ProcessCmds;
    OfferedKeeps(e, env);
    ProcTick(e);
    CmdsTouch(TickProc(e));
    CollectKeeps(phys, Offered(e, env), env.completions);
  }

  // ---- changes of sides ----

  /** The ticks a change of sides holds: a PE is given time to pause and to resume, a CPU tells itself. */
  function HoldOf(e: Engine): nat {
    if e.proc.Cgo? then 0 else if e.mode == ServePim then e.pauseCycles else e.resumeCycles
  }

  /** The engine keeps serving its side, or a change of sides begins. */
  predicate StaysOrLeaves(e: Engine, e': Engine) {
    e'.next == e.mode || (e'.next == SwitchDelay && e'.lastService == e.mode && e'.delay == HoldOf(e))
  }

  lemma CgoBegins(e: Engine, idle: bool)
    requires e.next == e.mode != SwitchDelay && e.proc.Cgo?
    ensures StaysOrLeaves(e, ScheduleCgo(e, idle))
  {
    hide BatchSize; hide WantsHost; hide EngineSpec.SubmitAll; hide C.SignalPause; hide C.SignalResume; hide B.Reversed;
    BatchFits(e);
  }

  lemma SelectsBegin(e: Engine, idle: bool)
    requires e.next == e.mode && e.proc.Fgo?
    ensures e.mode == ServePim ==> StaysOrLeaves(e, SelectInPim(e, idle))
    ensures e.mode == ServeHost ==> StaysOrLeaves(e, SelectInHost(e, idle))
  {
    hide PimReady; hide P.AllowNext;
  }

  lemma FgoBegins(e: Engine, idle: bool)
    requires e.next == e.mode != SwitchDelay && e.proc.Fgo?
    ensures StaysOrLeaves(e, ScheduleFgo(e, idle))
  {
    hide Drained; hide SelectInPim; hide SelectInHost; hide P.HasFinished;
    SelectsBegin(NoticePim(e), idle);
    SelectsBegin(NoticeHost(e, idle), idle);
  }

  lemma ChangeBegins(e: Engine, idle: bool)
    requires BeforeSchedule(e) && e.sched != Unconfigured && e.mode != SwitchDelay
    ensures StaysOrLeaves(e, Schedule(e, idle))
  {
    hide Sides; hide ProcInBank; hide NonePim; hide ScheduleCgo; hide ScheduleFgo; hide EngineSpec.SubmitAll;
    hide B.Reversed;
    match e.sched
    case HostCgoShare => CgoBegins(e, idle);
    case HostFgoShare => FgoBegins(e, idle);
    case _ =>
  }

  /** Nothing keeps the side that was served: its stack, the DRAM and, for a CPU, its acknowledgement. */
  predicate LetsGo(e: Engine, idle: bool) {
    && e.dram.pending == [] && idle
    && (if e.lastService == ServePim then e.portal.pimReq == [] && (e.proc.Cgo? ==> e.proc.cpu.pause.ready)
        else e.portal.hostReq == [])
  }

  /** A change of sides goes on while ticks are left, and then until the side lets go. */
  lemma ChangeGoesOn(e: Engine, idle: bool)
    requires BeforeSchedule(e) && e.mode == SwitchDelay
    ensures var e' := Schedule(e, idle);
            && (e'.next != SwitchDelay <==> e.delay == 0 && LetsGo(e, idle))
            && (e'.next != SwitchDelay ==> e'.next == if e.lastService == ServePim then ServeHost else ServePim)
            && (e'.next == SwitchDelay ==>
                  e'.lastService == e.lastService && e'.delay == if e.delay > 0 then e.delay - 1 else 0)
  {
    hide Sides; hide ProcInBank; hide NonePim;
  }

  /** The ticks between two events. */
  function Ticks(r: Trace, n: nat, m: nat): nat
    requires n <= m <= |r.evs|
  {
    if n == m then 0 else Ticks(r, n, m - 1) + if r.evs[m - 1].TickEv? then 1 else 0
  }

  /** From event `t`, a tick in which a change of sides begins, up to event `m` the engine serves nobody. */
  ghost predicate Changing(r: Trace, t: nat, m: nat) {
    && |r.states| == |r.evs| + 1 && t < m <= |r.evs| && r.evs[t].TickEv?
    && r.states[t].engine.mode != SwitchDelay
    && forall i :: t < i <= m ==> r.states[i].engine.mode == SwitchDelay
  }

  lemma HostKeepsMode(phys: AddrMap, s: RunState, ev: Event)
    requires Exclusive(s.engine) && Allowed(phys, s.engine, ev) && !ev.TickEv?
    ensures var e, e' := s.engine, RunOne(phys, s, ev).engine;
            && e'.proc.Cgo? == e.proc.Cgo? && e.hostPool <= e'.hostPool
            && (e.sched != Unconfigured ==> e'.sched == e.sched && e'.mode == e.mode && e'.next == e.next)
            && e'.delay == e.delay && e'.lastService == e.lastService
            && e'.memWatermark == e.memWatermark && e'.memRec == e.memRec && e'.pimRec == e.pimRec
            && e'.pimWatermark == e.pimWatermark && (e.sched != Unconfigured ==> e'.firstSwitch == e.firstSwitch)
  {
    hide Legal; hide Sides; hide ProcInBank; hide NonePim;
  }

  lemma {:induction false} DelayLeft(phys: AddrMap, r: Trace, proc: Processor, t: nat, m: nat)
    requires IsRun(phys, r, proc) && Changing(r, t, m)
    ensures var e, hold := r.states[m].engine, HoldOf(r.states[t].engine);
            && e.mode == SwitchDelay && e.lastService == r.states[t].engine.mode && e.sched != Unconfigured
            && e.delay == if Ticks(r, t + 1, m) < hold then hold - Ticks(r, t + 1, m) else 0
  {
    hide RunOne; hide Allowed; hide ProcInBank; hide NewEngine; hide EngineRuns.Good; hide LetsGo; hide HoldOf;
    EngineIsSound(phys, r, proc, m - 1);
    assert Linked(phys, r, m - 1);
    var s, ev := r.states[m - 1], r.evs[m - 1];
    if t + 1 == m {
      OneBegins(phys, s, ev);
    } else {
      DelayLeft(phys, r, proc, t, m - 1);
      OneGoesOn(phys, s, ev);
    }
  }

  /** How long a change of sides takes. In every run of an engine: for as many ticks as the PE is given (none
      for a CPU) nobody is served; after them the other side is served in the first tick that finds the side
      that was served done, and in no earlier one. */
  lemma ChangeTakes(phys: AddrMap, r: Trace, proc: Processor, t: nat, m: nat)
    requires IsRun(phys, r, proc) && Changing(r, t, m) && m < |r.evs| && r.evs[m].TickEv?
    ensures var e, hold := r.states[m].engine, HoldOf(r.states[t].engine);
            && Compatible(e.proc, e.sched)
            && var e1 := Collect(phys, Offered(e, r.evs[m].env), r.evs[m].env.completions);
               && e1.lastService == r.states[t].engine.mode
               && (r.states[m + 1].engine.mode != SwitchDelay <==>
                     Ticks(r, t + 1, m) >= hold && LetsGo(e1, r.evs[m].env.idle))
               && (r.states[m + 1].engine.mode != SwitchDelay ==>
                     r.states[m + 1].engine.mode == if r.states[t].engine.mode == ServePim then ServeHost else ServePim)
  {
    hide RunOne; hide Allowed; hide ProcInBank; hide NewEngine; hide EngineRuns.Good; hide LetsGo; hide HoldOf;
    hide Changing; hide Collect; hide Offered;
    DelayLeft(phys, r, proc, t, m);
    EngineIsSound(phys, r, proc, m);
    assert Linked(phys, r, m);
    OneGoesOn(phys, r.states[m], r.evs[m]);
  }

  lemma OneBegins(phys: AddrMap, s: RunState, ev: Event)
    requires EngineRuns.Good(s) && Allowed(phys, s.engine, ev) && ev.TickEv? && s.engine.mode != SwitchDelay
    ensures var e, e' := s.engine, RunOne(phys, s, ev).engine;
            && e'.sched == e.sched && e.sched != Unconfigured
            && (e'.mode == SwitchDelay ==> e'.lastService == e.mode && e'.delay == HoldOf(e))
  {
    hide Sides; hide ProcInBank; hide NonePim; hide Unnumbered; hide EngineConservation.InEngine; hide Legal;
    hide Numbered; hide Schedule; hide Collect; hide Offered;
    PartsKeep(phys, s.engine, ev.env);
    var e1 := Collect(phys, Offered(s.engine, ev.env), ev.env.completions);
    ChangeBegins(e1, ev.env.idle);
    ScheduleLeaves(e1, ev.env.idle);
  }

  lemma OneGoesOn(phys: AddrMap, s: RunState, ev: Event)
    requires EngineRuns.Good(s) && Allowed(phys, s.engine, ev) && s.engine.mode == SwitchDelay
    requires s.engine.sched != Unconfigured
    ensures var e, e' := s.engine, RunOne(phys, s, ev).engine;
            && e'.sched == e.sched
            && (!ev.TickEv? ==> e'.mode == SwitchDelay && e'.delay == e.delay && e'.lastService == e.lastService)
            && (ev.TickEv? ==>
                  && Compatible(e.proc, e.sched)
                  && var e1 := Collect(phys, Offered(e, ev.env), ev.env.completions);
                     && e1.lastService == e.lastService
                     && (e'.mode != SwitchDelay <==> e.delay == 0 && LetsGo(e1, ev.env.idle))
                     && (e'.mode != SwitchDelay ==>
                           e'.mode == if e.lastService == ServePim then ServeHost else ServePim)
                     && (e'.mode == SwitchDelay ==>
                           e'.lastService == e.lastService && e'.delay == if e.delay > 0 then e.delay - 1 else 0))
  {
    hide Sides; hide ProcInBank; hide NonePim; hide Unnumbered; hide EngineConservation.InEngine; hide Legal;
    hide Numbered; hide Schedule; hide Collect; hide Offered; hide LetsGo;
    if ev.TickEv? {
      PartsKeep(phys, s.engine, ev.env);
      var e1 := Collect(phys, Offered(s.engine, ev.env), ev.env.completions);
      ChangeGoesOn(e1, ev.env.idle);
      ScheduleLeaves(e1, ev.env.idle);
    } else {
      HostKeepsMode(phys, s, ev);
    }
  }

  /** The engine's clock tells the ticks. */
  lemma {:induction false} ClockTells(phys: AddrMap, r: Trace, proc: Processor, n: nat)
    requires IsRun(phys, r, proc) && n <= |r.evs|
    ensures r.states[n].engine.clock == Ticks(r, 0, n)
  {
    hide RunOne; hide Allowed; hide ProcInBank; hide EngineRuns.Good;
    if n > 0 {
      ClockTells(phys, r, proc, n - 1);
      EngineIsSound(phys, r, proc, n - 1);
      assert Linked(phys, r, n - 1);
      OneClock(phys, r.states[n - 1], r.evs[n - 1]);
    }
  }

  lemma OneClock(phys: AddrMap, s: RunState, ev: Event)
    requires EngineRuns.Good(s) && Allowed(phys, s.engine, ev)
    ensures RunOne(phys, s, ev).engine.clock == s.engine.clock + if ev.TickEv? then 1 else 0
  {
    hide Sides; hide ProcInBank; hide NonePim; hide Unnumbered; hide EngineConservation.InEngine; hide Legal;
    hide Numbered; hide Schedule; hide Collect; hide Offered;
    if ev.TickEv? {
      PartsKeep(phys, s.engine, ev.env);
      ScheduleKeepsClock(Collect(phys, Offered(s.engine, ev.env), ev.env.completions), ev.env.idle);
    }
  }

  lemma ScheduleKeepsClock(e: Engine, idle: bool)
    requires BeforeSchedule(e)
    ensures Schedule(e, idle).clock == e.clock
  {
    hide Sides; hide ProcInBank; hide NonePim; hide BatchSize; hide WantsHost; hide EngineSpec.SubmitAll;
    hide C.SignalPause; hide C.SignalResume; hide P.HasFinished; hide P.AllowNext; hide Drained; hide PimReady;
    hide B.Reversed; hide SwitchDone;
    BatchFits(e);
  }

  // ---- the delays the host has set ----

  /** The pause and resume delays of the latest event that sets them. */
  function LastDelays(evs: seq<Event>, n: nat): (nat, nat)
    requires n <= |evs|
  {
    if n == 0 then (0, 0)
    else if evs[n - 1].Delays? then (evs[n - 1].pause, evs[n - 1].resume)
    else LastDelays(evs, n - 1)
  }

  lemma ScheduleKeepsDelays(e: Engine, idle: bool)
    requires BeforeSchedule(e)
    ensures Schedule(e, idle).pauseCycles == e.pauseCycles && Schedule(e, idle).resumeCycles == e.resumeCycles
  {
    hide Sides; hide ProcInBank; hide NonePim; hide BatchSize; hide WantsHost; hide EngineSpec.SubmitAll;
    hide C.SignalPause; hide C.SignalResume; hide P.HasFinished; hide P.AllowNext; hide Drained; hide PimReady;
    hide B.Reversed; hide SwitchDone;
    BatchFits(e);
  }

  lemma OneDelays(phys: AddrMap, s: RunState, ev: Event)
    requires EngineRuns.Good(s) && Allowed(phys, s.engine, ev)
    ensures var e, e' := s.engine, RunOne(phys, s, ev).engine;
            (e'.pauseCycles, e'.resumeCycles) ==
              if ev.Delays? then (ev.pause, ev.resume) else (e.pauseCycles, e.resumeCycles)
    ensures ev.Delays? && s.engine.proc.Cgo? ==>
              var c := RunOne(phys, s, ev).engine.proc.cpu.pause;
              c.pauseDelay == ev.pause && c.resumeDelay == ev.resume
  {
    hide Sides; hide ProcInBank; hide NonePim; hide Unnumbered; hide EngineConservation.InEngine; hide Legal;
    hide Numbered; hide Schedule; hide Collect; hide Offered;
    if ev.TickEv? {
      PartsKeep(phys, s.engine, ev.env);
      ScheduleKeepsDelays(Collect(phys, Offered(s.engine, ev.env), ev.env.completions), ev.env.idle);
    }
  }

  /** The delays in force are the ones set last: the first holds when the processor is to pause, the second when it is
      to resume. */
  lemma {:induction false} DelaysAreLast(phys: AddrMap, r: Trace, proc: Processor, n: nat)
    requires IsRun(phys, r, proc) && n <= |r.evs|
    ensures (r.states[n].engine.pauseCycles, r.states[n].engine.resumeCycles) == LastDelays(r.evs, n)
  {
    hide RunOne; hide Allowed; hide ProcInBank; hide EngineRuns.Good;
    if n > 0 {
      DelaysAreLast(phys, r, proc, n - 1);
      EngineIsSound(phys, r, proc, n - 1);
      assert Linked(phys, r, n - 1);
      OneDelays(phys, r.states[n - 1], r.evs[n - 1]);
    }
  }

  // ---- the turns of a CPU and the host ----

  /** The ticks since the CPU's turn began. */
  function PimTicks(r: Trace, n: nat): nat
    requires |r.states| == |r.evs| + 1 && n <= |r.evs|
  {
    if n == 0 || r.states[n].engine.mode != ServePim || r.states[n - 1].engine.mode != ServePim then 0
    else PimTicks(r, n - 1) + if r.evs[n - 1].TickEv? then 1 else 0
  }

  /** The host has had a turn. */
  ghost predicate HadTurn(r: Trace, n: nat)
    requires |r.states| == |r.evs| + 1 && n <= |r.evs|
  {
    exists i :: 0 <= i <= n && r.states[i].engine.mode == ServeHost
  }

  /** The counters of the scheduler say how long the CPU's turn has lasted, and that a turn of the host is one
      request. */
  ghost predicate TurnsOk(e: Engine, pimTicks: nat, had: bool) {
    && e.memWatermark == 0
    && (e.sched == Unconfigured ==>
          e.mode == ServePim && !e.firstSwitch && e.pimRec == 0 && e.memRec == 0 && pimTicks == 0 && !had)
    && (e.sched == HostCgoShare ==>
          && e.memRec == 0 && (e.mode != ServePim ==> e.pimRec == 0 && e.firstSwitch)
          && (e.mode == ServePim ==>
                e.pimRec == pimTicks && e.firstSwitch == had && (e.firstSwitch ==> e.pimWatermark == 1))
          && (e.mode == ServeHost ==> e.hostPool != [] && had)
          && (e.mode == SwitchDelay ==>
                if e.lastService == ServePim then e.hostPool != [] else e.pimWatermark == 1 && had))
  }

  /** One decision of the scheduler. */
  lemma TurnStep(e: Engine, idle: bool, pimTicks: nat, had: bool)
    requires BeforeSchedule(e) && e.sched == HostCgoShare && TurnsOk(e, pimTicks, had)
    ensures var e' := Schedule(e, idle);
            && TurnsOk(e'.(mode := e'.next), if e.mode == ServePim then pimTicks + 1 else 0,
                       had || e'.next == ServeHost)
            && (e.mode == ServePim ==>
                  && e'.hostPool == e.hostPool && (e'.next == SwitchDelay || e'.next == ServePim)
                  && (e'.next == SwitchDelay <==> e.hostPool != [] && (had ==> pimTicks >= 1)))
            && (e.mode == ServeHost ==>
                  && e'.hostPool == e.hostPool[1..] && e'.next == SwitchDelay
                  && e'.portal.hostReq == e.portal.hostReq + [e.hostPool[0]])
  {
    hide Sides; hide ProcInBank; hide C.SignalPause; hide C.SignalResume; hide EngineSpec.SubmitAll; hide B.Reversed;
    hide SwitchDone;
    if e.mode == ServeHost {
      assert BatchSize(e) == 1;
      assert e.hostPool[..1] == [e.hostPool[0]];
      OneReversed(e.hostPool[0]);
      assert e.hostPool[0] in e.hostPool;
      SubmitKeeps(e.portal, [e.hostPool[0]]);
    }
  }

  lemma OneReversed(q: DramReq)
    ensures B.Reversed([q]) == [q]
  {
  }

  lemma KeepsWatermark(e: Engine, idle: bool)
    requires BeforeSchedule(e)
    ensures Schedule(e, idle).memWatermark == e.memWatermark
  {
    hide Sides; hide ProcInBank; hide NonePim; hide BatchSize; hide WantsHost; hide EngineSpec.SubmitAll;
    hide C.SignalPause; hide C.SignalResume; hide P.HasFinished; hide P.AllowNext; hide Drained; hide PimReady;
    hide B.Reversed; hide SwitchDone;
    BatchFits(e);
  }

  lemma ConfigureTurns(phys: AddrMap, s: RunState, ev: Event)
    requires Allowed(phys, s.engine, ev) && ev.Configure? && s.engine.sched == Unconfigured
    ensures var e, e' := s.engine, RunOne(phys, s, ev).engine;
            e'.sched == HostCgoShare ==> e'.mode == ServePim && e'.firstSwitch == e.firstSwitch
    ensures var e, e' := s.engine, RunOne(phys, s, ev).engine;
            e'.sched == Unconfigured ==> e' == e
  {
  }

  lemma SchedStays(phys: AddrMap, s: RunState, ev: Event)
    requires Allowed(phys, s.engine, ev) && !ev.TickEv? && !(ev.Configure? && s.engine.sched == Unconfigured)
    ensures var e, e' := s.engine, RunOne(phys, s, ev).engine;
            e'.sched == e.sched && e'.mode == e.mode && e'.firstSwitch == e.firstSwitch
  {
    hide Legal;
  }

  lemma TurnEvent(phys: AddrMap, s: RunState, ev: Event, pimTicks: nat, had: bool)
    requires EngineRuns.Good(s) && Allowed(phys, s.engine, ev) && TurnsOk(s.engine, pimTicks, had)
    requires s.engine.mode != ServePim ==> pimTicks == 0
    ensures var e, e' := s.engine, RunOne(phys, s, ev).engine;
            && TurnsOk(e', if e'.mode != ServePim || e.mode != ServePim then 0
                           else pimTicks + if ev.TickEv? then 1 else 0,
                       had || e'.mode == ServeHost)
            && (ev.TickEv? && e.sched == HostCgoShare && e.mode == ServePim ==>
                  && e'.hostPool == e.hostPool && (e'.mode == SwitchDelay || e'.mode == ServePim)
                  && (e'.mode == SwitchDelay <==> e.hostPool != [] && (had ==> pimTicks >= 1)))
            && (ev.TickEv? && e.sched == HostCgoShare && e.mode == ServeHost ==>
                  && e.hostPool != [] && e'.hostPool == e.hostPool[1..] && e'.mode == SwitchDelay
                  && e'.portal.hostReq != [] && e'.portal.hostReq[|e'.portal.hostReq| - 1] == e.hostPool[0])
  {
    hide Sides; hide ProcInBank; hide NonePim; hide Unnumbered; hide EngineConservation.InEngine; hide Legal;
    hide Numbered; hide Collect; hide Offered; hide Schedule;
    if ev.TickEv? {
      PartsKeep(phys, s.engine, ev.env);
      var e1 := Collect(phys, Offered(s.engine, ev.env), ev.env.completions);
      ScheduleLeaves(e1, ev.env.idle);
      KeepsWatermark(e1, ev.env.idle);
      if s.engine.sched == HostCgoShare {
        TurnStep(e1, ev.env.idle, pimTicks, had);
      }
    } else {
      HostKeepsMode(phys, s, ev);
      if ev.Configure? && s.engine.sched == Unconfigured {
        ConfigureTurns(phys, s, ev);
      } else {
        SchedStays(phys, s, ev);
      }
    }
  }

  lemma {:induction false} TurnsAlways(phys: AddrMap, r: Trace, proc: Processor, n: nat)
    requires IsRun(phys, r, proc) && n <= |r.evs|
    ensures TurnsOk(r.states[n].engine, PimTicks(r, n), HadTurn(r, n))
  {
    hide RunOne; hide Allowed; hide ProcInBank; hide EngineRuns.Good; hide TurnsOk; hide HadTurn;
    if n == 0 {
      FirstTurn(r, proc);
    } else {
      TurnsAlways(phys, r, proc, n - 1);
      EngineIsSound(phys, r, proc, n - 1);
      assert Linked(phys, r, n - 1);
      TurnEvent(phys, r.states[n - 1], r.evs[n - 1], PimTicks(r, n - 1), HadTurn(r, n - 1));
      TurnHad(r, n);
    }
  }

  lemma FirstTurn(r: Trace, proc: Processor)
    requires |r.states| == |r.evs| + 1 && r.states[0] == RunState(NewEngine(proc), [], [])
    ensures TurnsOk(r.states[0].engine, 0, HadTurn(r, 0))
  {
  }

  lemma TurnHad(r: Trace, n: nat)
    requires |r.states| == |r.evs| + 1 && 0 < n <= |r.evs|
    ensures HadTurn(r, n) <==> HadTurn(r, n - 1) || r.states[n].engine.mode == ServeHost
  {
    if HadTurn(r, n - 1) {
      var i :| 0 <= i <= n - 1 && r.states[i].engine.mode == ServeHost;
    }
  }

  /** Who gets the next turn. In every run of an engine that shares its DRAM between CPU and host: the CPU's turn
      ends in a tick exactly if a host request waits and, once the host has had a turn, the CPU's turn has lasted
      a tick; and the host's turn is one tick in which its oldest request, and no other, goes to the portal. */
  lemma TurnsTaken(phys: AddrMap, r: Trace, proc: Processor, n: nat)
    requires IsRun(phys, r, proc) && n < |r.evs| && r.evs[n].TickEv? && r.states[n].engine.sched == HostCgoShare
    ensures var e, e' := r.states[n].engine, r.states[n + 1].engine;
            && (e.mode == ServePim ==>
                  && e'.hostPool == e.hostPool && (e'.mode == SwitchDelay || e'.mode == ServePim)
                  && (e'.mode == SwitchDelay <==> e.hostPool != [] && (HadTurn(r, n) ==> PimTicks(r, n) >= 1)))
            && (e.mode == ServeHost ==>
                  && e.hostPool != [] && e'.hostPool == e.hostPool[1..] && e'.mode == SwitchDelay
                  && e'.portal.hostReq != [] && e'.portal.hostReq[|e'.portal.hostReq| - 1] == e.hostPool[0])
  {
    hide RunOne; hide Allowed; hide ProcInBank; hide EngineRuns.Good; hide TurnsOk; hide HadTurn; hide NewEngine;
    TurnsAlways(phys, r, proc, n);
    EngineIsSound(phys, r, proc, n);
    assert Linked(phys, r, n);
    TurnEvent(phys, r.states[n], r.evs[n], PimTicks(r, n), HadTurn(r, n));
  }
}
