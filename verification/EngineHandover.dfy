/** Handing the DRAM from a CPU to the host, over whole runs: the host is served after a bounded number of
    ticks in which the DRAM answers, unless the CPU takes an exit that leaves a request late. Then it is
    never served. */
module EngineHandover {
  import opened DramWrappers
  import opened EngineSpec
  import opened EngineProcessors
  import opened EngineExclusive
  import opened EngineRuns
  import opened EngineLiveness
  import opened EngineWaiting
  import opened EngineHandshake
  import C = CpuPipeline
  import CpuForwarding
  import CpuRuns
  import opened CpuSteps
  import F = CpuRefinement
  import H = CpuPause
  import Isa
  import K = CpuHalt
  import X = CpuFinish

  // ---- what a waiting engine can come to ----

  /** A waiting engine whose CPU stands for a running machine. */
  ghost predicate StillRuns(e: Engine, log: seq<Isa.Access>, delay: nat) {
    Yields(e, log, delay) && F.Abs(e.proc.cpu, log).arch.d.status == Isa.Running
  }

  /** Its CPU has taken an exit that leaves a request late, or one that does not. */
  ghost predicate Doomed(e: Engine, log: seq<Isa.Access>, delay: nat) {
    Halted(e, log, delay) && K.Late(e.proc.cpu)
  }

  ghost predicate Freed(e: Engine, log: seq<Isa.Access>, delay: nat) {
    Halted(e, log, delay) && !K.Late(e.proc.cpu)
  }

  /** No late request can come any more: the CPU stands for a running machine, or its exit has left no
      request late, or it finished after it had acknowledged. */
  ghost predicate Surely(e: Engine, delay: nat) {
    || (exists log :: StillRuns(e, log, delay))
    || (exists log :: Freed(e, log, delay))
    || Parted(e)
  }

  /** The engine waits for its CPU; if `sure`, no late request can come any more. */
  ghost predicate Waits(e: Engine, delay: nat, sure: bool) {
    Surely(e, delay) || (!sure && exists log :: Yields(e, log, delay))
  }

  /** The CPU takes, in the next tick, an exit that leaves a request late. */
  ghost predicate LateExit(e: Engine) {
    && e.proc.Cgo? && !e.proc.cpu.finished && CpuForwarding.ExitNow(e.proc.cpu.core) && X.LateAccess(e.proc.cpu)
  }

  /** The CPU will finish unacknowledged, or has done so. */
  ghost predicate Lost(e: Engine, delay: nat) {
    Stuck(e) || exists log :: Doomed(e, log, delay)
  }

  /** An exit costs the wait up to three ticks more. */
  function Slack(e: Engine): nat {
    if e.proc.Cgo? && (e.proc.cpu.progEndSeen || e.proc.cpu.finished) then 3 else 0
  }

  /** What an event does to a wait: `obliges` says that it is a tick in which the DRAM obliges. */
  ghost predicate Shorter(e: Engine, e': Engine, obliges: bool) {
    e.proc.Cgo? && e'.proc.Cgo? && WaitRank(e') + Bit(obliges) + Slack(e) <= WaitRank(e) + Slack(e')
  }

  ghost predicate Obliges(phys: AddrMap, e: Engine, ev: Event) {
    ev.TickEv? && Compatible(e.proc, e.sched) && Obliging(phys, e, ev.env)
  }

  // ---- one event ----

  /** What the host does changes nothing of an engine that waits but its queues. */
  ghost predicate SameWait(e: Engine, e': Engine) {
    && e'.proc == e.proc && e'.sched == e.sched && e'.mode == e.mode && e'.next == e.next && e'.delay == e.delay
    && e'.lastService == e.lastService && e'.portal == e.portal && e'.dram == e.dram && e.hostPool <= e'.hostPool
  }

  lemma HostLeaves(phys: AddrMap, s: RunState, ev: Event)
    requires Waiting(s.engine) && Exclusive(s.engine) && Allowed(phys, s.engine, ev) && !ev.TickEv? && !ev.Delays?
    ensures var e' := RunOne(phys, s, ev).engine;
            SameWait(s.engine, e') && Waiting(e') && Exclusive(e')
  {
    hide Legal; hide ProcInBank; hide Sides; hide NonePim;
    HostKeepsExclusive(phys, s.engine, ev);
    SameEngine(phys, s, ev);
  }

  lemma TickAllowed(phys: AddrMap, e: Engine, ev: Event)
    requires Allowed(phys, e, ev) && ev.TickEv?
    ensures Compatible(e.proc, e.sched) && Legal(phys, e, ev.env)
  {
    hide Legal;
  }

  lemma PartedOne(phys: AddrMap, s: RunState, ev: Event)
    requires Parted(s.engine) && Allowed(phys, s.engine, ev) && !ev.Delays?
    ensures var e := s.engine;
            var e' := RunOne(phys, s, ev).engine;
            e'.mode == ServeHost || (Parted(e') && Shorter(e, e', Obliges(phys, e, ev)) && Slack(e') == Slack(e))
    ensures !LateExit(s.engine)
  {
    hide Tick; hide Legal; hide Obliging; hide Exclusive; hide H.AckRank; hide K.HaltRank;
    if ev.TickEv? {
      TickAllowed(phys, s.engine, ev);
      PartedTick(phys, s.engine, ev.env);
    } else {
      HostLeaves(phys, s, ev);
    }
  }

  lemma HaltedOne(phys: AddrMap, s: RunState, ev: Event, log: seq<Isa.Access>, delay: nat)
    requires Halted(s.engine, log, delay) && Allowed(phys, s.engine, ev) && !ev.Delays?
    ensures var e := s.engine;
            var e' := RunOne(phys, s, ev).engine;
            && (!K.Late(e.proc.cpu) ==>
                  e'.mode == ServeHost ||
                  (Halted(e', log, delay) && !K.Late(e'.proc.cpu) && Shorter(e, e', Obliges(phys, e, ev))
                   && Slack(e') == Slack(e)))
            && (K.Late(e.proc.cpu) ==>
                  e'.mode != ServeHost && e.hostPool <= e'.hostPool &&
                  (Stuck(e') || (Halted(e', log, delay) && K.Late(e'.proc.cpu)
                                 && WaitRank(e') + Bit(ev.TickEv?) <= WaitRank(e))))
    ensures !LateExit(s.engine)
  {
    hide Tick; hide Legal; hide Obliging; hide Exclusive; hide H.AckRank; hide K.HaltRank;
    hide K.Halting; hide K.Late; hide CpuForwarding.ExitNow; hide X.LateAccess;
    NoExit(s.engine.proc.cpu, log, delay);
    HaltingSeen(s.engine.proc.cpu, log, delay);
    var e' := RunOne(phys, s, ev).engine;
    if ev.TickEv? {
      TickAllowed(phys, s.engine, ev);
      HaltedTick(phys, s.engine, ev.env, log, delay);
    } else {
      HostLeaves(phys, s, ev);
    }
    if Halted(e', log, delay) {
      HaltingSeen(e'.proc.cpu, log, delay);
    }
  }

  /** Behind a taken exit no other is taken. */
  lemma NoExit(c: C.Cpu, log: seq<Isa.Access>, delay: nat)
    requires K.Halting(c, log, delay)
    ensures !CpuForwarding.ExitNow(c.core)
  {
    hide K.Remains; hide K.Remaining;
  }

  /** An event of an engine whose CPU has not taken an exit. If the CPU takes one now, the exit decides. */
  lemma YieldsOne(phys: AddrMap, s: RunState, ev: Event, log: seq<Isa.Access>,
                  delay: nat) returns (log': seq<Isa.Access>)
    requires Yields(s.engine, log, delay) && Allowed(phys, s.engine, ev) && !ev.Delays?
    ensures var e := s.engine;
            var e' := RunOne(phys, s, ev).engine;
            if ev.TickEv? && CpuForwarding.ExitNow(e.proc.cpu.core) then
              e'.mode != ServeHost && Halted(e', log', delay) && Shorter(e, e', Obliges(phys, e, ev))
              && (K.Late(e'.proc.cpu) <==> LateExit(e))
            else
              e'.mode == ServeHost ||
              (Yields(e', log', delay) && Shorter(e, e', Obliges(phys, e, ev))
               && F.Abs(e'.proc.cpu, log') == F.Abs(e.proc.cpu, log))
  {
    hide Tick; hide Legal; hide Yielding; hide Obliging; hide Exclusive; hide H.AckRank; hide F.LogAfter; hide F.Abs;
    hide K.HaltRank; hide K.Halting; hide K.Late; hide CpuForwarding.ExitNow; hide X.LateAccess; hide C.Tick;
    log' := log;
    YieldsSeen(s.engine, log, delay);
    var e' := RunOne(phys, s, ev).engine;
    if ev.TickEv? {
      TickAllowed(phys, s.engine, ev);
      if CpuForwarding.ExitNow(s.engine.proc.cpu.core) {
        ExitedTick(phys, s.engine, ev.env, log, delay);
        HaltingSeen(e'.proc.cpu, log, delay);
      } else {
        log' := F.LogAfter(log, s.engine.portal, C.Tick(s.engine.proc.cpu, s.engine.portal).1);
        YieldsTick(phys, s.engine, ev.env, log, delay);
      }
    } else {
      HostLeaves(phys, s, ev);
    }
    if Yields(e', log', delay) {
      YieldsSeen(e', log', delay);
    }
  }

  lemma YieldsSeen(e: Engine, log: seq<Isa.Access>, delay: nat)
    requires Yields(e, log, delay)
    ensures e.proc.Cgo? && Compatible(e.proc, e.sched) && !e.proc.cpu.finished && !e.proc.cpu.progEndSeen
  {
    hide ProcInBank; hide Sides; hide F.Inv; hide H.PauseOk; hide X.Prompt;
    NotFinished(e.proc.cpu, log);
  }

  lemma RunningOne(phys: AddrMap, s: RunState, ev: Event, log: seq<Isa.Access>,
                   delay: nat) returns (log': seq<Isa.Access>)
    requires StillRuns(s.engine, log, delay) && Allowed(phys, s.engine, ev) && !ev.Delays?
    ensures var e := s.engine;
            var e' := RunOne(phys, s, ev).engine;
            e'.mode == ServeHost ||
            (StillRuns(e', log', delay) && Shorter(e, e', Obliges(phys, e, ev)) && Slack(e') == Slack(e))
    ensures !LateExit(s.engine)
  {
    hide Yields; hide Halted; hide RunOne; hide Allowed; hide Shorter; hide K.Late; hide Obliges; hide F.Abs;
    hide CpuForwarding.ExitNow; hide X.LateAccess;
    RunningYields(s.engine, log, delay);
    YieldsSeen(s.engine, log, delay);
    log' := YieldsOne(phys, s, ev, log, delay);
    if Yields(RunOne(phys, s, ev).engine, log', delay) {
      YieldsSeen(RunOne(phys, s, ev).engine, log', delay);
    }
  }

  /** A CPU that stands for a running machine takes no exit. */
  lemma RunningYields(e: Engine, log: seq<Isa.Access>, delay: nat)
    requires StillRuns(e, log, delay)
    ensures e.proc.Cgo? && !CpuForwarding.ExitNow(e.proc.cpu.core)
  {
    hide F.Inv; hide F.Abs; hide CpuForwarding.ExitNow; hide Exclusive; hide H.PauseOk;
    CpuRuns.RunningStays(e.proc.cpu, log);
  }

  lemma SurelyOne(phys: AddrMap, s: RunState, ev: Event, delay: nat)
    requires Surely(s.engine, delay) && Allowed(phys, s.engine, ev) && !ev.Delays?
    ensures var e := s.engine;
            var e' := RunOne(phys, s, ev).engine;
            e'.mode == ServeHost ||
            (Surely(e', delay) && Shorter(e, e', Obliges(phys, e, ev)) && Slack(e') == Slack(e))
    ensures !LateExit(s.engine)
  {
    hide Slack; hide StillRuns; hide Freed; hide Parted; hide RunOne; hide Allowed; hide Shorter;
    hide LateExit; hide Obliges;
    if Parted(s.engine) {
      PartedOne(phys, s, ev);
    } else if log :| Freed(s.engine, log, delay) {
      FreedOne(phys, s, ev, log, delay);
    } else {
      var log :| StillRuns(s.engine, log, delay);
      var log' := RunningOne(phys, s, ev, log, delay);
    }
  }

  lemma FreedOne(phys: AddrMap, s: RunState, ev: Event, log: seq<Isa.Access>, delay: nat)
    requires Freed(s.engine, log, delay) && Allowed(phys, s.engine, ev) && !ev.Delays?
    ensures var e := s.engine;
            var e' := RunOne(phys, s, ev).engine;
            e'.mode == ServeHost ||
            (Freed(e', log, delay) && Shorter(e, e', Obliges(phys, e, ev)) && Slack(e') == Slack(e))
    ensures !LateExit(s.engine)
  {
    hide Halted; hide RunOne; hide Allowed; hide Shorter; hide K.Late; hide Obliges; hide LateExit;
    HaltedOne(phys, s, ev, log, delay);
  }

  lemma WaitsOne(phys: AddrMap, s: RunState, ev: Event, delay: nat, sure: bool)
    requires Waits(s.engine, delay, sure) && Allowed(phys, s.engine, ev) && !ev.Delays?
    ensures var e := s.engine;
            var e' := RunOne(phys, s, ev).engine;
            if ev.TickEv? && LateExit(e) then Lost(e', delay) && !sure
            else e'.mode == ServeHost || (Waits(e', delay, sure) && Shorter(e, e', Obliges(phys, e, ev))
                                          && (sure ==> Slack(e') == Slack(e)))
  {
    hide Slack; hide Yields; hide Surely; hide Lost; hide RunOne; hide Allowed; hide Shorter; hide Obliges;
    hide LateExit;
    if Surely(s.engine, delay) {
      SurelyOne(phys, s, ev, delay);
    } else {
      var log :| Yields(s.engine, log, delay);
      YieldsDecide(phys, s, ev, log, delay);
    }
  }

  lemma YieldsDecide(phys: AddrMap, s: RunState, ev: Event, log: seq<Isa.Access>, delay: nat)
    requires Yields(s.engine, log, delay) && Allowed(phys, s.engine, ev) && !ev.Delays?
    ensures var e := s.engine;
            var e' := RunOne(phys, s, ev).engine;
            if ev.TickEv? && LateExit(e) then Lost(e', delay)
            else e'.mode == ServeHost || (Waits(e', delay, false) && Shorter(e, e', Obliges(phys, e, ev)))
  {
    hide Yields; hide Halted; hide RunOne; hide Allowed; hide Shorter; hide K.Late; hide Obliges; hide F.Abs;
    hide CpuForwarding.ExitNow; hide X.LateAccess; hide Stuck; hide Parted; hide StillRuns;
    YieldsSeen(s.engine, log, delay);
    var log' := YieldsOne(phys, s, ev, log, delay);
    var e' := RunOne(phys, s, ev).engine;
    if ev.TickEv? && CpuForwarding.ExitNow(s.engine.proc.cpu.core) {
      assert if LateExit(s.engine) then Doomed(e', log', delay) else Freed(e', log', delay);
    }
  }

  lemma LostOne(phys: AddrMap, s: RunState, ev: Event, delay: nat)
    requires Lost(s.engine, delay) && Exclusive(s.engine) && Allowed(phys, s.engine, ev) && !ev.Delays?
    ensures var e := s.engine;
            var e' := RunOne(phys, s, ev).engine;
            && Lost(e', delay) && e'.mode != ServeHost && e.hostPool <= e'.hostPool
            && (Stuck(e) ==> Stuck(e'))
            && (!Stuck(e') ==> e.proc.Cgo? && e'.proc.Cgo? && WaitRank(e') + Bit(ev.TickEv?) <= WaitRank(e))
  {
    hide Doomed; hide RunOne; hide Allowed; hide WaitRank; hide Exclusive;
    if Stuck(s.engine) {
      StuckStep(phys, s, ev);
    } else {
      var log :| Doomed(s.engine, log, delay);
      DoomedOne(phys, s, ev, log, delay);
    }
  }

  lemma DoomedOne(phys: AddrMap, s: RunState, ev: Event, log: seq<Isa.Access>, delay: nat)
    requires Doomed(s.engine, log, delay) && Allowed(phys, s.engine, ev) && !ev.Delays?
    ensures var e := s.engine;
            var e' := RunOne(phys, s, ev).engine;
            && e'.mode != ServeHost && e.hostPool <= e'.hostPool
            && (Stuck(e') || (Doomed(e', log, delay) && e.proc.Cgo? && e'.proc.Cgo?
                              && WaitRank(e') + Bit(ev.TickEv?) <= WaitRank(e)))
  {
    hide RunOne; hide Allowed; hide K.Late; hide WaitRank; hide Exclusive; hide K.Halting; hide Stuck;
    HaltedOne(phys, s, ev, log, delay);
  }

  // ---- whole runs ----

  /** The ticks of a run in which the DRAM obliges. */
  ghost function ObligingTicks(phys: AddrMap, r: Trace, n: nat, m: nat): nat
    requires |r.states| == |r.evs| + 1 && n <= m <= |r.evs|
  {
    if m == n then 0
    else ObligingTicks(phys, r, n, m - 1) + Bit(Obliges(phys, r.states[m - 1].engine, r.evs[m - 1]))
  }

  function Ticks(evs: seq<Event>, n: nat, m: nat): nat
    requires n <= m <= |evs|
  {
    if m == n then 0 else Ticks(evs, n, m - 1) + Bit(evs[m - 1].TickEv?)
  }

  predicate DelaysFixed(evs: seq<Event>, n: nat, m: nat)
    requires n <= m <= |evs|
  {
    forall i :: n <= i < m ==> !evs[i].Delays?
  }

  ghost predicate ServedBy(r: Trace, n: nat, m: nat)
    requires n <= m < |r.states|
  {
    exists k :: n <= k <= m && r.states[k].engine.mode == ServeHost
  }

  /** In one of the ticks the CPU takes an exit that leaves a request late. */
  ghost predicate LateExitIn(r: Trace, n: nat, m: nat)
    requires |r.states| == |r.evs| + 1 && n <= m <= |r.evs|
  {
    exists k :: n <= k < m && r.evs[k].TickEv? && LateExit(r.states[k].engine)
  }

  /** The obliging ticks so far and those that may still come are no more than at the start, but for the
      three an exit costs. */
  ghost predicate WithinRank(phys: AddrMap, r: Trace, n: nat, m: nat)
    requires |r.states| == |r.evs| + 1 && n <= m <= |r.evs|
  {
    var e, e' := r.states[n].engine, r.states[m].engine;
    && e.proc.Cgo? && e'.proc.Cgo?
    && ObligingTicks(phys, r, n, m) + WaitRank(e') + Slack(e) <= WaitRank(e) + Slack(e')
  }

  lemma {:induction false} WaitsOn(phys: AddrMap, r: Trace, proc: Processor, n: nat, m: nat, delay: nat, sure: bool)
    requires IsRun(phys, r, proc) && n <= m <= |r.evs| && DelaysFixed(r.evs, n, m)
    requires Waits(r.states[n].engine, delay, sure) && r.states[n].engine.proc.Cgo?
    ensures !ServedBy(r, n, m) ==>
              if LateExitIn(r, n, m) then !sure && Lost(r.states[m].engine, delay)
              else Waits(r.states[m].engine, delay, sure) && WithinRank(phys, r, n, m)
                   && (sure ==> Slack(r.states[m].engine) == Slack(r.states[n].engine))
  {
    hide Slack; hide Waits; hide Lost; hide RunOne; hide Allowed; hide ProcInBank; hide Obliges; hide WaitRank;
    hide NewEngine;
    hide LateExit;
    if m == n {
      assert ObligingTicks(phys, r, n, n) == 0;
    } else if !ServedBy(r, n, m) {
      ServedLater(r, n, m - 1, m);
      WaitsOn(phys, r, proc, n, m - 1, delay, sure);
      assert Linked(phys, r, m - 1);
      if LateExitIn(r, n, m - 1) {
        LateLater(r, n, m - 1, m);
        EngineIsSound(phys, r, proc, m - 1);
        LostOne(phys, r.states[m - 1], r.evs[m - 1], delay);
      } else {
        WaitsOne(phys, r.states[m - 1], r.evs[m - 1], delay, sure);
        assert r.states[m].engine.mode != ServeHost;
      }
    }
  }

  lemma ServedLater(r: Trace, n: nat, k: nat, m: nat)
    requires n <= k <= m < |r.states| && !ServedBy(r, n, m)
    ensures !ServedBy(r, n, k)
  {
  }

  lemma LateLater(r: Trace, n: nat, k: nat, m: nat)
    requires |r.states| == |r.evs| + 1 && n <= k <= m <= |r.evs| && LateExitIn(r, n, k)
    ensures LateExitIn(r, n, m)
  {
    hide LateExit;
  }

  /** The host is served. An engine that waits for a CPU which stands for a running machine, or whose exit
      has left no request late, or which acknowledged before it finished, has served the host by event `m`,
      or has seen no more obliging ticks than its rank allowed at the start, whatever the host does
      meanwhile. */
  lemma HostIsServed(phys: AddrMap, r: Trace, proc: Processor, n: nat, m: nat, delay: nat)
    requires IsRun(phys, r, proc) && n <= m <= |r.evs| && DelaysFixed(r.evs, n, m)
    requires Surely(r.states[n].engine, delay) && r.states[n].engine.proc.Cgo?
    ensures ServedBy(r, n, m)
            || (Surely(r.states[m].engine, delay) && r.states[m].engine.proc.Cgo?
                && ObligingTicks(phys, r, n, m) + WaitRank(r.states[m].engine) <= WaitRank(r.states[n].engine))
  {
    hide Surely; hide Lost; hide RunOne; hide Allowed; hide LateExit; hide Slack; hide WaitRank; hide Obliges;
    WaitsOn(phys, r, proc, n, m, delay, true);
  }

  /** Whatever a waiting engine's CPU has in flight, exits included: as long as the host is not served,
      either the CPU has taken an exit that leaves a request late, and then the host is lost, or the wait
      is within its bound. */
  lemma HandoverDecided(phys: AddrMap, r: Trace, proc: Processor, n: nat, m: nat, delay: nat)
    requires IsRun(phys, r, proc) && n <= m <= |r.evs| && DelaysFixed(r.evs, n, m)
    requires Waits(r.states[n].engine, delay, false) && r.states[n].engine.proc.Cgo?
    ensures !ServedBy(r, n, m) ==>
              if LateExitIn(r, n, m) then Lost(r.states[m].engine, delay)
              else WithinRank(phys, r, n, m)
  {
    hide Waits; hide Lost; hide RunOne; hide Allowed; hide WithinRank; hide LateExit;
    WaitsOn(phys, r, proc, n, m, delay, false);
  }

  /** Lost is for ever: the host is never served, none of its waiting requests is issued, and after a
      bounded number of ticks the engine is stuck. */
  lemma {:induction false} LostForEver(phys: AddrMap, r: Trace, proc: Processor, n: nat, m: nat, delay: nat)
    requires IsRun(phys, r, proc) && n <= m <= |r.evs| && DelaysFixed(r.evs, n, m)
    requires Lost(r.states[n].engine, delay)
    ensures Lost(r.states[m].engine, delay) && r.states[n].engine.hostPool <= r.states[m].engine.hostPool
    ensures forall k :: n <= k <= m ==> r.states[k].engine.mode != ServeHost
    ensures Stuck(r.states[m].engine)
            || (r.states[n].engine.proc.Cgo? && r.states[m].engine.proc.Cgo?
                && Ticks(r.evs, n, m) + WaitRank(r.states[m].engine) <= WaitRank(r.states[n].engine))
  {
    hide Lost; hide RunOne; hide Allowed; hide ProcInBank; hide WaitRank; hide NewEngine; hide Stuck;
    if m == n {
      LostWaits(r.states[n].engine, delay);
    } else {
      LostForEver(phys, r, proc, n, m - 1, delay);
      assert Linked(phys, r, m - 1);
      EngineIsSound(phys, r, proc, m - 1);
      LostOne(phys, r.states[m - 1], r.evs[m - 1], delay);
    }
  }

  /** Before the host is served the CPU takes an exit that leaves a request late. */
  ghost predicate LateFirst(r: Trace, n: nat, m: nat)
    requires |r.states| == |r.evs| + 1 && n <= m <= |r.evs|
  {
    exists k :: n <= k < m && LateAt(r, n, k)
  }

  ghost predicate LateAt(r: Trace, n: nat, k: nat)
    requires |r.states| == |r.evs| + 1 && n <= k < |r.evs|
  {
    r.evs[k].TickEv? && LateExit(r.states[k].engine) && !ServedBy(r, n, k)
  }

  /** Exactly when a waiting engine serves the host, given that the DRAM obliges often enough: unless its
      CPU, before the host is served, takes an exit that leaves a request late. */
  lemma ServedExactly(phys: AddrMap, r: Trace, proc: Processor, n: nat, m: nat, delay: nat)
    requires IsRun(phys, r, proc) && n <= m <= |r.evs| && DelaysFixed(r.evs, n, m)
    requires Waits(r.states[n].engine, delay, false) && r.states[n].engine.proc.Cgo?
    requires ObligingTicks(phys, r, n, m) > WaitRank(r.states[n].engine) + 3
    ensures ServedBy(r, n, m) <==> !LateFirst(r, n, m)
  {
    hide Waits; hide Lost; hide RunOne; hide Allowed; hide ProcInBank; hide Obliges; hide WaitRank; hide NewEngine;
    hide LateExit; hide ObligingTicks;
    if k :| n <= k < m && LateAt(r, n, k) {
      LateIsLost(phys, r, proc, n, k, delay);
      LostForEver(phys, r, proc, k + 1, m, delay);
    }
    if !ServedBy(r, n, m) {
      HandoverDecided(phys, r, proc, n, m, delay);
      var k :| n <= k < m && r.evs[k].TickEv? && LateExit(r.states[k].engine);
      ServedLater(r, n, k, m);
      assert LateAt(r, n, k);
    }
  }

  lemma LateIsLost(phys: AddrMap, r: Trace, proc: Processor, n: nat, k: nat, delay: nat)
    requires IsRun(phys, r, proc) && n <= k < |r.evs| && DelaysFixed(r.evs, n, k + 1)
    requires Waits(r.states[n].engine, delay, false) && r.states[n].engine.proc.Cgo? && LateAt(r, n, k)
    ensures Lost(r.states[k + 1].engine, delay)
  {
    hide Waits; hide Lost; hide RunOne; hide Allowed; hide ProcInBank; hide Obliges; hide WaitRank; hide NewEngine;
    hide LateExit; hide ObligingTicks; hide Slack;
    WaitsOn(phys, r, proc, n, k, delay, false);
    assert Linked(phys, r, k);
    if LateExitIn(r, n, k) {
      EngineIsSound(phys, r, proc, k);
      LostOne(phys, r.states[k], r.evs[k], delay);
    } else {
      WaitsOne(phys, r.states[k], r.evs[k], delay, false);
    }
  }

  lemma LostWaits(e: Engine, delay: nat)
    requires Lost(e, delay)
    ensures e.proc.Cgo? && e.mode != ServeHost
  {
    hide Exclusive; hide K.Halting; hide K.Late;
  }

  /** Exactly when an engine that waits for a finished CPU is stuck for ever: the CPU finished before it
      had acknowledged. Otherwise it will serve the host. */
  lemma StuckExactly(phys: AddrMap, r: Trace, proc: Processor, n: nat, m: nat)
    requires IsRun(phys, r, proc) && n <= m <= |r.evs| && DelaysFixed(r.evs, n, m)
    requires Waiting(r.states[n].engine) && r.states[n].engine.proc.cpu.finished
    ensures var e := r.states[n].engine;
            && (Stuck(e) <==> !e.proc.cpu.pause.ready)
            && (Stuck(e) ==> Stuck(r.states[m].engine) && e.hostPool <= r.states[m].engine.hostPool)
            && (!Stuck(e) ==> ServedBy(r, n, m) || ObligingTicks(phys, r, n, m) <= |e.portal.pimReq|)
  {
    hide RunOne; hide Allowed; hide ProcInBank; hide Obliges; hide NewEngine; hide Sides; hide NonePim;
    hide EngineRuns.Conserved;
    EngineIsSound(phys, r, proc, n);
    var e := r.states[n].engine;
    if e.proc.cpu.pause.ready {
      HostIsServed(phys, r, proc, n, m, 0);
    } else {
      HostStarves(phys, r, proc, n, m);
    }
  }
}
