/** What an engine does with the commands it is sent, and how long it takes to change sides. */
module EngineCommands {
  import opened DramPortals
  import opened DramWrappers
  import opened EngineSpec
  import opened EngineProcessors
  import opened EngineExclusive
  import opened EngineNumbers
  import opened EngineRuns
  import EngineConservation
  import B = BootFsm
  import C = CpuPipeline
  import P = PePipeline

  // ---- answers ----

  /** A start comes back as it was sent; a query comes back with 1 in its first word if the CPU has finished,
      with 0 if not, and is otherwise as it was sent. */
  ghost predicate AnswerIs(cmd: CgoCmd, q: DramReq, finished: bool, a: DramReq) {
    match cmd
    case StartCmd => a == q
    case QueryCmd =>
      && a == q.(payload := a.payload) && a.payload[1..] == q.payload[1..]
      && a.payload[0] == if finished then 1 else 0
  }

  /** Every command has its answer, in the order of the commands. */
  ghost predicate AnswersAre(queue: seq<(CgoCmd, DramReq)>, finished: bool, answers: seq<DramReq>) {
    && |answers| == |queue|
    && forall i :: 0 <= i < |queue| ==> AnswerIs(queue[i].0, queue[i].1, finished, answers[i])
  }

  predicate HasStart(queue: seq<(CgoCmd, DramReq)>) {
    exists i :: 0 <= i < |queue| && queue[i].0 == StartCmd
  }

  lemma OneAnswer(e: Engine, cmd: CgoCmd, q: DramReq)
    requires e.proc.Cgo?
    ensures AnswerIs(cmd, q, e.proc.cpu.finished, Answered(e, cmd, q))
  {
  }

  /** Doing the first command. */
  lemma OneCommand(e: Engine)
    requires e.proc.Cgo? && e.cmdQueue != []
    ensures var (cmd, q) := e.cmdQueue[0];
            var e1 := DoCommand(e.(cmdQueue := e.cmdQueue[1..]), cmd, q);
            && ProcessCmds(e) == ProcessCmds(e1) && e1.proc.Cgo? && |e1.cmdDone| == |e.cmdDone| + 1
            && e1.cmdDone[..|e.cmdDone|] == e.cmdDone
            && AnswerIs(cmd, q, e.proc.cpu.finished, e1.cmdDone[|e.cmdDone|])
            && e1 == e.(cmdQueue := e.cmdQueue[1..], cmdDone := e1.cmdDone,
                        proc := e.proc.(boot := e.proc.boot.(st := e1.proc.boot.st)))
            && e1.proc.boot.st ==
                 if cmd == StartCmd && e.sched != HostOnly && e.proc.boot.st == B.Idle then B.AguSubmit
                 else e.proc.boot.st
  {
    hide AnswerIs;
    var (cmd, q) := e.cmdQueue[0];
    OneAnswer(e.(cmdQueue := e.cmdQueue[1..]), cmd, q);
  }

  /** All queued commands are done in one go: each is answered, and an idle boot controller is armed exactly
      if one of them is a start and the engine is not reserved for the host. */
  lemma {:induction false} CommandsDo(e: Engine)
    requires e.proc.Cgo?
    ensures var e' := ProcessCmds(e);
            && e'.proc.Cgo? && |e'.cmdDone| == |e.cmdDone| + |e.cmdQueue| && e'.cmdDone[..|e.cmdDone|] == e.cmdDone
            && AnswersAre(e.cmdQueue, e.proc.cpu.finished, e'.cmdDone[|e.cmdDone|..])
            && e' == e.(cmdQueue := [], cmdDone := e'.cmdDone,
                        proc := e.proc.(boot := e.proc.boot.(st := e'.proc.boot.st)))
            && e'.proc.boot.st ==
                 if e.proc.boot.st == B.Idle && e.sched != HostOnly && HasStart(e.cmdQueue) then B.AguSubmit
                 else e.proc.boot.st
    decreases |e.cmdQueue|
  {
    hide AnswerIs; hide DoCommand;
    if e.cmdQueue != [] {
      OneCommand(e);
      var (cmd, q) := e.cmdQueue[0];
      var e1 := DoCommand(e.(cmdQueue := e.cmdQueue[1..]), cmd, q);
      CommandsDo(e1);
      StartFirst(e.cmdQueue);
      var e' := ProcessCmds(e);
      var n := |e.cmdDone|;
      assert e'.cmdDone[..n] == e'.cmdDone[..n + 1][..n];
      assert e'.cmdDone[n] == e'.cmdDone[..n + 1][n];
      forall i | 0 <= i < |e.cmdQueue|
        ensures AnswerIs(e.cmdQueue[i].0, e.cmdQueue[i].1, e.proc.cpu.finished, e'.cmdDone[n..][i])
      {
        if i > 0 {
          assert e'.cmdDone[n..][i] == e'.cmdDone[n + 1..][i - 1] && e.cmdQueue[i] == e1.cmdQueue[i - 1];
        }
      }
    }
  }

  lemma StartFirst(queue: seq<(CgoCmd, DramReq)>)
    requires queue != []
    ensures HasStart(queue) <==> queue[0].0 == StartCmd || HasStart(queue[1..])
  {
    if HasStart(queue) && queue[0].0 != StartCmd {
      var i :| 0 <= i < |queue| && queue[i].0 == StartCmd;
      assert queue[1..][i - 1].0 == StartCmd;
    } else if HasStart(queue[1..]) {
      var i :| 0 <= i < |queue[1..]| && queue[1..][i].0 == StartCmd;
      assert queue[i + 1].0 == StartCmd;
    }
  }

  // ---- a tick of a CPU's engine ----

  /** What scheduling leaves alone: completions, commands, the processor's side of the portal, and the boot
      controller; it pauses and resumes only a CPU that has started. */
  ghost predicate Leaves(e: Engine, e': Engine) {
    && e'.hostDone == e.hostDone && e'.cmdDone == e.cmdDone && e'.cmdQueue == e.cmdQueue && e'.sched == e.sched
    && e'.portal.hostResp == e.portal.hostResp && e'.portal.pimReq == e.portal.pimReq
    && e'.portal.pimResp == e.portal.pimResp && e'.dram.pending == e.dram.pending
    && (e.proc.Cgo? ==> e'.proc.Cgo? && SameCpu(e.proc, e'.proc))
    && (e.proc.Fgo? ==> e'.proc.Fgo? && e'.proc.pe.completed == e.proc.pe.completed)
  }

  ghost predicate SameCpu(p: Processor, p': Processor)
    requires p.Cgo? && p'.Cgo?
  {
    && p'.boot == p.boot && p'.cpu.finished == p.cpu.finished && p'.cpu.started == p.cpu.started
    && (!p.cpu.started ==> p' == p)
  }

  lemma SwitchLeaves(e: Engine, from: Mode, idle: bool)
    ensures Leaves(e, Switch(e, from, idle))
  {
    hide SwitchDone;
  }

  lemma SignalsSame(p: Processor)
    requires p.Cgo?
    ensures SameCpu(p, SignalPause(p)) && SameCpu(p, SignalResume(p))
  {
  }

  lemma CgoLeaves(e: Engine, idle: bool)
    requires NonePim(e.hostPool) && e.proc.Cgo?
    ensures Leaves(e, ScheduleCgo(e, idle))
  {
    hide C.SignalPause; hide C.SignalResume; hide BatchSize; hide WantsHost; hide Switch; hide EngineSpec.SubmitAll;
    SignalsSame(e.proc);
    if e.mode == ServeHost {
      BatchFits(e);
      var batch := B.Reversed(e.hostPool[..BatchSize(e)]);
      ReversedIn(e.hostPool[..BatchSize(e)]);
      SubmitKeeps(e.portal, batch);
      var e1 := e.(hostPool := e.hostPool[BatchSize(e)..], memRec := e.memRec + BatchSize(e),
                   portal := EngineSpec.SubmitAll(e.portal, batch));
      SwitchLeaves(e1.(pimWatermark := e1.memRec, memRec := 0, proc := SignalResume(e1.proc)), ServeHost, idle);
    } else {
      SwitchLeaves(e.(firstSwitch := true, pimRec := 0, proc := SignalPause(e.proc)), ServePim, idle);
      SwitchLeaves(e, SwitchDelay, idle);
    }
  }

  lemma SelectsLeave(e: Engine, idle: bool)
    requires NonePim(e.hostPool) && e.proc.Fgo?
    ensures Leaves(e, SelectInPim(e, idle)) && Leaves(e, SelectInHost(e, idle))
  {
    hide PimReady; hide Switch;
    SwitchLeaves(e, ServePim, idle);
    SwitchLeaves(e, ServeHost, idle);
    if e.hostPool != [] {
      assert e.hostPool[0] in e.hostPool;
    }
  }

  lemma FgoLeaves(e: Engine, idle: bool)
    requires NonePim(e.hostPool) && e.proc.Fgo?
    ensures Leaves(e, ScheduleFgo(e, idle))
  {
    hide Drained; hide Switch; hide SelectInPim; hide SelectInHost; hide NonePim;
    SwitchLeaves(e, SwitchDelay, idle);
    SelectsLeave(NoticePim(e), idle);
    SelectsLeave(NoticeHost(e, idle), idle);
  }

  lemma ScheduleLeaves(e: Engine, idle: bool)
    requires BeforeSchedule(e)
    ensures Leaves(e, Schedule(e, idle))
  {
    hide ScheduleCgo; hide ScheduleFgo; hide ProcInBank; hide Sides; hide EngineSpec.SubmitAll;
    match e.sched
    case HostCgoShare => CgoLeaves(e, idle);
    case HostFgoShare => FgoLeaves(e, idle);
    case HostOnly =>
      ReversedIn(e.hostPool);
      SubmitKeeps(ForceHost(e).portal, B.Reversed(e.hostPool));
    case _ =>
  }

  /** The engine between its commands and its scheduling: completions are collected in order, and nothing that
      has completed is left behind. */
  lemma CollectHands(phys: AddrMap, e: Engine, cs: seq<Completion>)
    requires multiset(cs) <= Outstanding(phys, e.dram.pending)
    ensures var e' := Collect(phys, e, cs);
            && e.hostDone + e.cmdDone <= e'.hostDone && e'.cmdDone == [] && e'.portal.hostResp == []
            && e'.cmdQueue == e.cmdQueue && (e.proc.Cgo? ==> e'.proc == e.proc)
            && (e.proc.Fgo? ==> e'.proc.Fgo? && e'.proc.pe.completed == [])
  {
    hide Outstanding; hide CompleteAll; hide B.Reversed;
    PanicsExactly(phys, e.dram.pending, cs);
  }

  predicate NewestFirst(s: seq<DramReq>, resp: seq<DramReq>) {
    |s| == |resp| && forall i :: 0 <= i < |s| ==> s[i] == resp[|resp| - 1 - i]
  }

  /** What reaches the host together: commands, then PE instructions, both in order, then memory responses, newest
      first. */
  lemma HandsInOrder(e: Engine)
    ensures var jobs := if e.proc.Fgo? then e.proc.pe.completed else [];
            var before := e.hostDone + e.cmdDone + jobs;
            var e' := DrainCompletions(e);
            before <= e'.hostDone && NewestFirst(e'.hostDone[|before|..], e.portal.hostResp)
  {
    var jobs := if e.proc.Fgo? then e.proc.pe.completed else [];
    var before := e.hostDone + e.cmdDone + jobs;
    assert DrainCompletions(e).hostDone[|before|..] == B.Reversed(e.portal.hostResp);
  }

  /** One tick of an engine answers all commands that are queued, in order, after those answered before; it
      leaves no command, and nothing that has completed is held back from the host. */
  lemma TickAnswers(phys: AddrMap, e: Engine, env: Env)
    requires Exclusive(e) && e.sched != Unconfigured && Legal(phys, e, env)
    ensures var e' := Tick(phys, e, env);
            && e.hostDone + e.cmdDone <= e'.hostDone && e'.cmdDone == [] && e'.portal.hostResp == []
            && (e.proc.Fgo? ==> e'.proc.Fgo? && e'.proc.pe.completed == [])
            && (e.proc.Cgo? ==>
                  && e'.cmdQueue == [] && e'.proc.Cgo? && |e.hostDone + e.cmdDone| + |e.cmdQueue| <= |e'.hostDone|
                  && var n := |e.hostDone + e.cmdDone|;
                     AnswersAre(e.cmdQueue, e'.proc.cpu.finished, e'.hostDone[n..n + |e.cmdQueue|]))
  {
    hide ProcInBank; hide Sides; hide NonePim; hide Outstanding; hide Schedule; hide Collect; hide DrainPort;
    hide AnswerIs; hide C.Tick; hide P.Tick; hide B.BootTick; hide TickProc; hide ProcessCmds;
    OfferedKeeps(e, env);
    ProcTick(e);
    var e0 := Offered(e, env);
    CollectKeeps(phys, e0, env.completions);
    CollectHands(phys, e0, env.completions);
    var e1 := Collect(phys, e0, env.completions);
    ScheduleLeaves(e1, env.idle);
    var e2 := Schedule(e1, env.idle);
    if e.proc.Cgo? {
      CommandsDo(TickProc(e));
      var done := ProcessCmds(TickProc(e)).cmdDone;
      var n, k := |e.hostDone + e.cmdDone|, |e.cmdQueue|;
      assert e0.hostDone + e0.cmdDone == e.hostDone + done;
      assert done == e.cmdDone + done[|e.cmdDone|..];
      assert e2.hostDone[..n + k] == e.hostDone + done;
      assert e2.hostDone[n..n + k] == e2.hostDone[..n + k][n..] == done[|e.cmdDone|..];
    } else {
      CmdsTouch(TickProc(e));
    }
  }

  /** One tick of an engine that waits to be started: a start arms its boot controller, unless the engine is
      reserved for the host; nothing else does, and no tick starts an engine that was not armed. */
  lemma TickArms(phys: AddrMap, e: Engine, env: Env)
    requires Exclusive(e) && e.sched != Unconfigured && Legal(phys, e, env)
    requires e.proc.Cgo? && e.proc.boot.st == B.Idle && !e.proc.cpu.started
    ensures var e' := Tick(phys, e, env);
            && e'.proc.Cgo? && !e'.proc.cpu.started
            && e'.proc.boot.st == if e.sched != HostOnly && HasStart(e.cmdQueue) then B.AguSubmit else B.Idle
  {
    hide ProcInBank; hide Sides; hide NonePim; hide Outstanding; hide Schedule; hide Collect; hide DrainPort;
    hide C.Tick; hide ProcessCmds; hide AnswersAre;
    OfferedKeeps(e, env);
    ProcTick(e);
    var e0 := Offered(e, env);
    CommandsDo(TickProc(e));
    CollectKeeps(phys, e0, env.completions);
    ScheduleLeaves(Collect(phys, e0, env.completions), env.idle);
  }

  /** While the host is served or the sides change, a processor that has not started stands still: its tick does
      nothing but arm the boot controller if a start is queued. */
  lemma BootStandsStill(phys: AddrMap, e: Engine, env: Env)
    requires Exclusive(e) && e.sched != Unconfigured && Legal(phys, e, env)
    requires e.proc.Cgo? && !e.proc.cpu.started && e.mode != ServePim
    ensures var e' := Tick(phys, e, env);
            && e'.proc.Cgo? && e'.proc.cpu == e.proc.cpu
            && e'.proc.boot == if e.proc.boot.st == B.Idle && e.sched != HostOnly && HasStart(e.cmdQueue)
                               then e.proc.boot.(st := B.AguSubmit) else e.proc.boot
  {
    hide ProcInBank; hide Sides; hide NonePim; hide Outstanding; hide Schedule; hide Collect; hide DrainPort;
    hide C.Tick; hide ProcessCmds; hide AnswersAre; hide B.BootTick;
    OfferedKeeps(e, env);
    var e0 := Offered(e, env);
    CommandsDo(e);
    CollectKeeps(phys, e0, env.completions);
    ScheduleLeaves(Collect(phys, e0, env.completions), env.idle);
    var b := e.proc.boot;
    assert b.(st := b.st) == b;
  }

  // ---- configuration ----

  /** Two modes are for CPUs, one is for PEs, and one for either. */
  predicate Suits(p: Processor, s: Sched) {
    (p.Cgo? && (s == CgoOnly || s == HostCgoShare)) || (p.Fgo? && s == HostFgoShare) || s == HostOnly
  }

  /** A scheduling mode is accepted once, and exactly if it fits the processor; the engine then starts on the side it
      is to serve. A refusal changes nothing. */
  lemma ConfiguredOnce(e: Engine, s: Sched)
    ensures var (ok, e') := SetScheduling(e, s);
            && (ok <==> e.sched == Unconfigured && Suits(e.proc, s))
            && (!ok ==> e' == e)
            && (ok ==>
                  && e'.sched == s && e'.proc == e.proc && e'.mode == (if s == HostOnly then ServeHost else ServePim)
                  && (s == HostOnly ==> e'.firstSwitch))
  {
  }

  // ---- runs ----

  /** What the engine has handed out and what it holds ready grows at the end only: completions are taken in
      the order in which they were collected. */
  lemma {:induction false} DeliveredInOrder(phys: AddrMap, r: Trace, proc: Processor, n: nat, m: nat)
    requires IsRun(phys, r, proc) && n <= m <= |r.evs|
    ensures r.states[n].taken + r.states[n].engine.hostDone <= r.states[m].taken + r.states[m].engine.hostDone
    ensures r.states[n].taken <= r.states[m].taken
    ensures |r.states[m].taken| ==
            |r.states[n].taken| + Delivered(r, n, m)
  {
    hide RunOne; hide EngineRuns.Allowed; hide ProcInBank; hide NewEngine; hide EngineRuns.Good;
    if n < m {
      DeliveredInOrder(phys, r, proc, n, m - 1);
      EngineIsSound(phys, r, proc, m - 1);
      assert Linked(phys, r, m - 1);
      OneDelivers(phys, r.states[m - 1], r.evs[m - 1]);
    }
  }

  /** The deliveries between two events that find something to deliver. */
  function Delivered(r: Trace, n: nat, m: nat): nat
    requires |r.states| == |r.evs| + 1 && n <= m <= |r.evs|
  {
    if n == m then 0
    else Delivered(r, n, m - 1) + if r.evs[m - 1].Deliver? && r.states[m - 1].engine.hostDone != [] then 1 else 0
  }

  lemma OneDelivers(phys: AddrMap, s: RunState, ev: Event)
    requires EngineRuns.Good(s) && EngineRuns.Allowed(phys, s.engine, ev)
    ensures var s' := RunOne(phys, s, ev);
            && s.taken + s.engine.hostDone <= s'.taken + s'.engine.hostDone && s.taken <= s'.taken
            && |s'.taken| == |s.taken| + (if ev.Deliver? && s.engine.hostDone != [] then 1 else 0)
  {
    hide Exclusive; hide Unnumbered; hide EngineConservation.InEngine; hide Tick; hide Legal; hide Numbered;
    if ev.TickEv? {
      TickAnswers(phys, s.engine, ev.env);
      var e' := Tick(phys, s.engine, ev.env);
      assert s.engine.hostDone <= s.engine.hostDone + s.engine.cmdDone <= e'.hostDone;
    }
  }

  /** A command reaches its engine's queue and stays there until a tick. */
  lemma {:induction false} CommandWaits(phys: AddrMap, r: Trace, proc: Processor, n: nat, m: nat, c: (CgoCmd, DramReq))
    requires IsRun(phys, r, proc) && n <= m <= |r.evs| && c in r.states[n].engine.cmdQueue
    requires forall i :: n <= i < m ==> !r.evs[i].TickEv?
    ensures c in r.states[m].engine.cmdQueue
  {
    hide EngineRuns.Allowed; hide ProcInBank; hide NewEngine;
    if n < m {
      CommandWaits(phys, r, proc, n, m - 1, c);
      assert Linked(phys, r, m - 1);
    }
  }

  /** A command of the host comes back: the first tick after it answers it, truthfully for the state of the CPU
      after that tick, and as many deliveries as there are completions hand it out. */
  lemma CommandReturns(phys: AddrMap, r: Trace, proc: Processor, n: nat, t: nat, m: nat) returns (a: DramReq)
    requires IsRun(phys, r, proc) && proc.Cgo? && n < t < m <= |r.evs|
    requires r.evs[n].HostCmd? && r.evs[t].TickEv? && forall i :: n <= i < t ==> !r.evs[i].TickEv?
    requires Delivered(r, t + 1, m) >= |r.states[t + 1].engine.hostDone|
    ensures r.states[t + 1].engine.proc.Cgo?
    ensures AnswerIs(r.evs[n].cmd, r.evs[n].req, r.states[t + 1].engine.proc.cpu.finished, a)
    ensures a in r.states[t + 1].engine.hostDone
    ensures |r.states[t + 1].taken| <= |r.states[m].taken| && a in r.states[m].taken[|r.states[t + 1].taken|..]
  {
    hide ProcInBank; hide NewEngine; hide AnswerIs; hide Exclusive; hide Unnumbered; hide EngineConservation.InEngine;
    hide Tick; hide Legal; hide Numbered; hide Delivered;
    var c := (r.evs[n].cmd, r.evs[n].req);
    assert Linked(phys, r, n);
    Queued(phys, r.states[n], r.evs[n]);
    CommandWaits(phys, r, proc, n + 1, t, c);
    EngineIsSound(phys, r, proc, t);
    KindStays(phys, r, proc, t);
    assert Linked(phys, r, t);
    var e, e' := r.states[t].engine, r.states[t + 1].engine;
    TickAnswers(phys, e, r.evs[t].env);
    var k :| 0 <= k < |e.cmdQueue| && e.cmdQueue[k] == c;
    var first := |e.hostDone + e.cmdDone|;
    a := e'.hostDone[first..first + |e.cmdQueue|][k];
    assert a == e'.hostDone[first + k];
    DeliveredInOrder(phys, r, proc, t + 1, m);
    var before, after := r.states[t + 1].taken, r.states[m].taken;
    assert (before + e'.hostDone)[|before| + first + k] == a;
    assert after[|before| + first + k] == (after + r.states[m].engine.hostDone)[|before| + first + k];
    assert after[|before|..][first + k] == a;
  }

  lemma Queued(phys: AddrMap, s: RunState, ev: Event)
    requires EngineRuns.Allowed(phys, s.engine, ev) && ev.HostCmd?
    ensures (ev.cmd, ev.req) in RunOne(phys, s, ev).engine.cmdQueue
  {
    assert RunOne(phys, s, ev).engine.cmdQueue[|s.engine.cmdQueue|] == (ev.cmd, ev.req);
  }

  lemma {:induction false} KindStays(phys: AddrMap, r: Trace, proc: Processor, n: nat)
    requires IsRun(phys, r, proc) && n <= |r.evs|
    ensures r.states[n].engine.proc.Cgo? == proc.Cgo?
  {
    hide ProcInBank; hide RunOne; hide EngineRuns.Allowed;
    if n > 0 {
      KindStays(phys, r, proc, n - 1);
      EngineIsSound(phys, r, proc, n - 1);
      assert Linked(phys, r, n - 1);
      OneKindStays(phys, r.states[n - 1], r.evs[n - 1]);
    }
  }

  lemma OneKindStays(phys: AddrMap, s: RunState, ev: Event)
    requires EngineRuns.Good(s) && EngineRuns.Allowed(phys, s.engine, ev)
    ensures RunOne(phys, s, ev).engine.proc.Cgo? == s.engine.proc.Cgo?
  {
    hide Exclusive; hide Unnumbered; hide EngineConservation.InEngine; hide Tick; hide Legal; hide Numbered;
    if ev.TickEv? {
      TickIsExclusive(phys, s.engine, ev.env);
    }
  }
}
