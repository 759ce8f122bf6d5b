/** One engine as a function of its state: a processor and the host share one DRAM. */
module EngineSpec {
  import opened Words
  import opened DramPortals
  import opened DramWrappers
  import C = CpuPipeline
  import B = BootFsm
  import P = PePipeline
  import CpuStages

  datatype Mode = ServePim | ServeHost | SwitchDelay
  datatype Sched = Unconfigured | CgoOnly | HostCgoShare | HostFgoShare | HostOnly
  datatype FgoState = Idle | PimInFlight | HostInFlight
  datatype CgoCmd = StartCmd | QueryCmd

  datatype Processor = Cgo(cpu: C.Cpu, boot: B.Boot) | Fgo(pe: P.Pe)

  datatype Engine = Engine(
    proc: Processor, hostPool: seq<DramReq>, hostDone: seq<DramReq>,
    cmdQueue: seq<(CgoCmd, DramReq)>, cmdDone: seq<DramReq>,
    portal: Portal, dram: Dram, sched: Sched, clock: nat,
    mode: Mode, next: Mode, lastService: Mode,
    pimWatermark: nat, pimRec: nat, memWatermark: nat, memRec: nat, firstSwitch: bool,
    fgoState: FgoState, fgoNext: Mode, delay: nat, pauseCycles: nat, resumeCycles: nat)

  /** What the environment decides in one tick: how many requests the DRAM accepts before it refuses
      one, what it completes, and whether it reports itself drained. */
  datatype Env = Env(quota: nat, completions: seq<Completion>, idle: bool)

  function NewEngine(proc: Processor): Engine {
    Engine(proc, [], [], [], [], EMPTY_PORTAL, NEW_DRAM, Unconfigured, 0, ServePim, ServePim, ServePim,
           0, 0, 0, 0, false, Idle, ServePim, 0, 0, 0)
  }

  // ---- the automaton PIM -> delay -> HOST -> delay -> PIM ----

  predicate ProcReady(p: Processor) {
    p.Cgo? ==> p.cpu.pause.ready
  }

  predicate Drained(e: Engine, m: PortalMode, idle: bool) {
    e.portal.Drained(m) && e.dram.pending == [] && idle
  }

  predicate SwitchDone(e: Engine, idle: bool) {
    match e.lastService
    case ServePim => ProcReady(e.proc) && e.delay == 0 && Drained(e, PIM, idle)
    case ServeHost => e.delay == 0 && Drained(e, HOST, idle)
    case SwitchDelay => false
  }

  function LeavePim(e: Engine): Engine {
    e.(next := SwitchDelay, lastService := ServePim, delay := if e.proc.Fgo? then e.pauseCycles else 0)
  }

  function LeaveHost(e: Engine): Engine {
    e.(next := SwitchDelay, lastService := ServeHost, delay := if e.proc.Fgo? then e.resumeCycles else 0)
  }

  function EnterHost(e: Engine): Engine {
    e.(next := ServeHost, portal := e.portal.(mode := HOST), dram := e.dram.(pimMode := false))
  }

  function EnterPim(e: Engine): Engine {
    e.(next := ServePim, portal := e.portal.(mode := PIM), dram := e.dram.(pimMode := true))
  }

  function Switch(e: Engine, from: Mode, idle: bool): Engine {
    match from
    case ServePim => LeavePim(e)
    case ServeHost => LeaveHost(e)
    case SwitchDelay =>
      if e.delay > 0 then e.(delay := e.delay - 1, next := SwitchDelay)
      else if !SwitchDone(e, idle) then e.(next := SwitchDelay)
      else if e.lastService == ServePim then EnterHost(e)
      else EnterPim(e)
  }

  // ---- batch scheduling of a CPU and the host ----

  function SignalPause(p: Processor): Processor {
    if p.Cgo? && p.cpu.started then p.(cpu := C.SignalPause(p.cpu)) else p
  }

  function SignalResume(p: Processor): Processor {
    if p.Cgo? && p.cpu.started then p.(cpu := C.SignalResume(p.cpu)) else p
  }

  predicate WantsHost(e: Engine) {
    if e.firstSwitch then e.pimWatermark <= e.pimRec && e.hostPool != []
    else |e.hostPool| > e.memWatermark
  }

  /** How many requests the host batch takes: up to one beyond the watermark. */
  function BatchSize(e: Engine): nat {
    var room := if e.memRec > e.memWatermark then 1 else e.memWatermark + 1 - e.memRec;
    if |e.hostPool| <= room then |e.hostPool| else room
  }

  function SubmitAll(p: Portal, reqs: seq<DramReq>): Portal {
    if reqs == [] then p else SubmitAll(p, reqs[..|reqs| - 1]).Submit(reqs[|reqs| - 1])
  }

  function ScheduleCgo(e: Engine, idle: bool): Engine {
    match e.mode
    case ServePim =>
      if WantsHost(e) then
        Switch(e.(firstSwitch := true, pimRec := 0, proc := SignalPause(e.proc)), ServePim, idle)
      else e.(pimRec := e.pimRec + 1)
    case ServeHost =>
      var n := BatchSize(e);
      var e1 := e.(hostPool := e.hostPool[n..], memRec := e.memRec + n,
                   portal := SubmitAll(e.portal, B.Reversed(e.hostPool[..n])));
      if e1.memRec > e1.memWatermark || e1.hostPool == [] then
        Switch(e1.(pimWatermark := e1.memRec, memRec := 0, proc := SignalResume(e1.proc)), ServeHost, idle)
      else e1
    case SwitchDelay => Switch(e, SwitchDelay, idle)
  }

  // ---- request scheduling of a PE and the host ----

  predicate PimReady(e: Engine) {
    e.proc.Fgo? && e.proc.pe.imem != []
  }

  function IssuePim(e: Engine): Engine
    requires e.proc.Fgo?
  {
    e.(proc := Fgo(P.AllowNext(e.proc.pe)), fgoState := PimInFlight)
  }

  function IssueHost(e: Engine): Engine
    requires e.hostPool != []
  {
    e.(hostPool := e.hostPool[1..], portal := e.portal.Submit(e.hostPool[0]), fgoState := HostInFlight)
  }

  function SelectInPim(e: Engine, idle: bool): Engine
    requires e.proc.Fgo?
  {
    if e.fgoNext == ServePim && PimReady(e) then IssuePim(e)
    else if e.fgoNext == ServeHost && e.hostPool != [] then Switch(e, ServePim, idle)
    else if PimReady(e) then IssuePim(e)
    else if e.hostPool != [] then Switch(e, ServePim, idle)
    else e
  }

  function SelectInHost(e: Engine, idle: bool): Engine {
    if e.fgoNext == ServePim && PimReady(e) then Switch(e, ServeHost, idle)
    else if e.fgoNext == ServeHost && e.hostPool != [] then IssueHost(e)
    else if PimReady(e) then Switch(e, ServeHost, idle)
    else if e.hostPool != [] then IssueHost(e)
    else e
  }

  /** An instruction in flight that has finished is noticed; reading the flag clears it. */
  function NoticePim(e: Engine): Engine
    requires e.proc.Fgo?
  {
    if e.fgoState != PimInFlight then e
    else
      var (was, pe) := P.HasFinished(e.proc.pe);
      var e1 := e.(proc := Fgo(pe));
      if was then e1.(fgoState := Idle, fgoNext := ServeHost) else e1
  }

  function NoticeHost(e: Engine, idle: bool): Engine {
    if e.fgoState == HostInFlight && Drained(e, HOST, idle) then e.(fgoState := Idle, fgoNext := ServePim) else e
  }

  function ScheduleFgo(e: Engine, idle: bool): Engine
    requires e.proc.Fgo?
  {
    match e.mode
    case SwitchDelay => Switch(e, SwitchDelay, idle)
    case ServePim =>
      var e1 := NoticePim(e);
      if e1.fgoState == Idle then SelectInPim(e1, idle) else e1
    case ServeHost =>
      var e1 := NoticeHost(e, idle);
      if e1.fgoState == Idle then SelectInHost(e1, idle) else e1
  }

  function ForcePim(e: Engine): Engine {
    e.(mode := ServePim, next := ServePim, portal := e.portal.(mode := PIM), dram := e.dram.(pimMode := true))
  }

  function ForceHost(e: Engine): Engine {
    e.(mode := ServeHost, next := ServeHost, portal := e.portal.(mode := HOST), dram := e.dram.(pimMode := false))
  }

  /** The scheduling mode fits the processor; configuring rejects every other combination. */
  predicate Compatible(p: Processor, s: Sched) {
    match s
    case Unconfigured => false
    case CgoOnly => p.Cgo?
    case HostCgoShare => p.Cgo?
    case HostFgoShare => p.Fgo?
    case HostOnly => true
  }

  function Schedule(e: Engine, idle: bool): Engine
    requires Compatible(e.proc, e.sched)
  {
    match e.sched
    case CgoOnly => ForcePim(e)
    case HostOnly =>
      var e1 := ForceHost(e);
      e1.(hostPool := [], portal := SubmitAll(e1.portal, B.Reversed(e1.hostPool)))
    case HostCgoShare => ScheduleCgo(e, idle)
    case HostFgoShare => ScheduleFgo(e, idle)
    case Unconfigured => e
  }

  function SetScheduling(e: Engine, s: Sched): (bool, Engine) {
    if e.sched != Unconfigured || !Compatible(e.proc, s) then (false, e)
    else if s == HostOnly then (true, ForceHost(e.(sched := s)).(firstSwitch := true))
    else (true, ForcePim(e.(sched := s)))
  }

  // ---- the processor's tick ----

  function LoadedOf(c: C.Cpu): B.Loaded {
    B.Loaded(c.core.mem, c.prog.agu, c.prog.imem, c.core.rf.f)
  }

  function WithLoaded(c: C.Cpu, l: B.Loaded): C.Cpu {
    c.(prog := CpuStages.Program(l.imem, l.agu), core := c.core.(mem := l.mem, rf := c.core.rf.(f := l.f)))
  }

  function TickCgo(e: Engine): Engine
    requires e.proc.Cgo?
  {
    var cpu := e.proc.cpu;
    if cpu.started then
      var (cpu', portal') := C.Tick(cpu, e.portal);
      e.(proc := e.proc.(cpu := cpu'), portal := portal')
    else if e.mode != ServePim then e
    else
      var (boot', l', portal') := B.BootTick(e.proc.boot, LoadedOf(cpu), e.portal);
      e.(proc := Cgo(WithLoaded(cpu, l').(started := boot'.st == B.Finished), boot'), portal := portal')
  }

  function TickFgo(e: Engine): Engine
    requires e.proc.Fgo?
  {
    if e.mode == ServePim && e.fgoState == PimInFlight then
      var (pe', portal') := P.Tick(e.proc.pe, e.portal);
      e.(proc := Fgo(pe'), portal := portal')
    else e
  }

  function TickProc(e: Engine): Engine
    requires Compatible(e.proc, e.sched)
  {
    match e.sched
    case CgoOnly => TickCgo(e)
    case HostCgoShare => TickCgo(e)
    case HostFgoShare => TickFgo(e)
    case _ => e
  }

  // ---- commands, DRAM, completions ----

  function Answered(e: Engine, cmd: CgoCmd, req: DramReq): DramReq
    requires e.proc.Cgo?
  {
    if cmd == QueryCmd then req.(payload := req.payload[0 := if e.proc.cpu.finished then 1 else 0]) else req
  }

  function DoCommand(e: Engine, cmd: CgoCmd, req: DramReq): Engine
    requires e.proc.Cgo?
  {
    var e1 := if cmd == StartCmd && e.sched != HostOnly then e.(proc := e.proc.(boot := B.SetOn(e.proc.boot).1)) else e;
    e1.(cmdDone := e1.cmdDone + [Answered(e, cmd, req)])
  }

  function ProcessCmds(e: Engine): (r: Engine)
    ensures r.proc.Cgo? == e.proc.Cgo?
    decreases |e.cmdQueue|
  {
    if e.proc.Fgo? || e.cmdQueue == [] then e
    else
      var (cmd, req) := e.cmdQueue[0];
      ProcessCmds(DoCommand(e.(cmdQueue := e.cmdQueue[1..]), cmd, req))
  }

  /** Requests leave the stack of the current mode until the DRAM refuses one. */
  function DrainPort(p: Portal, d: Dram, clock: nat, quota: nat): (Portal, Dram)
    decreases quota
  {
    var (q, p') := p.GetOne();
    if q == None then (p, d)
    else if quota == 0 then (p'.Submit(q.value), d)
    else DrainPort(p', Dram(d.pending + [Stamped(q.value, d.nextId, clock)], d.nextId + 1, d.pimMode), clock, quota - 1)
  }

  function CompleteAll(p: Portal, reqs: seq<DramReq>): Portal {
    if reqs == [] then p else CompleteAll(p, reqs[..|reqs| - 1]).Complete(reqs[|reqs| - 1])
  }

  /** The completed requests are collected: commands, then PE jobs, then memory responses. */
  function DrainCompletions(e: Engine): Engine {
    var jobs := if e.proc.Fgo? then e.proc.pe.completed else [];
    e.(hostDone := e.hostDone + e.cmdDone + jobs + B.Reversed(e.portal.hostResp), cmdDone := [],
       proc := if e.proc.Fgo? then Fgo(e.proc.pe.(completed := [])) else e.proc,
       portal := e.portal.(hostResp := []))
  }

  // ---- the tick ----

  function BeforeDram(e: Engine): Engine
    requires Compatible(e.proc, e.sched)
  {
    ProcessCmds(TickProc(e))
  }

  function Offered(e: Engine, env: Env): Engine
    requires Compatible(e.proc, e.sched)
  {
    var e1 := BeforeDram(e);
    var (portal, dram) := DrainPort(e1.portal, e1.dram, e1.clock, env.quota);
    e1.(portal := portal, dram := dram)
  }

  /** The DRAM completes only what it has accepted. */
  ghost predicate Legal(phys: AddrMap, e: Engine, env: Env)
    requires Compatible(e.proc, e.sched)
  {
    multiset(env.completions) <= Outstanding(phys, Offered(e, env).dram.pending)
  }

  function Collect(phys: AddrMap, e: Engine, cs: seq<Completion>): Engine {
    var r := Complete(phys, e.dram.pending, cs);
    if r == None then e
    else
      var (done, left) := r.value;
      DrainCompletions(e.(portal := CompleteAll(e.portal, done), dram := e.dram.(pending := left)))
  }

  function Tick(phys: AddrMap, e: Engine, env: Env): Engine
    requires Compatible(e.proc, e.sched)
  {
    var e1 := Collect(phys, Offered(e, env), env.completions);
    assert Compatible(e1.proc, e1.sched) by { KindKept(phys, e, env); }
    var e2 := Schedule(e1, env.idle);
    e2.(mode := e2.next, clock := e2.clock + 1)
  }

  lemma KindKept(phys: AddrMap, e: Engine, env: Env)
    requires Compatible(e.proc, e.sched)
    ensures var e1 := Collect(phys, Offered(e, env), env.completions);
            e1.proc.Cgo? == e.proc.Cgo? && e1.sched == e.sched
  {
    hide C.Tick; hide B.BootTick; hide P.Tick; hide DrainPort; hide Complete; hide CompleteAll;
    CmdsKeepSched(TickProc(e));
  }

  lemma CmdsKeepSched(e: Engine)
    ensures ProcessCmds(e).sched == e.sched
    decreases |e.cmdQueue|
  {
    if e.proc.Cgo? && e.cmdQueue != [] {
      var (cmd, req) := e.cmdQueue[0];
      CmdsKeepSched(DoCommand(e.(cmdQueue := e.cmdQueue[1..]), cmd, req));
    }
  }

  // ---- the host's side ----

  function EnqueueMem(e: Engine, req: DramReq): Engine {
    e.(hostPool := e.hostPool + [req])
  }

  function EnqueueCmd(e: Engine, cmd: CgoCmd, req: DramReq): Engine {
    e.(cmdQueue := e.cmdQueue + [(cmd, req)])
  }

  function EnqueueJob(e: Engine, job: P.Job): Engine
    requires e.proc.Fgo?
  {
    e.(proc := Fgo(P.PushHost(e.proc.pe, job)))
  }

  function TakeDone(e: Engine): (Option<DramReq>, Engine) {
    if e.hostDone == [] then (None, e) else (Some(e.hostDone[0]), e.(hostDone := e.hostDone[1..]))
  }

  function SetDelays(e: Engine, pause: nat, resume: nat): Engine {
    e.(pauseCycles := pause, resumeCycles := resume,
       proc := if e.proc.Cgo? then
                 e.proc.(cpu := e.proc.cpu.(pause := e.proc.cpu.pause.(pauseDelay := pause, resumeDelay := resume)))
               else e.proc)
  }
}
