/** The simulator: routes host requests to a plain DRAM and to engines, broadcasts commands, and merges
    their completions. */
module SimSpec {
  import opened Words
  import opened DramPortals
  import opened DramWrappers
  import opened RequestRouter
  import E = EngineSpec
  import P = PePipeline
  import T = PeTypes
  import C = CpuPipeline
  import CT = CpuTypes
  import CS = CpuStages
  import B = BootFsm

  /** A pseudo bank, and the processor that owns it. */
  datatype Bank = Bank(ch: nat, ra: nat, bg: nat, ba: nat, pb: nat)
  datatype Cfg = CgoCfg(at: Bank) | FgoCfg(at: Bank)

  /** Where an address lies; none outside the pseudo banks. Computed by the DRAM library. */
  type Geometry = u64 -> Option<Bank>

  /** The instruction of a PE command: the address names the operation, the payload holds the operands. */
  type Operands = (u64, Payload) -> T.PeInst

  type Engines = map<Cfg, E.Engine>

  datatype Sim = Sim(
    engines: Engines, mono: Dram, clock: nat, memDone: seq<DramReq>, engineDone: seq<DramReq>,
    immNext: seq<DramReq>, immReady: seq<DramReq>, commands: map<nat, (DramReq, nat)>)

  const NEW_SIM: Sim := Sim(map[], Dram([], 0, false), 0, [], [], [], [], map[])

  const NEW_CPU: C.Cpu :=
    C.Cpu(CS.Program([], map[]),
          CS.Core(CT.Rf(0, [ZERO4, ZERO4, ZERO4, ZERO4, ZERO4, ZERO4, ZERO4, ZERO4],
                        [None, None, None, None, None, None, None, None]),
                  map[], CT.BUBBLE_IFID, CT.BUBBLE_IDEX, CT.BUBBLE_EXAGU, CT.BUBBLE_AGUMEM, CT.BUBBLE_MEMWB,
                        CT.BUBBLE_MEMWB),
          map[], None, C.NO_PAUSE, false, false, false)

  // ---- routing ----

  /** The engine that owns an address, if there is one. */
  function CfgOf(engines: Engines, g: Geometry, addr: u64): Option<Cfg> {
    var b := g(addr);
    if b == None then None
    else if CgoCfg(b.value) in engines then Some(CgoCfg(b.value))
    else if FgoCfg(b.value) in engines then Some(FgoCfg(b.value))
    else None
  }

  /** PE instructions go to every PE engine, the CPU's commands to every CPU engine. */
  predicate Targets(e: E.Engine, k: Kind) {
    if k == FgoInst then e.proc.Fgo? else e.proc.Cgo?
  }

  function CmdOf(k: Kind): E.CgoCmd {
    if k == CgoQuery then E.QueryCmd else E.StartCmd
  }

  function SendCopy(e: E.Engine, k: Kind, q: DramReq, ops: Operands): E.Engine
    requires Targets(e, k)
  {
    if k == FgoInst then E.EnqueueJob(e, P.Job(ops(q.addr, q.payload), Some(q))) else E.EnqueueCmd(e, CmdOf(k), q)
  }

  predicate AcceptsMem(e: E.Engine) {
    e.sched == E.HostCgoShare || e.sched == E.HostFgoShare || e.sched == E.HostOnly
  }

  // ---- enqueueing ----

  function HostReq(addr: u64, payload: Payload, isWrite: bool): DramReq {
    DramReq(addr, payload, None, None, !isWrite, false)
  }

  function Numbered(s: Sim, q: DramReq): DramReq {
    Stamped(q, s.mono.nextId, s.clock)
  }

  function NextId(s: Sim): Sim {
    s.(mono := s.mono.(nextId := s.mono.nextId + 1))
  }

  function WithWord0(q: DramReq, w: u64): DramReq {
    q.(payload := q.payload[0 := w])
  }

  /** Requests that need no DRAM complete in the next cycle. */
  function CompleteNext(s: Sim, q: DramReq): Sim {
    NextId(s).(immNext := s.immNext + [Numbered(s, q)])
  }

  /** A command is copied to every engine it is for; the simulator remembers how many copies are out. */
  function EnqueueCommand(s: Sim, q: DramReq, k: Kind, ops: Operands): Sim {
    var n := Numbered(s, q);
    var targets := set c | c in s.engines && Targets(s.engines[c], k);
    if targets == {} then NextId(s).(immNext := s.immNext + [n])
    else
      NextId(s).(
        engines := map c | c in s.engines ::
          if Targets(s.engines[c], k) then SendCopy(s.engines[c], k, n, ops) else s.engines[c],
        commands := s.commands[s.mono.nextId := (if k == CgoQuery then WithWord0(n, 1) else n, |targets|)])
  }

  /** A memory request goes to the plain DRAM, and also to the engine that owns its address. */
  function EnqueueMemory(s: Sim, g: Geometry, q: DramReq): Sim {
    var c := CfgOf(s.engines, g, q.addr);
    if c.Some? && !AcceptsMem(s.engines[c.value]) then CompleteNext(s, q)
    else
      NextId(s).(
        engines := if c.Some? then s.engines[c.value := E.EnqueueMem(s.engines[c.value], q)] else s.engines,
        mono := Dram(s.mono.pending + [Numbered(s, q)], s.mono.nextId + 1, s.mono.pimMode))
  }

  function NewFor(c: Cfg, cgoSched: E.Sched): E.Engine {
    match c
    case CgoCfg(_) => E.SetScheduling(E.NewEngine(E.Cgo(NEW_CPU, B.NEW_BOOT)), cgoSched).1
    case FgoCfg(_) => E.SetScheduling(E.NewEngine(E.Fgo(P.NewPe())), E.HostFgoShare).1
  }

  function AddEngines(engines: Engines, more: seq<Cfg>, cgoSched: E.Sched): Engines {
    if more == [] then engines
    else
      var before := AddEngines(engines, more[..|more| - 1], cgoSched);
      var c := more[|more| - 1];
      if c in before then before else before[c := NewFor(c, cgoSched)]
  }

  /** An allocation creates the engines that do not exist yet and answers with their number. */
  function EnqueueAlloc(s: Sim, q: DramReq, granted: seq<Cfg>, cgoSched: E.Sched): Sim {
    CompleteNext(s.(engines := AddEngines(s.engines, granted, cgoSched)),
                 WithWord0(q, |granted| % 0x1_0000_0000_0000_0000))
  }

  /** Malformed commands complete without effect. */
  function Enqueue(s: Sim, g: Geometry, ops: Operands, q: DramReq, size: nat, granted: seq<Cfg>,
                   cgoSched: E.Sched): Sim {
    var k := KindOf(q.addr);
    if k == Memory then EnqueueMemory(s, g, q)
    else if size != 8 || k == Invalid || ExpectsWrite(k) != !q.isRead then CompleteNext(s, q)
    else if k == CgoAlloc || k == FgoAlloc then EnqueueAlloc(s, q, granted, cgoSched)
    else EnqueueCommand(s, q, k, ops)
  }

  // ---- completions ----

  /** None stands for the panics: a completed copy without number or without a pending command. */
  function CollectOne(s: Sim, q: DramReq): Option<Sim> {
    if !IsBroadcast(q.addr) then Some(s.(engineDone := s.engineDone + [q]))
    else if q.id == None || q.id.value !in s.commands || s.commands[q.id.value].1 == 0 then None
    else
      var (cmd, left) := s.commands[q.id.value];
      var merged :=
        if KindOf(q.addr) == CgoQuery then
          WithWord0(cmd, if cmd.payload[0] != 0 && q.payload[0] != 0 then 1 else 0)
        else cmd;
      if left == 1 then Some(s.(commands := s.commands - {q.id.value}, engineDone := s.engineDone + [merged]))
      else Some(s.(commands := s.commands[q.id.value := (merged, left - 1)]))
  }

  function CollectAll(s: Sim, done: seq<DramReq>): Option<Sim> {
    if done == [] then Some(s)
    else
      var before := CollectAll(s, done[..|done| - 1]);
      if before == None then None else CollectOne(before.value, done[|done| - 1])
  }

  function TakeEngine(s: Sim, c: Cfg): Sim
    requires c in s.engines
  {
    s.(engines := s.engines[c := s.engines[c].(hostDone := [])])
  }

  /** Empties the engines one after the other, in any order. */
  function CollectEngines(s: Sim, order: seq<Cfg>): Option<Sim> {
    if order == [] then Some(s)
    else
      var before := CollectEngines(s, order[..|order| - 1]);
      var c := order[|order| - 1];
      if before == None || c !in before.value.engines then None
      else CollectAll(TakeEngine(before.value, c), before.value.engines[c].hostDone)
  }

  // ---- the tick ----

  /** What the environment decides: the plain DRAM's completions, each engine's DRAM, and the order in
      which the engines are visited. */
  datatype SimEnv = SimEnv(completions: seq<Completion>, engines: map<Cfg, E.Env>, order: seq<Cfg>)

  predicate Configured(engines: Engines) {
    forall c :: c in engines ==> E.Compatible(engines[c].proc, engines[c].sched)
  }

  function TickEngines(phys: Cfg -> AddrMap, s: Sim, env: SimEnv): Sim
    requires Configured(s.engines) && env.engines.Keys == s.engines.Keys
  {
    s.(engines := map c | c in s.engines :: E.Tick(phys(c), s.engines[c], env.engines[c]))
  }

  /** A completion of the plain DRAM counts only when no engine owns the address. */
  function Unowned(engines: Engines, g: Geometry, done: seq<DramReq>): seq<DramReq> {
    if done == [] then []
    else
      Unowned(engines, g, done[..|done| - 1]) +
      (if CfgOf(engines, g, done[|done| - 1].addr) == None then [done[|done| - 1]] else [])
  }

  ghost predicate Visits(order: seq<Cfg>, engines: Engines) {
    && (forall c :: c in engines <==> c in order)
    && (forall i, j :: 0 <= i < j < |order| ==> order[i] != order[j])
  }

  const SAME: AddrMap := a => a

  function Tick(phys: Cfg -> AddrMap, g: Geometry, s: Sim, env: SimEnv): Option<Sim>
    requires Configured(s.engines) && env.engines.Keys == s.engines.Keys
  {
    var mono := Complete(SAME, s.mono.pending, env.completions);
    var collected := CollectEngines(TickEngines(phys, s, env), env.order);
    if mono == None || collected == None then None
    else
      var (done, left) := mono.value;
      var s1 := collected.value;
      Some(s1.(mono := s1.mono.(pending := left), memDone := s1.memDone + Unowned(s1.engines, g, done),
               immReady := s1.immReady + s1.immNext, immNext := [], clock := s1.clock + 1))
  }

  // ---- what the host takes back ----

  function TakeLast(s: seq<DramReq>): (seq<DramReq>, seq<DramReq>)
    requires s != []
  {
    ([s[|s| - 1]], s[..|s| - 1])
  }

  function GetComplete(s: Sim): (seq<DramReq>, Sim) {
    if s.immReady != [] then (TakeLast(s.immReady).0, s.(immReady := TakeLast(s.immReady).1))
    else if s.memDone != [] then (TakeLast(s.memDone).0, s.(memDone := TakeLast(s.memDone).1))
    else if s.engineDone != [] then (TakeLast(s.engineDone).0, s.(engineDone := TakeLast(s.engineDone).1))
    else ([], s)
  }
}
