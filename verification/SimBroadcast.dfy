/** Broadcast commands: what every engine receives, and what the host learns from a query. */
module SimBroadcast {
  import opened Words
  import opened DramPortals
  import opened DramWrappers
  import opened RequestRouter
  import opened EngineConservation
  import opened SimSpec
  import opened SimRuns
  import opened SimDelivery
  import B = BootFsm
  import E = EngineSpec
  import EC = EngineCommands
  import P = PePipeline
  import SimTotals
  import X = EngineExclusive

  // ---- sending ----

  /** What one engine receives: a start or a query joins the commands of a CPU's engine, an instruction the queue
      of a PE; every other engine is left alone. */
  ghost predicate Receives(e: E.Engine, e': E.Engine, k: Kind, n: DramReq, ops: Operands) {
    match k
    case CgoStart => e' == if e.proc.Cgo? then e.(cmdQueue := e.cmdQueue + [(E.StartCmd, n)]) else e
    case CgoQuery => e' == if e.proc.Cgo? then e.(cmdQueue := e.cmdQueue + [(E.QueryCmd, n)]) else e
    case FgoInst =>
      e' == if e.proc.Cgo? then e
            else e.(proc := E.Fgo(e.proc.pe.(imem := e.proc.pe.imem + [P.Job(ops(n.addr, n.payload), Some(n))])))
    case _ => false
  }

  /** The request as the engines see it. */
  function Sent(s: Sim, q: DramReq): DramReq {
    q.(id := Some(s.mono.nextId), issueTime := Some(s.clock))
  }

  /** A well-formed command. */
  predicate WellFormed(q: DramReq, size: nat) {
    IsBroadcast(q.addr) && size == 8 && q.isRead == (KindOf(q.addr) == CgoQuery)
  }

  /** The engines a command is for: those with a PE for an instruction, those with a CPU for a start or query. */
  function Audience(s: Sim, k: Kind): set<Cfg> {
    set c | c in s.engines && s.engines[c].proc.Fgo? == (k == FgoInst)
  }

  lemma AudienceIs(s: Sim, k: Kind)
    ensures Audience(s, k) == set c | c in s.engines && Targets(s.engines[c], k)
  {
  }

  /** A well-formed command reaches exactly the engines it is for, each once, and the simulator waits for as many
      answers. */
  lemma CommandReaches(s: Sim, w: World, q: DramReq, size: nat, granted: seq<Cfg>, sched: E.Sched)
    requires WellFormed(q, size) && Audience(s, KindOf(q.addr)) != {}
    ensures var s' := Enqueue(s, w.g, w.ops, q, size, granted, sched);
            && s'.engines.Keys == s.engines.Keys
            && (forall c :: c in s.engines ==> Receives(s.engines[c], s'.engines[c], KindOf(q.addr), Sent(s, q), w.ops))
            && s.mono.nextId in s'.commands && s'.commands[s.mono.nextId].1 == |Audience(s, KindOf(q.addr))|
            && s'.commands[s.mono.nextId].0 ==
                 if KindOf(q.addr) == CgoQuery then WithWord0(Sent(s, q), 1) else Sent(s, q)
  {
    hide KindOf;
    AudienceIs(s, KindOf(q.addr));
  }

  // ---- until the next tick ----

  /** What the host enqueues only adds to the commands of an engine, and leaves pending commands alone. */
  ghost predicate Keeps(s: Sim, s': Sim, c: Cfg, id: nat)
    requires c in s.engines
  {
    && c in s'.engines && s.engines[c].cmdQueue <= s'.engines[c].cmdQueue
    && s'.engines[c].proc.Cgo? == s.engines[c].proc.Cgo? && s'.engines[c].sched == s.engines[c].sched
    && (s.engines[c].proc.Cgo? ==> s'.engines[c].proc == s.engines[c].proc)
    && s.mono.nextId <= s'.mono.nextId && (id in s'.commands <==> id in s.commands)
    && (id in s.commands ==> s'.commands[id] == s.commands[id])
  }

  lemma CommandKeeps(s: Sim, q: DramReq, k: Kind, ops: Operands, c: Cfg, id: nat)
    requires c in s.engines && id < s.mono.nextId
    ensures Keeps(s, EnqueueCommand(s, q, k, ops), c, id)
  {
  }

  lemma MemoryKeeps(s: Sim, g: Geometry, q: DramReq, c: Cfg, id: nat)
    requires c in s.engines && id < s.mono.nextId
    ensures Keeps(s, EnqueueMemory(s, g, q), c, id)
  {
    hide CfgOf;
    OwnerExists(s.engines, g, q.addr);
  }

  lemma EnqueueKeeps(s: Sim, w: World, q: DramReq, size: nat, granted: seq<Cfg>, sched: E.Sched, c: Cfg, id: nat)
    requires c in s.engines && id < s.mono.nextId
    ensures Keeps(s, Enqueue(s, w.g, w.ops, q, size, granted, sched), c, id)
  {
    hide KindOf; hide EnqueueCommand; hide EnqueueMemory; hide AddEngines;
    AddedKeeps(s.engines, granted, sched, c);
    CommandKeeps(s, q, KindOf(q.addr), w.ops, c, id);
    MemoryKeeps(s, w.g, q, c, id);
  }

  lemma {:induction false} AddedKeeps(m: Engines, more: seq<Cfg>, sched: E.Sched, c: Cfg)
    requires c in m
    ensures c in AddEngines(m, more, sched) && AddEngines(m, more, sched)[c] == m[c]
  {
    hide NewFor;
    if more != [] {
      AddedKeeps(m, more[..|more| - 1], sched, c);
    }
  }

  /** What `c` has been sent and the simulator waits for. */
  ghost predicate OutFor(s: Sim, c: Cfg, cmd: (E.CgoCmd, DramReq), id: nat, pending: (DramReq, nat)) {
    && c in s.engines && s.engines[c].proc.Cgo? && cmd in s.engines[c].cmdQueue
    && id < s.mono.nextId && id in s.commands && s.commands[id] == pending
  }

  lemma {:induction false} StaysOut(w: World, r: Trace, n: nat, m: nat, c: Cfg, cmd: (E.CgoCmd, DramReq), id: nat,
                                            pending: (DramReq, nat))
    requires IsRun(w, r) && n <= m <= |r.evs| && NoTick(r.evs, n, m)
    requires OutFor(r.states[n].sim, c, cmd, id, pending)
    ensures OutFor(r.states[m].sim, c, cmd, id, pending)
    ensures r.states[m].sim.engines[c].proc == r.states[n].sim.engines[c].proc
    ensures r.states[m].sim.engines[c].sched == r.states[n].sim.engines[c].sched
  {
    hide RunOne; hide SimRuns.Allowed;
    if n < m {
      StaysOut(w, r, n, m - 1, c, cmd, id, pending);
      assert Linked(w, r, m - 1);
      OneStays(w, r.states[m - 1], r.evs[m - 1], c, cmd, id, pending);
    }
  }

  lemma OneStays(w: World, s: RunState, ev: Event, c: Cfg, cmd: (E.CgoCmd, DramReq), id: nat, pending: (DramReq, nat))
    requires SimRuns.Allowed(w, s.sim, ev) && !ev.TickEv? && OutFor(s.sim, c, cmd, id, pending)
    ensures var s' := RunOne(w, s, ev).sim;
            && OutFor(s', c, cmd, id, pending) && s'.engines[c].proc == s.sim.engines[c].proc
            && s'.engines[c].sched == s.sim.engines[c].sched
  {
    hide Enqueue;
    if ev.Enq? {
      EnqueueKeeps(s.sim, w, ev.req, ev.size, ev.granted, ev.cgoSched, c, id);
      var before, after := s.sim.engines[c].cmdQueue, RunOne(w, s, ev).sim.engines[c].cmdQueue;
      var i :| 0 <= i < |before| && before[i] == cmd;
      assert after[i] == cmd;
    }
  }

  // ---- the tick ----

  /** Collecting takes the completions of the engines and nothing else. */
  lemma {:induction false} CollectLeaves(s: Sim, order: seq<Cfg>, c: Cfg)
    requires c in s.engines && CollectEngines(s, order).Some?
    ensures var s' := CollectEngines(s, order).value;
            && c in s'.engines && s'.engines[c] == s.engines[c].(hostDone := s'.engines[c].hostDone)
            && (c !in order ==> s'.engines[c] == s.engines[c])
  {
    if order != [] {
      var k := |order| - 1;
      CollectLeaves(s, order[..k], c);
      var before := CollectEngines(s, order[..k]).value;
      AllLeaves(TakeEngine(before, order[k]), before.engines[order[k]].hostDone);
      assert c !in order ==> c !in order[..k] && c != order[k];
    }
  }

  lemma {:induction false} AllLeaves(s: Sim, done: seq<DramReq>)
    requires CollectAll(s, done).Some?
    ensures CollectAll(s, done).value.engines == s.engines
  {
    hide KindOf; hide IsBroadcast;
    if done != [] {
      AllLeaves(s, done[..|done| - 1]);
    }
  }

  /** What a tick of the simulator does to one of its engines. */
  lemma EngineTicks(w: World, s: Sim, env: SimEnv, c: Cfg)
    requires Good(s) && LegalEnv(w.phys, s, env) && c in s.engines
    ensures s.engines[c].sched != E.Unconfigured && X.Exclusive(s.engines[c])
    ensures c in env.engines && E.Legal(w.phys(c), s.engines[c], env.engines[c])
    ensures var r := Tick(w.phys, w.g, s, env);
            && r.Some? && c in r.value.engines
            && r.value.engines[c] == E.Tick(w.phys(c), s.engines[c], env.engines[c]).(hostDone := [])
  {
    hide Live; hide E.Tick; hide E.Legal; hide DramWrappers.Outstanding; hide Complete; hide CollectEngines;
    hide Counters; hide X.Exclusive; hide Unowned; hide CfgOf;
    TickDelivers(w, s, env);
    var s1 := TickEngines(w.phys, s, env);
    CollectLeaves(s1, env.order, c);
  }

  /** One start for all. In every run of the simulator: the first tick after a start command arms the boot controller
      of every idle CPU, whatever else was sent in between. */
  lemma StartReachesAll(w: World, r: Trace, n: nat, t: nat, c: Cfg)
    requires IsRun(w, r) && n < t < |r.evs| && NoTick(r.evs, n, t) && r.evs[t].TickEv?
    requires r.evs[n].Enq? && KindOf(r.evs[n].req.addr) == CgoStart && WellFormed(r.evs[n].req, r.evs[n].size)
    requires c in r.states[n].sim.engines
    requires var e := r.states[n].sim.engines[c];
             e.proc.Cgo? && !e.proc.cpu.started && e.proc.boot.st == B.Idle && e.sched != E.HostOnly
    ensures c in r.states[t + 1].sim.engines
    ensures var e := r.states[t + 1].sim.engines[c];
            e.proc.Cgo? && !e.proc.cpu.started && e.proc.boot.st == B.AguSubmit
  {
    hide Good; hide Receives; hide Enqueue; hide Accounted; hide E.Tick; hide Live; hide LegalEnv; hide Tick;
    hide KindOf;
    var s, ev := r.states[n].sim, r.evs[n];
    assert Linked(w, r, n);
    var id := s.mono.nextId;
    CommandOut(s, w, ev, c);
    StaysOut(w, r, n + 1, t, c, (E.StartCmd, Sent(s, ev.req)), id, r.states[n + 1].sim.commands[id]);
    SimIsSound(w, r, t);
    assert Linked(w, r, t);
    StartTick(w, r.states[t].sim, r.evs[t].env, c, Sent(s, ev.req), id, r.states[n + 1].sim.commands[id]);
  }

  lemma StartTick(w: World, s: Sim, env: SimEnv, c: Cfg, q: DramReq, id: nat, pending: (DramReq, nat))
    requires Good(s) && LegalEnv(w.phys, s, env) && OutFor(s, c, (E.StartCmd, q), id, pending)
    requires c in s.engines
    requires var e := s.engines[c];
             e.proc.Cgo? && !e.proc.cpu.started && e.proc.boot.st == B.Idle && e.sched != E.HostOnly
    ensures var r := Tick(w.phys, w.g, s, env);
            && r.Some? && c in r.value.engines
            && var e := r.value.engines[c];
               e.proc.Cgo? && !e.proc.cpu.started && e.proc.boot.st == B.AguSubmit
  {
    hide Good; hide E.Tick; hide Live; hide LegalEnv; hide Tick; hide E.Legal; hide X.Exclusive;
    EngineTicks(w, s, env, c);
    StartIn(s.engines[c].cmdQueue, q);
    EC.TickArms(w.phys(c), s.engines[c], env.engines[c]);
  }

  lemma StartIn(queue: seq<(E.CgoCmd, DramReq)>, q: DramReq)
    requires (E.StartCmd, q) in queue
    ensures EC.HasStart(queue)
  {
    var i :| 0 <= i < |queue| && queue[i] == (E.StartCmd, q);
    assert queue[i].0 == E.StartCmd;
  }

  /** The state right after the command was sent. */
  lemma CommandOut(s: Sim, w: World, ev: Event, c: Cfg)
    requires ev.Enq? && WellFormed(ev.req, ev.size)
    requires KindOf(ev.req.addr) == CgoStart || KindOf(ev.req.addr) == CgoQuery
    requires c in Audience(s, KindOf(ev.req.addr))
    ensures var s' := Enqueue(s, w.g, w.ops, ev.req, ev.size, ev.granted, ev.cgoSched);
            var cmd := (if KindOf(ev.req.addr) == CgoStart then E.StartCmd else E.QueryCmd, Sent(s, ev.req));
            && s.mono.nextId in s'.commands && c in s'.engines
            && OutFor(s', c, cmd, s.mono.nextId, s'.commands[s.mono.nextId])
            && s'.engines[c].proc == s.engines[c].proc && s'.engines[c].sched == s.engines[c].sched
  {
    hide KindOf; hide Enqueue; hide EnqueueCommand;
    CommandReaches(s, w, ev.req, ev.size, ev.granted, ev.cgoSched);
    var s' := Enqueue(s, w.g, w.ops, ev.req, ev.size, ev.granted, ev.cgoSched);
    assert Receives(s.engines[c], s'.engines[c], KindOf(ev.req.addr), Sent(s, ev.req), w.ops);
    var q := s'.engines[c].cmdQueue;
    assert q[|q| - 1] == (if KindOf(ev.req.addr) == CgoStart then E.StartCmd else E.QueryCmd, Sent(s, ev.req));
    NumberRises(s, w, ev);
  }

  lemma NumberRises(s: Sim, w: World, ev: Event)
    requires ev.Enq?
    ensures Enqueue(s, w.g, w.ops, ev.req, ev.size, ev.granted, ev.cgoSched).mono.nextId == s.mono.nextId + 1
  {
    hide KindOf; hide CfgOf; hide AddEngines;
    OwnerExists(s.engines, w.g, ev.req.addr);
  }

  // ---- answers ----

  /** What the engines hold ready, in the order of the visits. */
  function Gathered(m: Engines, order: seq<Cfg>): seq<DramReq>
    requires forall c :: c in order ==> c in m
  {
    if order == [] then [] else Gathered(m, order[..|order| - 1]) + m[order[|order| - 1]].hostDone
  }

  predicate AllYes(done: seq<DramReq>, id: nat) {
    forall q :: q in done && Hit(Copy(id), q) ==> q.payload[0] != 0
  }

  predicate QueriesOnly(done: seq<DramReq>, id: nat) {
    forall q :: q in done && Hit(Copy(id), q) ==> KindOf(q.addr) == CgoQuery
  }

  /** A pending query after the completions `done`: the answers are counted and merged, and with the last one the
      query is complete. */
  ghost predicate Tracked(s0: Sim, s: Sim, id: nat, done: seq<DramReq>)
    requires id in s0.commands
  {
    var (cmd, left) := s0.commands[id];
    var k := Count(done, Copy(id));
    var merged := WithWord0(cmd, if AllYes(done, id) then 1 else 0);
    && k <= left
    && (k < left ==> id in s.commands && s.commands[id] == (merged, left - k))
    && (k == left ==> id !in s.commands && merged in s.engineDone)
  }

  lemma TrackOne(s0: Sim, s: Sim, id: nat, done: seq<DramReq>, q: DramReq)
    requires id in s0.commands && Tracked(s0, s, id, done) && CollectOne(s, q).Some?
    requires Hit(Copy(id), q) ==> KindOf(q.addr) == CgoQuery
    ensures Tracked(s0, CollectOne(s, q).value, id, done + [q])
  {
    hide KindOf; hide Count;
    CountSum(done, [q], Copy(id));
    CountOne(q, Copy(id));
    YesMore(done, q, id);
    var cmd := s0.commands[id].0;
    Overwritten(cmd, if AllYes(done, id) then 1 else 0, if AllYes(done + [q], id) then 1 else 0);
  }

  lemma YesMore(done: seq<DramReq>, q: DramReq, id: nat)
    ensures AllYes(done + [q], id) <==> AllYes(done, id) && (Hit(Copy(id), q) ==> q.payload[0] != 0)
  {
    hide Hit;
    assert q in done + [q];
    assert forall r :: r in done + [q] <==> r in done || r == q;
  }

  lemma Overwritten(q: DramReq, v: u64, w: u64)
    ensures WithWord0(WithWord0(q, v), w) == WithWord0(q, w) && WithWord0(q, v).payload[0] == v
  {
    assert q.payload[0 := v][0 := w] == q.payload[0 := w];
  }

  lemma {:induction false} TrackAll(s0: Sim, s: Sim, id: nat, done: seq<DramReq>, more: seq<DramReq>)
    requires id in s0.commands && Tracked(s0, s, id, done) && CollectAll(s, more).Some? && QueriesOnly(more, id)
    ensures Tracked(s0, CollectAll(s, more).value, id, done + more)
  {
    hide Tracked; hide CollectOne; hide Hit; hide KindOf;
    if more == [] {
      assert done + more == done;
    } else {
      var n := |more| - 1;
      TrackAll(s0, s, id, done, more[..n]);
      assert more[n] in more;
      TrackOne(s0, CollectAll(s, more[..n]).value, id, done + more[..n], more[n]);
      assert done + more == done + more[..n] + [more[n]];
    }
  }

  predicate Distinct(order: seq<Cfg>) {
    forall i, j :: 0 <= i < j < |order| ==> order[i] != order[j]
  }

  lemma {:induction false} TrackEngines(s: Sim, id: nat, order: seq<Cfg>)
    requires Distinct(order) && (forall c :: c in order ==> c in s.engines) && CollectEngines(s, order).Some?
    requires id in s.commands && s.commands[id].0.payload[0] == 1 && s.commands[id].1 > 0
    requires QueriesOnly(Gathered(s.engines, order), id)
    ensures Tracked(s, CollectEngines(s, order).value, id, Gathered(s.engines, order))
  {
    hide Hit; hide KindOf; hide CollectAll;
    if order == [] {
      NothingCounted(Copy(id));
      var p := s.commands[id].0.payload;
      assert p[0 := 1] == p;
    } else {
      hide Tracked;
      var n := |order| - 1;
      var c := order[n];
      assert c in order;
      TrackEngines(s, id, order[..n]);
      var before := CollectEngines(s, order[..n]).value;
      CollectLeaves(s, order[..n], c);
      assert c !in order[..n];
      assert before.engines[c] == s.engines[c];
      TakenSame(s, before, c, id, Gathered(s.engines, order[..n]));
      TrackAll(s, TakeEngine(before, c), id, Gathered(s.engines, order[..n]), s.engines[c].hostDone);
    }
  }

  lemma TakenSame(s0: Sim, s: Sim, c: Cfg, id: nat, done: seq<DramReq>)
    requires id in s0.commands && c in s.engines && Tracked(s0, s, id, done)
    ensures Tracked(s0, TakeEngine(s, c), id, done)
  {
    hide Hit; hide Count; hide AllYes;
  }

  // ---- counting the answers ----

  lemma {:induction false} GatheredWithout(m: Engines, order: seq<Cfg>, k: Cfg)
    requires k !in order && forall c :: c in order ==> c in m
    ensures Gathered(m - {k}, order) == Gathered(m, order)
  {
    if order != [] {
      assert order[|order| - 1] in order;
      GatheredWithout(m, order[..|order| - 1], k);
    }
  }

  /** What is held ready is in the engines. */
  lemma {:induction false} GatheredBounded(m: Engines, order: seq<Cfg>, x: Mark)
    requires Distinct(order) && forall c :: c in order ==> c in m
    ensures Count(Gathered(m, order), x) <= SimTotals.Total(m, x)
    decreases |order|
  {
    hide SimTotals.Total; hide Count;
    if order == [] {
      NothingCounted(x);
    } else {
      var n := |order| - 1;
      var c := order[n];
      assert c in order && c !in order[..n];
      GatheredWithout(m, order[..n], c);
      GatheredBounded(m - {c}, order[..n], x);
      SimTotals.TotalSplit(m, c, x);
      CountSum(Gathered(m, order[..n]), m[c].hostDone, x);
      HeldReady(m[c], x);
    }
  }

  lemma HeldReady(e: E.Engine, x: Mark)
    ensures Count(e.hostDone, x) <= InEngine(e, x)
  {
    hide Count; hide HostCount; hide ProcReqs; hide CmdReqs;
  }

  function Visited(order: seq<Cfg>): set<Cfg> {
    set c | c in order
  }

  lemma VisitedMore(order: seq<Cfg>)
    requires order != [] && Distinct(order)
    ensures var n := |order| - 1;
            && Visited(order) == Visited(order[..n]) + {order[n]} && order[n] !in Visited(order[..n])
            && Distinct(order[..n]) && forall c :: c in order <==> c in order[..n] || c == order[n]
  {
    assert order == order[..|order| - 1] + [order[|order| - 1]];
  }

  lemma OneMoreOf(ts: set<Cfg>, v: set<Cfg>, c: Cfg)
    requires c !in v
    ensures |ts * (v + {c})| == |ts * v| + if c in ts then 1 else 0
  {
    if c in ts {
      assert ts * (v + {c}) == ts * v + {c};
    } else {
      assert ts * (v + {c}) == ts * v;
    }
  }

  /** If every engine of `ts` holds an answer and there are no more answers than engines in `ts`, each holds one and
      nobody else any. */
  lemma {:induction false} OneEach(m: Engines, order: seq<Cfg>, ts: set<Cfg>, x: Mark)
    requires Distinct(order) && (forall c :: c in order ==> c in m)
    requires forall c :: c in ts && c in order ==> Count(m[c].hostDone, x) >= 1
    ensures Count(Gathered(m, order), x) >= |ts * Visited(order)|
    ensures Count(Gathered(m, order), x) == |ts * Visited(order)| ==>
              forall c :: c in order ==> Count(m[c].hostDone, x) == if c in ts then 1 else 0
  {
    hide Count; hide Visited; hide Distinct;
    if order == [] {
      NothingCounted(x);
      NobodyVisited();
    } else {
      var n := |order| - 1;
      VisitedMore(order);
      OneMoreOf(ts, Visited(order[..n]), order[n]);
      OneEach(m, order[..n], ts, x);
      CountSum(Gathered(m, order[..n]), m[order[n]].hostDone, x);
    }
  }

  lemma NobodyVisited()
    ensures Visited([]) == {}
  {
  }

  lemma {:induction false} OneHit(s: seq<DramReq>, x: Mark, a: DramReq, b: DramReq)
    requires Count(s, x) <= 1 && a in s && b in s && Hit(x, a) && Hit(x, b)
    ensures a == b
  {
    hide Hit;
    if a in s[1..] && b in s[1..] {
      OneHit(s[1..], x, a, b);
    } else if a in s[1..] {
      SomeHit(s[1..], x, a);
    } else if b in s[1..] {
      SomeHit(s[1..], x, b);
    }
  }

  lemma {:induction false} SomeHit(s: seq<DramReq>, x: Mark, a: DramReq)
    requires a in s && Hit(x, a)
    ensures Count(s, x) >= 1
  {
    hide Hit;
    if s[0] != a {
      SomeHit(s[1..], x, a);
    }
  }

  lemma {:induction false} GatheredFrom(m: Engines, order: seq<Cfg>, q: DramReq) returns (c: Cfg)
    requires (forall k :: k in order ==> k in m) && q in Gathered(m, order)
    ensures c in order && q in m[c].hostDone
  {
    var n := |order| - 1;
    assert order[n] in order;
    if q in m[order[n]].hostDone {
      c := order[n];
    } else {
      c := GatheredFrom(m, order[..n], q);
    }
  }

  lemma {:induction false} GatheredHas(m: Engines, order: seq<Cfg>, c: Cfg, q: DramReq)
    requires (forall k :: k in order ==> k in m) && c in order && q in m[c].hostDone
    ensures q in Gathered(m, order)
  {
    var n := |order| - 1;
    if c != order[n] {
      GatheredHas(m, order[..n], c, q);
    }
  }

  /** After its tick an engine holds the truthful answer to a query it was sent. */
  ghost predicate Holds(e: E.Engine, q: DramReq, a: DramReq) {
    e.proc.Cgo? && a in e.hostDone && EC.AnswerIs(E.QueryCmd, q, e.proc.cpu.finished, a)
  }

  lemma EngineHolds(phys: AddrMap, e: E.Engine, env: E.Env, q: DramReq) returns (a: DramReq)
    requires X.Exclusive(e) && e.sched != E.Unconfigured && E.Legal(phys, e, env) && e.proc.Cgo?
    requires (E.QueryCmd, q) in e.cmdQueue
    ensures Holds(E.Tick(phys, e, env), q, a)
  {
    hide X.Sides; hide E.Tick; hide E.Legal; hide EC.AnswerIs;
    EC.TickAnswers(phys, e, env);
    var i :| 0 <= i < |e.cmdQueue| && e.cmdQueue[i] == (E.QueryCmd, q);
    var n := |e.hostDone + e.cmdDone|;
    var answers := E.Tick(phys, e, env).hostDone[n..n + |e.cmdQueue|];
    a := answers[i];
    assert a == E.Tick(phys, e, env).hostDone[n + i];
  }

  lemma HoldsOne(e: E.Engine, q: DramReq, a: DramReq, id: nat)
    requires Holds(e, q, a) && q.id == Some(id) && KindOf(q.addr) == CgoQuery
    ensures Hit(Copy(id), a) && KindOf(a.addr) == CgoQuery && Count(e.hostDone, Copy(id)) >= 1
    ensures a.payload[0] != 0 <==> e.proc.cpu.finished
  {
    hide KindOf; hide Count;
    SomeHit(e.hostDone, Copy(id), a);
  }

  /** Given that every engine of `ts` holds its answer and nobody else any: the gathered copies are queries, and they
      all say yes exactly if all CPUs have finished. */
  lemma AnswersGathered(m: Engines, order: seq<Cfg>, ts: set<Cfg>, q: DramReq, id: nat)
    requires Distinct(order) && (forall c :: c in order <==> c in m) && ts <= m.Keys
    requires q.id == Some(id) && KindOf(q.addr) == CgoQuery
    requires forall c :: c in ts ==> exists a :: Holds(m[c], q, a)
    requires forall c :: c in order ==> Count(m[c].hostDone, Copy(id)) == if c in ts then 1 else 0
    ensures QueriesOnly(Gathered(m, order), id)
    ensures forall c :: c in ts ==> m[c].proc.Cgo?
    ensures AllYes(Gathered(m, order), id) <==> forall c :: c in ts ==> m[c].proc.cpu.finished
  {
    hide KindOf; hide Count; hide Hit; hide Holds;
    var done := Gathered(m, order);
    forall b | b in done && Hit(Copy(id), b)
      ensures exists c, a :: c in ts && Holds(m[c], q, a) && a == b
    {
      var c := GatheredFrom(m, order, b);
      SomeHit(m[c].hostDone, Copy(id), b);
      var a :| Holds(m[c], q, a);
      HoldsOne(m[c], q, a, id);
      IsHeld(m[c], q, a);
      OneHit(m[c].hostDone, Copy(id), a, b);
    }
    forall b | b in done && Hit(Copy(id), b) ensures KindOf(b.addr) == CgoQuery {
      var c, a :| c in ts && Holds(m[c], q, a) && a == b;
      HoldsOne(m[c], q, a, id);
    }
    forall c | c in ts ensures m[c].proc.Cgo? {
      var a :| Holds(m[c], q, a);
      IsHeld(m[c], q, a);
    }
    if AllYes(done, id) {
      forall c | c in ts ensures m[c].proc.cpu.finished {
        var a :| Holds(m[c], q, a);
        HoldsOne(m[c], q, a, id);
        IsHeld(m[c], q, a);
        GatheredHas(m, order, c, a);
      }
    }
    if forall c :: c in ts ==> m[c].proc.cpu.finished {
      forall b | b in done && Hit(Copy(id), b) ensures b.payload[0] != 0 {
        var c, a :| c in ts && Holds(m[c], q, a) && a == b;
        HoldsOne(m[c], q, a, id);
      }
    }
  }

  lemma IsHeld(e: E.Engine, q: DramReq, a: DramReq)
    requires Holds(e, q, a)
    ensures e.proc.Cgo? && a in e.hostDone
  {
  }

  /** After the engines' ticks each engine the query went to holds its answer, and nobody holds another copy. */
  lemma AnswersReady(w: World, s: Sim, env: SimEnv, id: nat, q: DramReq, ts: set<Cfg>)
    requires Good(s) && LegalEnv(w.phys, s, env) && q.id == Some(id) && KindOf(q.addr) == CgoQuery
    requires id in s.commands && s.commands[id].1 == |ts|
    requires forall c :: c in ts ==> OutFor(s, c, (E.QueryCmd, q), id, s.commands[id])
    ensures var m := TickEngines(w.phys, s, env).engines;
            && Distinct(env.order) && (forall c :: c in env.order <==> c in m) && ts <= m.Keys
            && (forall c :: c in ts ==> exists a :: Holds(m[c], q, a))
            && forall c :: c in env.order ==> Count(m[c].hostDone, Copy(id)) == if c in ts then 1 else 0
  {
    hide EnginesOk; hide Live; hide E.Tick; hide E.Legal; hide DramWrappers.Outstanding; hide X.Exclusive;
    hide KindOf; hide Hit; hide Count; hide SimTotals.Total; hide Holds;
    TicksGood(w, s, env);
    var s1 := TickEngines(w.phys, s, env);
    forall c | c in ts ensures exists a :: Holds(s1.engines[c], q, a) {
      EngineTicks(w, s, env, c);
      var a := EngineHolds(w.phys(c), s.engines[c], env.engines[c], q);
      assert Holds(s1.engines[c], q, a);
    }
    forall c | c in ts ensures Count(s1.engines[c].hostDone, Copy(id)) >= 1 {
      var a :| Holds(s1.engines[c], q, a);
      HoldsOne(s1.engines[c], q, a, id);
    }
    assert CounterOk(s1, [], id);
    NothingCounted(Copy(id));
    assert ts * Visited(env.order) == ts;
    OneEach(s1.engines, env.order, ts, Copy(id));
    GatheredBounded(s1.engines, env.order, Copy(id));
    CopiesEqual(s1, env.order, ts, id);
  }

  /** As many answers are ready as engines were asked. */
  lemma CopiesEqual(s: Sim, order: seq<Cfg>, ts: set<Cfg>, id: nat)
    requires Distinct(order) && (forall c :: c in order ==> c in s.engines) && CounterOk(s, [], id)
    requires id in s.commands && s.commands[id].1 == |ts| <= Count(Gathered(s.engines, order), Copy(id))
    ensures Count(Gathered(s.engines, order), Copy(id)) == |ts|
  {
    hide Count; hide SimTotals.Total; hide KindOf;
    NothingCounted(Copy(id));
    GatheredBounded(s.engines, order, Copy(id));
  }

  /** Collecting the answers completes the query. */
  lemma QueryCollected(s: Sim, g: Geometry, order: seq<Cfg>, id: nat, q: DramReq, ts: set<Cfg>)
    requires EnginesOk(s.engines) && SimRuns.Counters(s, []) && q.id == Some(id) && KindOf(q.addr) == CgoQuery
    requires Distinct(order) && (forall c :: c in order <==> c in s.engines) && ts <= s.engines.Keys && ts != {}
    requires id in s.commands && s.commands[id] == (WithWord0(q, 1), |ts|)
    requires forall c :: c in ts ==> exists a :: Holds(s.engines[c], q, a)
    requires forall c :: c in order ==> Count(s.engines[c].hostDone, Copy(id)) == if c in ts then 1 else 0
    ensures CollectEngines(s, order).Some? && forall c :: c in ts ==> s.engines[c].proc.Cgo?
    ensures WithWord0(q, if forall c :: c in ts ==> s.engines[c].proc.cpu.finished then 1 else 0)
              in CollectEngines(s, order).value.engineDone
  {
    hide EnginesOk; hide SimRuns.Counters; hide Live; hide CollectEngines; hide KindOf; hide Hit; hide Count;
    hide Holds; hide Distinct; hide AllYes; hide QueriesOnly;
    var done := Gathered(s.engines, order);
    AnswersGathered(s.engines, order, ts, q, id);
    Overwritten(q, 1, if AllYes(done, id) then 1 else 0);
    CollectEnginesOk(s, g, order);
    TrackEngines(s, id, order);
    AllCounted(s.engines, order, ts, id);
  }

  /** The tick that answers a query. */
  lemma QueryTick(w: World, s: Sim, env: SimEnv, id: nat, q: DramReq, ts: set<Cfg>)
    requires Good(s) && LegalEnv(w.phys, s, env) && q.id == Some(id) && KindOf(q.addr) == CgoQuery && ts != {}
    requires id in s.commands && s.commands[id] == (WithWord0(q, 1), |ts|)
    requires forall c :: c in ts ==> OutFor(s, c, (E.QueryCmd, q), id, s.commands[id])
    ensures var r := Tick(w.phys, w.g, s, env);
            && r.Some? && (forall c :: c in ts ==> c in r.value.engines && r.value.engines[c].proc.Cgo?)
            && WithWord0(q, if forall c :: c in ts ==> r.value.engines[c].proc.cpu.finished then 1 else 0)
                 in r.value.engineDone
  {
    hide Good; hide Live; hide E.Tick; hide Complete; hide EnginesOk; hide SimRuns.Counters; hide Visits;
    hide CollectEngines; hide Unowned; hide CfgOf; hide KindOf; hide Hit; hide Count; hide Holds; hide Distinct;
    hide E.Legal; hide DramWrappers.Outstanding; hide OutFor;
    TickOk(w.phys, w.g, s, env);
    TicksGood(w, s, env);
    AnswersReady(w, s, env, id, q, ts);
    var s1 := TickEngines(w.phys, s, env);
    QueryCollected(s1, w.g, env.order, id, q, ts);
    forall c | c in ts
      ensures c in Tick(w.phys, w.g, s, env).value.engines
      ensures Tick(w.phys, w.g, s, env).value.engines[c].proc == s1.engines[c].proc
    {
      EngineTicks(w, s, env, c);
    }
  }

  lemma AllCounted(m: Engines, order: seq<Cfg>, ts: set<Cfg>, id: nat)
    requires Distinct(order) && (forall c :: c in order <==> c in m) && ts <= m.Keys
    requires forall c :: c in order ==> Count(m[c].hostDone, Copy(id)) == if c in ts then 1 else 0
    ensures Count(Gathered(m, order), Copy(id)) == |ts|
  {
    SumIs(m, order, ts, id);
    assert ts * Visited(order) == ts;
  }

  lemma {:induction false} SumIs(m: Engines, order: seq<Cfg>, ts: set<Cfg>, id: nat)
    requires Distinct(order) && forall c :: c in order ==> c in m
    requires forall c :: c in order ==> Count(m[c].hostDone, Copy(id)) == if c in ts then 1 else 0
    ensures Count(Gathered(m, order), Copy(id)) == |ts * Visited(order)|
  {
    hide Count; hide Visited; hide Distinct;
    if order == [] {
      NothingCounted(Copy(id));
      NobodyVisited();
    } else {
      var n := |order| - 1;
      VisitedMore(order);
      OneMoreOf(ts, Visited(order[..n]), order[n]);
      SumIs(m, order[..n], ts, id);
      CountSum(Gathered(m, order[..n]), m[order[n]].hostDone, Copy(id));
    }
  }

  /** What a query tells. In every run of the simulator: after the first tick behind a query the host can take its
      answer, and it says yes if and only if the CPU of every engine the query went to has finished. */
  lemma QueryTells(w: World, r: Trace, n: nat, t: nat)
    requires IsRun(w, r) && n < t < |r.evs| && NoTick(r.evs, n, t) && r.evs[t].TickEv?
    requires r.evs[n].Enq? && KindOf(r.evs[n].req.addr) == CgoQuery && WellFormed(r.evs[n].req, r.evs[n].size)
    requires Audience(r.states[n].sim, CgoQuery) != {}
    ensures var s, s' := r.states[n].sim, r.states[t + 1].sim;
            && (forall c :: c in Audience(s, CgoQuery) ==> c in s'.engines && s'.engines[c].proc.Cgo?)
            && WithWord0(Sent(s, r.evs[n].req),
                         if forall c :: c in Audience(s, CgoQuery) ==> s'.engines[c].proc.cpu.finished then 1 else 0)
                 in s'.engineDone
  {
    hide Good; hide Enqueue; hide Accounted; hide Live; hide LegalEnv; hide Tick; hide KindOf; hide Audience;
    hide OutFor;
    var s, ev := r.states[n].sim, r.evs[n];
    var id, q, ts := s.mono.nextId, Sent(s, ev.req), Audience(s, CgoQuery);
    assert Linked(w, r, n);
    CommandReaches(s, w, ev.req, ev.size, ev.granted, ev.cgoSched);
    var pending := r.states[n + 1].sim.commands[id];
    forall c | c in ts ensures OutFor(r.states[t].sim, c, (E.QueryCmd, q), id, pending) {
      CommandOut(s, w, ev, c);
      StaysOut(w, r, n + 1, t, c, (E.QueryCmd, q), id, pending);
    }
    var c0 :| c0 in ts;
    IsPending(r.states[t].sim, c0, (E.QueryCmd, q), id, pending);
    SimIsSound(w, r, t);
    assert Linked(w, r, t);
    QueryTick(w, r.states[t].sim, r.evs[t].env, id, q, ts);
  }

  lemma IsPending(s: Sim, c: Cfg, cmd: (E.CgoCmd, DramReq), id: nat, pending: (DramReq, nat))
    requires OutFor(s, c, cmd, id, pending)
    ensures id in s.commands && s.commands[id] == pending
  {
  }
}
