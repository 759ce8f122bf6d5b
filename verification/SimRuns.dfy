/** Whole runs of the simulator: broadcast commands merge into one completion, nothing completes twice,
    and the requests that disappear are exactly those whose address an allocation took over. */
module SimRuns {
  import opened Words
  import opened DramPortals
  import opened DramWrappers
  import opened RequestRouter
  import opened EngineConservation
  import opened SimSpec
  import opened SimTotals
  import E = EngineSpec
  import P = PePipeline
  import X = EngineExclusive
  import R = EngineRuns
  import EP = EngineProcessors
  import Tally

  // ---- commands that are out ----

  type Commands = map<nat, (DramReq, nat)>

  ghost function Held(m: Commands, x: Mark): nat
    decreases |m|
  {
    if m == map[] then 0
    else
      var k :| k in m;
      (if Hit(x, m[k].0) then 1 else 0) + Held(m - {k}, x)
  }

  lemma {:induction false} HeldSplit(m: Commands, k: nat, x: Mark)
    requires k in m
    ensures Held(m, x) == (if Hit(x, m[k].0) then 1 else 0) + Held(m - {k}, x)
    decreases |m|
  {
    hide Hit;
    var k0 :| k0 in m && Held(m, x) == (if Hit(x, m[k0].0) then 1 else 0) + Held(m - {k0}, x);
    if k0 != k {
      HeldSplit(m - {k0}, k, x);
      HeldSplit(m - {k}, k0, x);
      assert (m - {k0}) - {k} == (m - {k}) - {k0};
    }
  }

  lemma HeldUpdate(m: Commands, k: nat, v: (DramReq, nat), x: Mark)
    ensures Held(m[k := v], x) + (if k in m
          && Hit(x, m[k].0) then 1 else 0) == Held(m, x) + (if Hit(x, v.0) then 1 else 0)
  {
    hide Hit;
    HeldSplit(m[k := v], k, x);
    assert m[k := v] - {k} == m - {k};
    if k in m {
      HeldSplit(m, k, x);
    } else {
      assert m - {k} == m;
    }
  }

  // ---- the invariant, in the middle of collecting the completions `rest` ----

  ghost predicate EnginesOk(engines: Engines) {
    forall c :: c in engines ==> EngineOk(engines[c]) && (c.CgoCfg? <==> engines[c].proc.Cgo?)
  }

  /** Copies of command `n` that are still in an engine or about to be collected. */
  ghost function CopiesOut(engines: Engines, rest: seq<DramReq>, n: nat): nat {
    Total(engines, Copy(n)) + Count(rest, Copy(n))
  }

  /** The counter of a pending command is the number of its copies that have not been collected. */
  ghost predicate CounterOk(s: Sim, rest: seq<DramReq>, n: nat) {
    if n in s.commands then
      && s.commands[n].1 == CopiesOut(s.engines, rest, n) && s.commands[n].1 > 0
      && IsBroadcast(s.commands[n].0.addr) && s.commands[n].0.id == Some(n) && n < s.mono.nextId
    else CopiesOut(s.engines, rest, n) == 0
  }

  ghost predicate Counters(s: Sim, rest: seq<DramReq>) {
    && (forall n: nat :: CounterOk(s, rest, n))
    && Total(s.engines, Stray) + Count(rest, Stray) == 0
  }

  /** How often the host request of `x` is still on its way back to the host. The copies of a broadcast
      command in the engines do not count, and neither do requests to owned addresses in the plain
      DRAM: both are answered elsewhere. */
  ghost function Live(s: Sim, g: Geometry, rest: seq<DramReq>, x: Mark): nat
    requires x.Key?
  {
    Count(s.immNext, x) + Count(s.immReady, x) + Count(s.memDone, x) + Count(s.engineDone, x) + Held(s.commands, x)
    + (if IsBroadcast(x.req.addr) then 0 else Total(s.engines, x) + Count(rest, x))
    + Count(Unowned(s.engines, g, s.mono.pending), x)
  }

  // ---- collecting one completion ----

  lemma RestFirst(rest: seq<DramReq>, x: Mark)
    requires rest != []
    ensures Count(rest, x) == (if Hit(x, rest[0]) then 1 else 0) + Count(rest[1..], x)
  {
  }

  lemma NotNegative(m: Engines, x: Mark)
    ensures Total(m, x) >= 0
  {
  }

  /** A completed copy always finds its command; the counters stay exact. */
  lemma CollectCounters(s: Sim, rest: seq<DramReq>)
    requires rest != [] && Counters(s, rest)
    ensures var r := CollectOne(s, rest[0]);
            && r.Some? && Counters(r.value, rest[1..])
            && r.value == s.(engineDone := r.value.engineDone, commands := r.value.commands)
  {
    hide Total;
    var q := rest[0];
    RestFirst(rest, Stray);
    NotNegative(s.engines, Stray);
    if IsBroadcast(q.addr) {
      assert !Hit(Stray, q);
      assert q.id.Some?;
      var id := q.id.value;
      assert Hit(Copy(id), q);
      RestFirst(rest, Copy(id));
      assert CounterOk(s, rest, id);
      assert s.commands[id].1 > 0;
    }
    var s' := CollectOne(s, q).value;
    forall n: nat ensures CounterOk(s', rest[1..], n) {
      RestFirst(rest, Copy(n));
      assert CounterOk(s, rest, n);
      NotNegative(s.engines, Copy(n));
    }
    assert s'.engines == s.engines;
    assert Total(s'.engines, Stray) + Count(rest[1..], Stray) == 0;
  }

  lemma MergedKey(cmd: DramReq, w: u64)
    ensures Strip(WithWord0(cmd, w)) == Strip(cmd)
  {
    assert cmd.payload[0 := w][0 := 0] == cmd.payload[0 := 0];
  }

  /** The completion that is collected stays with the simulator until the host takes it. */
  lemma CollectLive(s: Sim, g: Geometry, rest: seq<DramReq>, x: Mark)
    requires rest != [] && Counters(s, rest) && x.Key?
    ensures var r := CollectOne(s, rest[0]);
            r.Some? && Live(r.value, g, rest[1..], x) == Live(s, g, rest, x)
  {
    CollectCounters(s, rest);
    hide Total; hide Held; hide Counters; hide Unowned;
    var q := rest[0];
    var s' := CollectOne(s, q).value;
    RestFirst(rest, x);
    hide Count;
    if !IsBroadcast(q.addr) {
      CountSum(s.engineDone, [q], x);
      CountOne(q, x);
    } else {
      var id := q.id.value;
      var (cmd, left) := s.commands[id];
      HeldSplit(s.commands, id, x);
      MergedKey(cmd, 1);
      MergedKey(cmd, 0);
      if left == 1 {
        var m := s'.engineDone[|s.engineDone|];
        CountSum(s.engineDone, [m], x);
        CountOne(m, x);
      } else {
        HeldUpdate(s.commands, id, s'.commands[id], x);
      }
    }
  }

  lemma {:induction false} CollectAllOk(s: Sim, g: Geometry, done: seq<DramReq>, k: nat)
    requires Counters(s, done) && k <= |done|
    ensures var r := CollectAll(s, done[..k]);
            && r.Some? && Counters(r.value, done[k..])
            && r.value == s.(engineDone := r.value.engineDone, commands := r.value.commands)
            && forall x: Mark :: x.Key? ==> Live(r.value, g, done[k..], x) == Live(s, g, done, x)
  {
    hide Counters; hide Live; hide CollectOne;
    if k == 0 {
      assert done[..0] == [] && done[0..] == done;
    } else {
      CollectAllOk(s, g, done, k - 1);
      var r := CollectAll(s, done[..k - 1]).value;
      assert done[..k][..k - 1] == done[..k - 1] && done[k - 1..][1..] == done[k..] && done[k - 1..][0] == done[k - 1];
      CollectCounters(r, done[k - 1..]);
      forall x: Mark | x.Key? ensures Live(CollectOne(r, done[k - 1]).value, g, done[k..], x) == Live(s, g, done, x) {
        CollectLive(r, g, done[k - 1..], x);
      }
    }
  }

  // ---- collecting all engines ----

  lemma TakeEngineOk(s: Sim, g: Geometry, c: Cfg)
    requires c in s.engines && EnginesOk(s.engines) && Counters(s, [])
    ensures var s1 := TakeEngine(s, c);
            && EnginesOk(s1.engines) && Counters(s1, s.engines[c].hostDone)
            && s1.engines.Keys == s.engines.Keys
            && (forall k :: k in s1.engines && k != c ==> s1.engines[k] == s.engines[k]) && s1.engines[c].hostDone == []
            && forall x: Mark :: x.Key? ==> Live(s1, g, s.engines[c].hostDone, x) == Live(s, g, [], x)
  {
    hide Total; hide EngineOk; hide Held; hide CfgOf; hide IsBroadcast; hide Hit;
    var done := s.engines[c].hostDone;
    var e1 := s.engines[c].(hostDone := []);
    var s1 := TakeEngine(s, c);
    EmptiedOk(s.engines[c]);
    forall x: Mark ensures Total(s1.engines, x) + Count(done, x) == Total(s.engines, x) && Count([], x) == 0 {
      TotalUpdate(s.engines, c, e1, x);
      EmptiedCount(s.engines[c], x);
      NothingCounted(x);
    }
    forall n: nat ensures CounterOk(s1, done, n) {
      assert CounterOk(s, [], n);
    }
    assert Total(s1.engines, Stray) + Count(done, Stray) == Total(s.engines, Stray);
    SameOwners(s.engines, s1.engines, g, s.mono.pending);
    hide Count;
  }

  lemma EmptiedOk(e: E.Engine)
    requires EngineOk(e)
    ensures EngineOk(e.(hostDone := []))
  {
    hide EP.ProcInBank;
  }

  lemma EmptiedCount(e: E.Engine, x: Mark)
    ensures InEngine(e.(hostDone := []), x) + Count(e.hostDone, x) == InEngine(e, x)
  {
    hide Hit; hide HostCount;
    NothingCounted(x);
  }

  /** Ownership depends on which engines exist only. */
  lemma {:induction false} SameOwners(m: Engines, m': Engines, g: Geometry, s: seq<DramReq>)
    requires m.Keys == m'.Keys
    ensures Unowned(m', g, s) == Unowned(m, g, s)
  {
    if s != [] {
      SameOwners(m, m', g, s[..|s| - 1]);
    }
  }

  /** Visiting the engines in any order collects everything and panics nowhere. */
  lemma {:induction false} CollectEnginesOk(s: Sim, g: Geometry, order: seq<Cfg>)
    requires EnginesOk(s.engines) && Counters(s, []) && forall c :: c in order ==> c in s.engines
    ensures var r := CollectEngines(s, order);
            && r.Some? && EnginesOk(r.value.engines) && Counters(r.value, []) && r.value.engines.Keys == s.engines.Keys
            && r.value == s.(engines := r.value.engines, engineDone := r.value.engineDone, commands := r.value.commands)
            && (forall c :: c in order ==> r.value.engines[c].hostDone == [])
            && forall x: Mark :: x.Key? ==> Live(r.value, g, [], x) == Live(s, g, [], x)
  {
    hide Counters; hide Live; hide EnginesOk;
    if order != [] {
      var n := |order| - 1;
      var c := order[n];
      assert c in order;
      CollectEnginesOk(s, g, order[..n]);
      var s1 := CollectEngines(s, order[..n]).value;
      TakeEngineOk(s1, g, c);
      var done := s1.engines[c].hostDone;
      CollectAllOk(TakeEngine(s1, c), g, done, |done|);
      assert done[..|done|] == done && done[|done|..] == [];
      var s2 := CollectAll(TakeEngine(s1, c), done).value;
      forall k | k in order ensures s2.engines[k].hostDone == [] {
        assert k != c ==> k in order[..n];
      }
    }
  }

  // ---- a tick ----

  ghost predicate Good(s: Sim) {
    EnginesOk(s.engines) && Counters(s, [])
  }

  /** The DRAMs complete only what they have accepted; every engine is visited once. */
  ghost predicate LegalEnv(phys: Cfg -> AddrMap, s: Sim, env: SimEnv) {
    && Configured(s.engines) && env.engines.Keys == s.engines.Keys && Visits(env.order, s.engines)
    && multiset(env.completions) <= Outstanding(SAME, s.mono.pending)
    && forall c :: c in s.engines ==> E.Legal(phys(c), s.engines[c], env.engines[c])
  }

  lemma TickEnginesOk(phys: Cfg -> AddrMap, s: Sim, env: SimEnv)
    requires Good(s) && LegalEnv(phys, s, env)
    ensures var s1 := TickEngines(phys, s, env);
            && EnginesOk(s1.engines) && s1.engines.Keys == s.engines.Keys
            && forall x: Mark :: Total(s1.engines, x) == Total(s.engines, x)
  {
    hide Total; hide EngineOk; hide E.Tick; hide E.Legal; hide InEngine; hide Counters; hide Outstanding;
    var s1 := TickEngines(phys, s, env);
    assert s1.engines.Keys == s.engines.Keys;
    forall c | c in s1.engines ensures EngineOk(s1.engines[c]) && (c.CgoCfg? <==> s1.engines[c].proc.Cgo?) {
      EngineTickOk(phys(c), s.engines[c], env.engines[c], Stray);
    }
    forall x: Mark ensures Total(s1.engines, x) == Total(s.engines, x) {
      forall c | c in s.engines ensures InEngine(s1.engines[c], x) == InEngine(s.engines[c], x) {
        EngineTickOk(phys(c), s.engines[c], env.engines[c], x);
      }
      TotalSame(s.engines, s1.engines, x);
    }
  }

  lemma {:induction false} UnownedSum(m: Engines, g: Geometry, s: seq<DramReq>, t: seq<DramReq>)
    ensures Unowned(m, g, s + t) == Unowned(m, g, s) + Unowned(m, g, t)
  {
    hide CfgOf;
    if t == [] {
      assert s + t == s;
    } else {
      UnownedSum(m, g, s, t[..|t| - 1]);
      assert (s + t)[..|s + t| - 1] == s + t[..|t| - 1];
    }
  }

  function UnownedCount(m: Engines, g: Geometry, s: seq<DramReq>, x: Mark): nat {
    Count(Unowned(m, g, s), x)
  }

  lemma UnownedCountSum(m: Engines, g: Geometry, s: seq<DramReq>, t: seq<DramReq>, x: Mark)
    ensures UnownedCount(m, g, s + t, x) == UnownedCount(m, g, s, x) + UnownedCount(m, g, t, x)
  {
    hide Count; hide Unowned;
    UnownedSum(m, g, s, t);
    CountSum(Unowned(m, g, s), Unowned(m, g, t), x);
  }

  lemma {:induction false} UnownedIsTotal(m: Engines, g: Geometry, s: seq<DramReq>, x: Mark, w: DramReq -> nat)
    requires forall q :: w(q) == UnownedCount(m, g, [q], x)
    ensures UnownedCount(m, g, s, x) == Tally.Total(w, s)
  {
    if s != [] {
      hide UnownedCount;
      UnownedIsTotal(m, g, s[1..], x, w);
      assert s == [s[0]] + s[1..];
      UnownedCountSum(m, g, [s[0]], s[1..], x);
    }
  }

  /** Which requests of the plain DRAM count does not depend on the order of its completions. */
  lemma UnownedPermuted(m: Engines, g: Geometry, s: seq<DramReq>, t: seq<DramReq>, x: Mark)
    requires multiset(s) == multiset(t)
    ensures UnownedCount(m, g, s, x) == UnownedCount(m, g, t, x)
  {
    hide UnownedCount;
    var w := (q: DramReq) => UnownedCount(m, g, [q], x);
    UnownedIsTotal(m, g, s, x, w);
    UnownedIsTotal(m, g, t, x, w);
    Tally.TotalPermuted(w, s, t);
  }

  /** A tick of the simulator panics nowhere, keeps every counter exact, and loses no request. */
  lemma TickOk(phys: Cfg -> AddrMap, g: Geometry, s: Sim, env: SimEnv)
    requires Good(s) && LegalEnv(phys, s, env)
    ensures var r := Tick(phys, g, s, env);
            && r.Some? && Good(r.value)
            && forall x: Mark :: x.Key? ==> Live(r.value, g, [], x) == Live(s, g, [], x)
  {
    hide Total; hide EnginesOk; hide CollectEngines; hide E.Legal; hide Outstanding; hide Complete; hide CfgOf;
    hide Held;
    hide Unowned; hide Count; hide E.Tick; hide Visits;
    TickEnginesOk(phys, s, env);
    var s1 := TickEngines(phys, s, env);
    forall n: nat ensures CounterOk(s1, [], n) {
      assert CounterOk(s, [], n);
    }
    assert Total(s1.engines, Stray) == Total(s.engines, Stray);
    VisitsAll(env.order, s.engines);
    CollectEnginesOk(s1, g, env.order);
    var s2 := CollectEngines(s1, env.order).value;
    PanicsExactly(SAME, s.mono.pending, env.completions);
    var (done, left) := Complete(SAME, s.mono.pending, env.completions).value;
    var s3 := Tick(phys, g, s, env).value;
    forall n: nat ensures CounterOk(s3, [], n) {
      assert CounterOk(s2, [], n);
    }
    forall x: Mark | x.Key? ensures Live(s3, g, [], x) == Live(s, g, [], x) {
      SameOwners(s.engines, s1.engines, g, s.mono.pending);
      SameOwners(s.engines, s2.engines, g, s.mono.pending);
      SameOwners(s.engines, s2.engines, g, left);
      SameOwners(s.engines, s2.engines, g, done);
      assert multiset(done + left) == multiset(s.mono.pending);
      UnownedPermuted(s.engines, g, done + left, s.mono.pending, x);
      UnownedSum(s.engines, g, done, left);
      CountSum(Unowned(s.engines, g, done), Unowned(s.engines, g, left), x);
      CountSum(s2.memDone, Unowned(s.engines, g, done), x);
      CountSum(s2.immReady, s2.immNext, x);
      NothingCounted(x);
      assert Live(s1, g, [], x) == Live(s, g, [], x);
    }
  }

  lemma VisitsAll(order: seq<Cfg>, m: Engines)
    requires Visits(order, m)
    ensures forall c :: c in order <==> c in m
  {
  }

  // ---- enqueueing ----

  predicate HostMade(q: DramReq) {
    !q.isPim && q.id == None && q.issueTime == None
  }

  /** A PE instruction outside the pseudo bank is fatal. */
  predicate OperandsOk(q: DramReq, ops: Operands) {
    KindOf(q.addr) == FgoInst ==> EP.JobInBank(ops(q.addr, q.payload))
  }

  lemma SendOk(e: E.Engine, k: Kind, q: DramReq, ops: Operands, x: Mark)
    requires EngineOk(e) && Targets(e, k) && (k == FgoInst ==> EP.JobInBank(ops(q.addr, q.payload)))
    ensures var e' := SendCopy(e, k, q, ops);
            && EngineOk(e') && e'.proc.Cgo? == e.proc.Cgo?
            && InEngine(e', x) == InEngine(e, x) + (if Hit(x, q) then 1 else 0)
  {
    hide InEngine; hide X.Exclusive; hide NoCommand; hide Hit; hide EP.JobInBank;
    CountOne(q, x);
    if k == FgoInst {
      var job := P.Job(ops(q.addr, q.payload), Some(q));
      R.JobArrives(e, job, x);
      X.HostIsExclusive(e, q, E.HostOnly, job, E.StartCmd);
    } else {
      R.CmdArrives(e, CmdOf(k), q, x);
      X.HostIsExclusive(e, q, E.HostOnly, R.NoJob(), CmdOf(k));
    }
  }

  lemma BroadcastTotals(s: Sim, k: Kind, n: DramReq, ops: Operands, x: Mark)
    requires EnginesOk(s.engines) && (k == FgoInst ==> EP.JobInBank(ops(n.addr, n.payload)))
    ensures var ts := set c | c in s.engines && Targets(s.engines[c], k);
            var m := map c | c in s.engines ::
              if Targets(s.engines[c], k) then SendCopy(s.engines[c], k, n, ops) else s.engines[c];
            EnginesOk(m) && m.Keys == s.engines.Keys
                  && Total(m, x) == Total(s.engines, x) + (if Hit(x, n) then |ts| else 0)
  {
    hide InEngine; hide EngineOk; hide Hit; hide Total; hide SendCopy; hide EP.JobInBank; hide Targets;
    var ts := set c | c in s.engines && Targets(s.engines[c], k);
    var m := map c | c in s.engines ::
      if Targets(s.engines[c], k) then SendCopy(s.engines[c], k, n, ops) else s.engines[c];
    assert m.Keys == s.engines.Keys;
    forall c | c in s.engines
      ensures EngineOk(m[c]) && (c.CgoCfg? <==> m[c].proc.Cgo?)
      ensures InEngine(m[c], x) == InEngine(s.engines[c], x) + (if c in ts && Hit(x, n) then 1 else 0)
    {
      if c in ts {
        SendOk(s.engines[c], k, n, ops, x);
      }
    }
    if Hit(x, n) {
      TotalGain(s.engines, m, ts, x);
    } else {
      TotalSame(s.engines, m, x);
    }
  }

  /** A broadcast command is pending exactly as long as a copy of it is out. */
  lemma CommandOk(s: Sim, g: Geometry, q: DramReq, ops: Operands)
    requires Good(s) && HostMade(q) && IsBroadcast(q.addr) && OperandsOk(q, ops)
    ensures var s' := EnqueueCommand(s, q, KindOf(q.addr), ops);
            && Good(s')
            && forall x: Mark :: x.Key? ==> Live(s', g, [], x) == Live(s, g, [], x) + (if Hit(x, q) then 1 else 0)
  {
    hide Total; hide EnginesOk; hide Held; hide CfgOf; hide SendCopy; hide Targets; hide Count;
    hide EP.JobInBank; hide Unowned;
    hide KindOf;
    var k := KindOf(q.addr);
    var n := SimSpec.Numbered(s, q);
    var id := s.mono.nextId;
    var ts := set c | c in s.engines && Targets(s.engines[c], k);
    var s' := EnqueueCommand(s, q, k, ops);
    assert CounterOk(s, [], id);
    BroadcastTotals(s, k, n, ops, Stray);
    forall m: nat ensures CounterOk(s', [], m) {
      assert CounterOk(s, [], m);
      BroadcastTotals(s, k, n, ops, Copy(m));
      NothingCounted(Copy(m));
      if ts == {} {
        assert |ts| == 0;
      }
    }
    forall x: Mark | x.Key? ensures Live(s', g, [], x) == Live(s, g, [], x) + (if Hit(x, q) then 1 else 0) {
      BroadcastTotals(s, k, n, ops, x);
      MergedKey(n, 1);
      if ts == {} {
        CountSum(s.immNext, [n], x);
        CountOne(n, x);
      } else {
        HeldUpdate(s.commands, id, s'.commands[id], x);
        SameOwners(s.engines, s'.engines, g, s.mono.pending);
      }
    }
  }

  lemma NextOk(s: Sim, g: Geometry, q: DramReq)
    requires Good(s) && HostMade(q)
    ensures var s' := CompleteNext(s, q);
            && Good(s')
            && forall x: Mark :: x.Key? ==> Live(s', g, [], x) == Live(s, g, [], x) + (if Hit(x, q) then 1 else 0)
  {
    hide Total; hide EnginesOk; hide Held; hide CfgOf; hide Count; hide Unowned;
    var s' := CompleteNext(s, q);
    var n := SimSpec.Numbered(s, q);
    forall m: nat ensures CounterOk(s', [], m) {
      assert CounterOk(s, [], m);
    }
    forall x: Mark | x.Key? ensures Live(s', g, [], x) == Live(s, g, [], x) + (if Hit(x, q) then 1 else 0) {
      CountSum(s.immNext, [n], x);
      CountOne(n, x);
    }
  }

  lemma MemEngineOk(e: E.Engine, q: DramReq)
    requires EngineOk(e) && HostMade(q) && !IsBroadcast(q.addr)
    ensures EngineOk(E.EnqueueMem(e, q)) && E.EnqueueMem(e, q).proc == e.proc
  {
    hide X.Exclusive; hide IsBroadcast;
    X.HostIsExclusive(e, q, E.HostOnly, R.NoJob(), E.StartCmd);
  }

  lemma UnownedOne(m: Engines, g: Geometry, s: seq<DramReq>, q: DramReq)
    ensures Unowned(m, g, s + [q]) == Unowned(m, g, s) + (if CfgOf(m, g, q.addr) == None then [q] else [])
  {
    assert (s + [q])[..|s + [q]| - 1] == s;
  }

  /** A memory request is answered by the engine that owns its address, or else by the plain DRAM. */
  lemma MemoryOk(s: Sim, g: Geometry, q: DramReq)
    requires Good(s) && HostMade(q) && KindOf(q.addr) == Memory
    ensures var s' := EnqueueMemory(s, g, q);
            && Good(s')
            && forall x: Mark :: x.Key? ==> Live(s', g, [], x) == Live(s, g, [], x) + (if Hit(x, q) then 1 else 0)
  {
    hide Total; hide Held; hide CfgOf; hide Count; hide Unowned; hide EngineOk; hide AcceptsMem; hide InEngine;
    var c := CfgOf(s.engines, g, q.addr);
    OwnerExists(s.engines, g, q.addr);
    if c.Some? && !AcceptsMem(s.engines[c.value]) {
      NextOk(s, g, q);
    } else {
      var n := SimSpec.Numbered(s, q);
      var s' := EnqueueMemory(s, g, q);
      if c.Some? {
        MemEngineOk(s.engines[c.value], q);
      }
      forall x: Mark
        ensures Total(s'.engines, x) == Total(s.engines, x) + (if c.Some? && Hit(x, q) then 1 else 0)
      {
        if c.Some? {
          R.MemArrives(s.engines[c.value], q, x);
          CountOne(q, x);
          TotalUpdate(s.engines, c.value, s'.engines[c.value], x);
        }
      }
      assert Total(s'.engines, Stray) == Total(s.engines, Stray);
      forall m: nat ensures CounterOk(s', [], m) {
        assert CounterOk(s, [], m);
        assert Total(s'.engines, Copy(m)) == Total(s.engines, Copy(m));
      }
      forall x: Mark | x.Key? ensures Live(s', g, [], x) == Live(s, g, [], x) + (if Hit(x, q) then 1 else 0) {
        assert s'.engines.Keys == s.engines.Keys;
        SameOwners(s.engines, s'.engines, g, s'.mono.pending);
        UnownedOne(s.engines, g, s.mono.pending, n);
        CountSum(Unowned(s.engines, g, s.mono.pending), [n], x);
        CountOne(n, x);
        assert Unowned(s.engines, g, s.mono.pending) + [] == Unowned(s.engines, g, s.mono.pending);
        assert Hit(x, n) == Hit(x, q);
      }
    }
  }

  lemma OwnerExists(m: Engines, g: Geometry, addr: u64)
    ensures CfgOf(m, g, addr).Some? ==> CfgOf(m, g, addr).value in m
  {
  }

  // ---- allocation ----

  /** Requests of the plain DRAM whose address had no owner and has one now. */
  function NewlyOwned(m: Engines, m': Engines, g: Geometry, s: seq<DramReq>): seq<DramReq> {
    if s == [] then []
    else
      var q := s[|s| - 1];
      NewlyOwned(m, m', g, s[..|s| - 1]) +
      (if CfgOf(m, g, q.addr) == None && CfgOf(m', g, q.addr) != None then [q] else [])
  }

  lemma {:induction false} OwnershipMoves(m: Engines, m': Engines, g: Geometry, s: seq<DramReq>, x: Mark)
    requires m.Keys <= m'.Keys
    ensures Count(Unowned(m, g, s), x) == Count(Unowned(m', g, s), x) + Count(NewlyOwned(m, m', g, s), x)
  {
    hide Count;
    NothingCounted(x);
    if s != [] {
      var t, q := s[..|s| - 1], s[|s| - 1];
      OwnershipMoves(m, m', g, t, x);
      StillOwned(m, m', g, q.addr);
      CountSum(Unowned(m, g, t), [q], x);
      CountSum(Unowned(m', g, t), [q], x);
      CountSum(NewlyOwned(m, m', g, t), [q], x);
      assert Unowned(m, g, t) + [] == Unowned(m, g, t) && Unowned(m', g, t) + [] == Unowned(m', g, t);
      assert NewlyOwned(m, m', g, t) + [] == NewlyOwned(m, m', g, t);
      hide CfgOf;
    }
  }

  lemma StillOwned(m: Engines, m': Engines, g: Geometry, addr: u64)
    requires m.Keys <= m'.Keys
    ensures CfgOf(m, g, addr) != None ==> CfgOf(m', g, addr) != None
  {
  }

  lemma NewEngineOk(c: Cfg, cgoSched: E.Sched, x: Mark)
    requires cgoSched == E.CgoOnly || cgoSched == E.HostCgoShare
    ensures var e := NewFor(c, cgoSched);
            EngineOk(e) && (c.CgoCfg? <==> e.proc.Cgo?) && InEngine(e, x) == 0
  {
    var proc := if c.CgoCfg? then E.Cgo(NEW_CPU, B.NEW_BOOT) else E.Fgo(P.NewPe());
    NewProcOk(proc);
    hide EP.ProcInBank; hide Hit;
    var sched := if c.CgoCfg? then cgoSched else E.HostFgoShare;
    R.StartIsGood(proc);
    X.HostIsExclusive(E.NewEngine(proc), NewReq(0, true, true), sched, R.NoJob(), E.StartCmd);
    NothingCounted(x);
  }

  lemma NewProcOk(proc: E.Processor)
    requires proc == E.Cgo(NEW_CPU, B.NEW_BOOT) || proc == E.Fgo(P.NewPe())
    ensures EP.ProcInBank(proc) && ProcReqs(proc) == []
  {
  }

  lemma {:induction false} AddOk(m: Engines, more: seq<Cfg>, cgoSched: E.Sched)
    requires EnginesOk(m) && (cgoSched == E.CgoOnly || cgoSched == E.HostCgoShare)
    ensures var m' := AddEngines(m, more, cgoSched);
            EnginesOk(m') && m.Keys <= m'.Keys && forall x: Mark :: Total(m', x) == Total(m, x)
  {
    hide EngineOk; hide Total; hide NewFor; hide InEngine;
    if more != [] {
      var n := |more| - 1;
      AddOk(m, more[..n], cgoSched);
      var before := AddEngines(m, more[..n], cgoSched);
      NewEngineOk(more[n], cgoSched, Stray);
      if more[n] !in before {
        forall x: Mark ensures Total(before[more[n] := NewFor(more[n], cgoSched)], x) == Total(before, x) {
          NewEngineOk(more[n], cgoSched, x);
          TotalUpdate(before, more[n], NewFor(more[n], cgoSched), x);
        }
      }
    }
  }

  /** An allocation costs exactly the requests that were on their way back from an address it takes. */
  lemma AllocOk(s: Sim, g: Geometry, q: DramReq, granted: seq<Cfg>, cgoSched: E.Sched)
    requires Good(s) && HostMade(q) && (cgoSched == E.CgoOnly || cgoSched == E.HostCgoShare)
    ensures var s' := EnqueueAlloc(s, q, granted, cgoSched);
            && Good(s') && s'.mono.pending == s.mono.pending
            && forall x: Mark :: x.Key? ==>
                 Live(s', g, [], x) + Count(NewlyOwned(s.engines, s'.engines, g, s.mono.pending), x)
                 == Live(s, g, [], x) + (if Hit(x, q) then 1 else 0)
  {
    hide Total; hide Held; hide CfgOf; hide Count; hide Unowned; hide EngineOk; hide AddEngines;
    AddOk(s.engines, granted, cgoSched);
    var s1 := s.(engines := AddEngines(s.engines, granted, cgoSched));
    var w := |granted| % 0x1_0000_0000_0000_0000;
    assert Total(s1.engines, Stray) == Total(s.engines, Stray);
    forall m: nat ensures CounterOk(s1, [], m) {
      assert CounterOk(s, [], m);
    }
    NextOk(s1, g, WithWord0(q, w));
    MergedKey(q, w);
    forall x: Mark | x.Key?
      ensures Live(s1, g, [], x) + Count(NewlyOwned(s.engines, s1.engines, g, s.mono.pending), x) == Live(s, g, [], x)
    {
      OwnershipMoves(s.engines, s1.engines, g, s.mono.pending, x);
    }
  }

  // ---- runs ----

  datatype Event =
    | Enq(req: DramReq, size: nat, granted: seq<Cfg>, cgoSched: E.Sched)
    | TickEv(env: SimEnv)
    | Take

  /** The environment that does not change: address geometry, engines' address maps, PE operands. */
  datatype World = World(g: Geometry, phys: Cfg -> AddrMap, ops: Operands)

  /** The simulator, what the host enqueued and took back, and what allocations cost. */
  datatype RunState = RunState(sim: Sim, sent: seq<DramReq>, taken: seq<DramReq>, lost: seq<DramReq>)

  ghost predicate Allowed(w: World, s: Sim, ev: Event) {
    match ev
    case Enq(q, _, _, sched) =>
      HostMade(q) && OperandsOk(q, w.ops) && (sched == E.CgoOnly || sched == E.HostCgoShare)
    case TickEv(env) => LegalEnv(w.phys, s, env)
    case Take => true
  }

  ghost function RunOne(w: World, s: RunState, ev: Event): RunState
    requires Allowed(w, s.sim, ev)
  {
    match ev
    case Enq(q, size, granted, sched) =>
      var s' := Enqueue(s.sim, w.g, w.ops, q, size, granted, sched);
      RunState(s', s.sent + [q], s.taken, s.lost + NewlyOwned(s.sim.engines, s'.engines, w.g, s.sim.mono.pending))
    case TickEv(env) =>
      var r := Tick(w.phys, w.g, s.sim, env);
      if r == None then s else s.(sim := r.value)
    case Take =>
      var (q, s') := GetComplete(s.sim);
      s.(sim := s', taken := s.taken + q)
  }

  datatype Trace = Trace(evs: seq<Event>, states: seq<RunState>)

  ghost predicate Linked(w: World, r: Trace, i: nat)
    requires i < |r.evs| && |r.states| == |r.evs| + 1
  {
    Allowed(w, r.states[i].sim, r.evs[i]) && r.states[i + 1] == RunOne(w, r.states[i], r.evs[i])
  }

  ghost predicate IsRun(w: World, r: Trace) {
    && |r.states| == |r.evs| + 1 && r.states[0] == RunState(NEW_SIM, [], [], [])
    && forall i: nat :: i < |r.evs| ==> Linked(w, r, i)
  }

  ghost predicate Accounted(w: World, s: RunState) {
    forall q: DramReq :: Balanced(w, s, q)
  }

  /** Sent = on the way back + taken back + lost to an allocation. */
  ghost predicate Balanced(w: World, s: RunState, q: DramReq) {
    Live(s.sim, w.g, [], Key(q)) + Count(s.taken, Key(q)) + Count(s.lost, Key(q)) == Count(s.sent, Key(q))
  }

  lemma {:induction false} NoneNew(m: Engines, m': Engines, g: Geometry, s: seq<DramReq>)
    requires m.Keys == m'.Keys
    ensures NewlyOwned(m, m', g, s) == []
  {
    if s != [] {
      NoneNew(m, m', g, s[..|s| - 1]);
    }
  }

  lemma EnqKeys(s: Sim, w: World, q: DramReq, size: nat, granted: seq<Cfg>, sched: E.Sched)
    requires !(KindOf(q.addr) == CgoAlloc || KindOf(q.addr) == FgoAlloc) || size != 8
          || ExpectsWrite(KindOf(q.addr)) != !q.isRead
    ensures Enqueue(s, w.g, w.ops, q, size, granted, sched).engines.Keys == s.engines.Keys
  {
    hide KindOf; hide AcceptsMem;
    OwnerExists(s.engines, w.g, q.addr);
    hide CfgOf;
    assert (map c | c in s.engines :: s.engines[c]) == s.engines;
  }

  /** One enqueued request adds one to what is on the way, and nothing else changes except what an
      allocation costs. */
  lemma EnqueueOk(s: Sim, w: World, q: DramReq, size: nat, granted: seq<Cfg>, sched: E.Sched)
    requires Good(s) && HostMade(q) && OperandsOk(q, w.ops) && (sched == E.CgoOnly || sched == E.HostCgoShare)
    ensures var s' := Enqueue(s, w.g, w.ops, q, size, granted, sched);
            && Good(s')
            && forall x: Mark :: x.Key? ==>
                 Live(s', w.g, [], x) + Count(NewlyOwned(s.engines, s'.engines, w.g, s.mono.pending), x)
                 == Live(s, w.g, [], x) + (if Hit(x, q) then 1 else 0)
  {
    hide Good; hide Live; hide EnqueueMemory; hide EnqueueCommand; hide EnqueueAlloc; hide CompleteNext; hide Hit;
    hide NewlyOwned; hide KindOf; hide OperandsOk; hide Count;
    var s' := Enqueue(s, w.g, w.ops, q, size, granted, sched);
    var k := KindOf(q.addr);
    if k != Memory && size == 8 && ExpectsWrite(k) == !q.isRead && (k == CgoAlloc || k == FgoAlloc) {
      AllocOk(s, w.g, q, granted, sched);
    } else {
      EnqKeys(s, w, q, size, granted, sched);
      NoneNew(s.engines, s'.engines, w.g, s.mono.pending);
      forall x: Mark ensures Count([], x) == 0 { NothingCounted(x); }
      if k == Memory {
        MemoryOk(s, w.g, q);
      } else if size != 8 || k == Invalid || ExpectsWrite(k) != !q.isRead {
        NextOk(s, w.g, q);
      } else {
        CommandOk(s, w.g, q, w.ops);
      }
    }
  }

  lemma TakeOk(s: Sim, g: Geometry)
    requires Good(s)
    ensures var (q, s') := GetComplete(s);
            && Good(s')
            && forall x: Mark :: x.Key? ==> Live(s', g, [], x) + Count(q, x) == Live(s, g, [], x)
  {
    hide Total; hide Held; hide CfgOf; hide Unowned; hide EnginesOk; hide Hit; hide Count;
    var (q, s') := GetComplete(s);
    forall m: nat ensures CounterOk(s', [], m) {
      assert CounterOk(s, [], m);
    }
    forall x: Mark | x.Key? ensures Live(s', g, [], x) + Count(q, x) == Live(s, g, [], x) {
      NothingCounted(x);
      if s.immReady != [] {
        CountLastOne(s.immReady, x);
      } else if s.memDone != [] {
        CountLastOne(s.memDone, x);
      } else if s.engineDone != [] {
        CountLastOne(s.engineDone, x);
      }
    }
  }

  lemma CountLastOne(s: seq<DramReq>, x: Mark)
    requires s != []
    ensures Count(s, x) == Count(s[..|s| - 1], x) + Count([s[|s| - 1]], x)
  {
    assert s == s[..|s| - 1] + [s[|s| - 1]];
    CountSum(s[..|s| - 1], [s[|s| - 1]], x);
  }

  lemma OneKeeps(w: World, s: RunState, ev: Event)
    requires Good(s.sim) && Accounted(w, s) && Allowed(w, s.sim, ev)
    ensures Good(RunOne(w, s, ev).sim) && Accounted(w, RunOne(w, s, ev))
  {
    hide Good; hide Live; hide Enqueue; hide Tick; hide GetComplete; hide NewlyOwned; hide LegalEnv;
    hide Count; hide Hit;
    var s' := RunOne(w, s, ev);
    match ev {
      case Enq(q, size, granted, sched) => EnqueueOk(s.sim, w, q, size, granted, sched);
      case TickEv(env) => TickOk(w.phys, w.g, s.sim, env);
      case Take => TakeOk(s.sim, w.g);
    }
    forall q: DramReq ensures Balanced(w, s', q) {
      assert Balanced(w, s, q);
      match ev
      case Enq(r, size, granted, sched) =>
        CountSum(s.sent, [r], Key(q));
        CountOne(r, Key(q));
        CountSum(s.lost, NewlyOwned(s.sim.engines, s'.sim.engines, w.g, s.sim.mono.pending), Key(q));
      case Take => CountSum(s.taken, GetComplete(s.sim).0, Key(q));
      case TickEv(env) =>
    }
  }

  /** The simulator theorem. Against DRAMs that complete only what they accepted, in any order of visiting
      the engines: the counter of every broadcast command is the number of engine copies not yet
      collected; and every request the host sent is on its way back, was taken back, or was lost to an
      allocation -- exactly as often as it was sent, so none completes twice. */
  lemma {:induction false} SimIsSound(w: World, r: Trace, n: nat)
    requires IsRun(w, r) && n <= |r.evs|
    ensures Good(r.states[n].sim) && Accounted(w, r.states[n])
  {
    hide Good; hide Accounted; hide RunOne; hide Allowed;
    if n == 0 {
      StartOk(w);
    } else {
      SimIsSound(w, r, n - 1);
      assert Linked(w, r, n - 1);
      OneKeeps(w, r.states[n - 1], r.evs[n - 1]);
    }
  }

  lemma StartOk(w: World)
    ensures Good(NEW_SIM) && Accounted(w, RunState(NEW_SIM, [], [], []))
  {
    hide Hit;
    forall q: DramReq ensures Balanced(w, RunState(NEW_SIM, [], [], []), q) {
      NothingCounted(Key(q));
    }
  }

  /** No tick of the simulator panics: every completed copy finds its command with copies outstanding. */
  lemma SimNeverPanics(w: World, r: Trace, n: nat)
    requires IsRun(w, r) && n < |r.evs| && r.evs[n].TickEv?
    ensures LegalEnv(w.phys, r.states[n].sim, r.evs[n].env) && Tick(w.phys, w.g, r.states[n].sim, r.evs[n].env).Some?
  {
    hide Good; hide Accounted; hide RunOne; hide LegalEnv; hide Tick;
    SimIsSound(w, r, n);
    assert Linked(w, r, n);
    TickOk(w.phys, w.g, r.states[n].sim, r.evs[n].env);
  }

  /** The counter of a pending command, and the absence of copies of any other. */
  lemma CounterIsExact(w: World, r: Trace, n: nat, id: nat)
    requires IsRun(w, r) && n <= |r.evs|
    ensures var s := r.states[n].sim;
            if id in s.commands then s.commands[id].1 == Total(s.engines, Copy(id)) > 0
            else Total(s.engines, Copy(id)) == 0
  {
    hide Accounted; hide RunOne; hide Total; hide EnginesOk;
    SimIsSound(w, r, n);
    assert CounterOk(r.states[n].sim, [], id);
    NothingCounted(Copy(id));
  }

  /** Nothing completes twice, and a request that is no longer on its way was taken or lost. */
  lemma CompletesOnce(w: World, r: Trace, n: nat, q: DramReq)
    requires IsRun(w, r) && n <= |r.evs|
    ensures Count(r.states[n].taken, Key(q)) <= Count(r.states[n].sent, Key(q))
    ensures Live(r.states[n].sim, w.g, [], Key(q)) == 0 ==>
              (Count(r.states[n].taken, Key(q)) == Count(r.states[n].sent, Key(q)) <==>
                    Count(r.states[n].lost, Key(q)) == 0)
  {
    hide Good; hide RunOne; hide Count; hide Live;
    SimIsSound(w, r, n);
    assert Balanced(w, r.states[n], q);
  }

  /** A request can indeed be lost: a read of an address nobody owns, and an allocation that takes the
      address before the plain DRAM has answered. */
  lemma AllocationLosesARequest(w: World, a: u64, b: Bank, alloc: DramReq)
    requires KindOf(a) == Memory && w.g(a) == Some(b)
    requires HostMade(alloc) && KindOf(alloc.addr) == FgoAlloc && !alloc.isRead
    ensures var q := HostReq(a, NewReq(a, true, false).payload, false);
            var s1 := Enqueue(NEW_SIM, w.g, w.ops, q, 64, [], E.HostCgoShare);
            var s2 := Enqueue(s1, w.g, w.ops, alloc, 8, [FgoCfg(b)], E.HostCgoShare);
            Live(s1, w.g, [], Key(Strip(q))) == 1 && Live(s2, w.g, [], Key(Strip(q))) == 0
  {
    hide Count; hide Held; hide Total; hide KindOf; hide NewFor; hide Good; hide Live; hide Balanced; hide NewlyOwned;
    hide AddEngines; hide CfgOf; hide Hit; hide Accounted;
    var q := HostReq(a, NewReq(a, true, false).payload, false);
    var x := Key(Strip(q));
    var s1 := Enqueue(NEW_SIM, w.g, w.ops, q, 64, [], E.HostCgoShare);
    var s2 := Enqueue(s1, w.g, w.ops, alloc, 8, [FgoCfg(b)], E.HostCgoShare);
    StartOk(w);
    NothingLive(w, Strip(q));
    MemoryOk(NEW_SIM, w.g, q);
    AllocOk(s1, w.g, alloc, [FgoCfg(b)], E.HostCgoShare);
    var n := SimSpec.Numbered(NEW_SIM, q);
    NobodyOwns(w.g, a);
    assert s1.mono.pending == [n] && s1.engines == map[];
    OneAdded(FgoCfg(b), E.HostCgoShare);
    TakenOver(w.g, s2.engines, b, n);
    CountOne(n, x);
    DifferentAddress(alloc, q);
    SameKey(q, n);
  }

  lemma NothingLive(w: World, q: DramReq)
    ensures Live(NEW_SIM, w.g, [], Key(q)) == 0
  {
    hide Hit;
    NothingCounted(Key(q));
  }

  lemma NobodyOwns(g: Geometry, a: u64)
    ensures CfgOf(map[], g, a) == None
  {
  }

  lemma OneAdded(c: Cfg, sched: E.Sched)
    ensures AddEngines(map[], [c], sched) == map[c := NewFor(c, sched)]
  {
    hide NewFor;
    assert [c][..0] == [];
  }

  lemma TakenOver(g: Geometry, m: Engines, b: Bank, n: DramReq)
    requires g(n.addr) == Some(b) && FgoCfg(b) in m
    ensures NewlyOwned(map[], m, g, [n]) == [n]
  {
    assert [n][..0] == [];
  }

  lemma SameKey(q: DramReq, n: DramReq)
    requires n == q.(id := n.id, issueTime := n.issueTime)
    ensures Hit(Key(Strip(q)), q) && Hit(Key(Strip(q)), n)
  {
  }

  lemma DifferentAddress(alloc: DramReq, q: DramReq)
    requires alloc.addr != q.addr
    ensures !Hit(Key(Strip(q)), alloc)
  {
  }
}
