/** The simulator as an object: queues, engines and pending commands updated in place. */
module SimMachine {
  import opened Words
  import opened DramPortals
  import opened DramWrappers
  import opened RequestRouter
  import opened SimSpec
  import E = EngineSpec

  lemma {:induction false} CollectStops(s: Sim, done: seq<DramReq>, k: nat)
    requires k <= |done| && CollectAll(s, done).Some?
    ensures CollectAll(s, done[..k]).Some?
    decreases |done|
  {
    if k < |done| {
      CollectStops(s, done[..|done| - 1], k);
      assert done[..|done| - 1][..k] == done[..k];
    } else {
      assert done[..k] == done;
    }
  }

  lemma CollectNext(s: Sim, done: seq<DramReq>, k: nat)
    requires k < |done| && CollectAll(s, done).Some?
    ensures CollectAll(s, done[..k]).Some? && CollectAll(s, done[..k + 1]).Some?
    ensures CollectOne(CollectAll(s, done[..k]).value, done[k]) == CollectAll(s, done[..k + 1])
  {
    CollectStops(s, done, k);
    CollectStops(s, done, k + 1);
    assert done[..k + 1][..k] == done[..k];
  }

  /** Collecting does not look at the engines. */
  lemma EnginesIgnored(s: Sim, q: DramReq, m: Engines)
    ensures CollectOne(s, q).Some? <==> CollectOne(s.(engines := m), q).Some?
    ensures CollectOne(s, q).Some? ==>
              CollectOne(s.(engines := m), q).value == CollectOne(s, q).value.(engines := m) &&
              CollectOne(s, q).value.engines == s.engines
  {
  }

  lemma {:induction false} CollectKeepsEngines(s: Sim, done: seq<DramReq>)
    ensures CollectAll(s, done).Some? ==> CollectAll(s, done).value.engines == s.engines
  {
    if done != [] {
      CollectKeepsEngines(s, done[..|done| - 1]);
    }
  }

  lemma {:induction false} OrderStops(s: Sim, order: seq<Cfg>, k: nat)
    requires k <= |order| && CollectEngines(s, order).Some?
    ensures CollectEngines(s, order[..k]).Some?
    decreases |order|
  {
    if k < |order| {
      OrderStops(s, order[..|order| - 1], k);
      assert order[..|order| - 1][..k] == order[..k];
    } else {
      assert order[..k] == order;
    }
  }

  lemma OrderNext(s: Sim, order: seq<Cfg>, k: nat)
    requires k < |order| && CollectEngines(s, order).Some?
    ensures CollectEngines(s, order[..k]).Some? && CollectEngines(s, order[..k + 1]).Some?
    ensures var s1 := CollectEngines(s, order[..k]).value;
            && order[k] in s1.engines
            && CollectEngines(s, order[..k + 1]) == CollectAll(TakeEngine(s1, order[k]), s1.engines[order[k]].hostDone)
  {
    OrderStops(s, order, k);
    OrderStops(s, order, k + 1);
    assert order[..k + 1][..k] == order[..k];
  }

  class SimUnit {
    var engines: Engines
    var mono: Dram
    var clock: nat
    var memDone: seq<DramReq>
    var engineDone: seq<DramReq>
    var immNext: seq<DramReq>
    var immReady: seq<DramReq>
    var commands: map<nat, (DramReq, nat)>

    function Value(): Sim
      reads this
    {
      Sim(engines, mono, clock, memDone, engineDone, immNext, immReady, commands)
    }

    constructor ()
      ensures Value() == NEW_SIM
    {
      engines, mono, clock := map[], Dram([], 0, false), 0;
      memDone, engineDone, immNext, immReady, commands := [], [], [], [], map[];
    }

    // ---- enqueueing ----

    method GetReqId() returns (id: nat)
      modifies this`mono
      ensures id == old(mono).nextId && mono == old(mono).(nextId := id + 1)
    {
      id := mono.nextId;
      mono := mono.(nextId := id + 1);
    }

    method EnqueueNextCycleCompletion(q: DramReq)
      modifies this`mono, this`immNext
      ensures Value() == CompleteNext(old(Value()), q)
    {
      var id := GetReqId();
      immNext := immNext + [Stamped(q, id, clock)];
    }

    /** Copies the command to every engine it is for, in some order, and counts the copies. */
    method FanOut(n: DramReq, k: Kind, ops: Operands) returns (targets: nat)
      modifies this`engines
      ensures engines == map c | c in old(engines) ::
                if Targets(old(engines)[c], k) then SendCopy(old(engines)[c], k, n, ops) else old(engines)[c]
      ensures targets == |set c | c in old(engines) && Targets(old(engines)[c], k)|
    {
      hide Targets; hide SendCopy;
      targets := 0;
      var before, after := engines, engines;
      var rest := before.Keys;
      ghost var sent: set<Cfg> := {};
      while rest != {}
        invariant rest <= before.Keys == after.Keys && targets == |sent|
        invariant forall c :: c in sent <==> c in before && c !in rest && Targets(before[c], k)
        invariant forall c :: c in before ==>
                    after[c] == if c in sent then SendCopy(before[c], k, n, ops) else before[c]
        decreases rest
      {
        var c :| c in rest;
        if Targets(before[c], k) {
          after := after[c := SendCopy(before[c], k, n, ops)];
          targets := targets + 1;
          sent := sent + {c};
        }
        rest := rest - {c};
      }
      engines := after;
      SameSet(sent, before, k);
    }

    static lemma SameSet(sent: set<Cfg>, m: Engines, k: Kind)
      requires forall c :: c in sent <==> c in m && Targets(m[c], k)
      ensures sent == set c | c in m && Targets(m[c], k)
    {
    }

    method EnqueuePimCmd(q: DramReq, k: Kind, ops: Operands)
      modifies this`mono, this`engines, this`immNext, this`commands
      ensures Value() == EnqueueCommand(old(Value()), q, k, ops)
    {
      hide Targets; hide SendCopy;
      var id := GetReqId();
      var n := Stamped(q, id, clock);
      var targetCount := FanOut(n, k, ops);
      ghost var ts := set c | c in old(engines) && Targets(old(engines)[c], k);
      if targetCount == 0 {
        assert ts == {};
        assert forall c :: c in old(engines) ==> c !in ts;
        assert engines == old(engines);
        immNext := immNext + [n];
        return;
      }
      assert ts != {};
      commands := commands[id := (if k == CgoQuery then WithWord0(n, 1) else n, targetCount)];
    }

    method EnqueueRegularMemory(g: Geometry, q: DramReq)
      modifies this`mono, this`engines, this`immNext
      ensures Value() == EnqueueMemory(old(Value()), g, q)
    {
      var c := CfgOf(engines, g, q.addr);
      if c.Some? {
        if !AcceptsMem(engines[c.value]) {
          EnqueueNextCycleCompletion(q);
          return;
        }
        engines := engines[c.value := E.EnqueueMem(engines[c.value], q)];
      }
      var id := GetReqId();
      mono := mono.(pending := mono.pending + [Stamped(q, id, clock)]);
    }

    method EnqueueSimControlCmd(q: DramReq, granted: seq<Cfg>, cgoSched: E.Sched)
      modifies this`mono, this`engines, this`immNext
      ensures Value() == EnqueueAlloc(old(Value()), q, granted, cgoSched)
    {
      for i := 0 to |granted|
        invariant engines == AddEngines(old(engines), granted[..i], cgoSched)
        invariant mono == old(mono) && immNext == old(immNext)
      {
        assert granted[..i + 1][..i] == granted[..i];
        if granted[i] !in engines {
          engines := engines[granted[i] := NewFor(granted[i], cgoSched)];
        }
      }
      assert granted[..|granted|] == granted;
      EnqueueNextCycleCompletion(WithWord0(q, |granted| % 0x1_0000_0000_0000_0000));
    }

    method EnqueueWithData(g: Geometry, ops: Operands, q: DramReq, size: nat, granted: seq<Cfg>, cgoSched: E.Sched)
      modifies this`mono, this`engines, this`immNext, this`commands
      ensures Value() == Enqueue(old(Value()), g, ops, q, size, granted, cgoSched)
    {
      hide KindOf; hide CompleteNext; hide EnqueueMemory; hide EnqueueAlloc; hide EnqueueCommand;
      var k := KindOf(q.addr);
      if size != 8 && k != Memory {
        EnqueueNextCycleCompletion(q);
        return;
      }
      if k == Memory {
        EnqueueRegularMemory(g, q);
      } else if k == Invalid || ExpectsWrite(k) != !q.isRead {
        EnqueueNextCycleCompletion(q);
      } else if k == CgoAlloc || k == FgoAlloc {
        EnqueueSimControlCmd(q, granted, cgoSched);
      } else {
        EnqueuePimCmd(q, k, ops);
      }
    }

    // ---- completions ----

    /** A completed copy without number, without pending command or beyond its count would be a panic. */
    method CollectCompletion(q: DramReq)
      requires CollectOne(Value(), q).Some?
      modifies this`commands, this`engineDone
      ensures Some(Value()) == CollectOne(old(Value()), q)
    {
      if !IsBroadcast(q.addr) {
        engineDone := engineDone + [q];
        return;
      }
      var id := q.id.value;
      var (pending, remaining) := commands[id];
      if KindOf(q.addr) == CgoQuery {
        pending := WithWord0(pending, if pending.payload[0] != 0 && q.payload[0] != 0 then 1 else 0);
      }
      remaining := remaining - 1;
      if remaining == 0 {
        commands := commands - {id};
        engineDone := engineDone + [pending];
      } else {
        commands := commands[id := (pending, remaining)];
      }
    }

    /** Takes the completions of one engine, oldest first. */
    method CollectEngine(c: Cfg)
      requires c in engines && CollectAll(TakeEngine(Value(), c), engines[c].hostDone).Some?
      modifies this`commands, this`engineDone, this`engines
      ensures Some(Value()) == CollectAll(TakeEngine(old(Value()), c), old(engines)[c].hostDone)
    {
      hide CollectOne;
      ghost var done := engines[c].hostDone;
      ghost var s0 := TakeEngine(Value(), c);
      ghost var k := 0;
      while engines[c].hostDone != []
        invariant k <= |done| && c in engines && engines[c].hostDone == done[k..]
        invariant engines == old(engines)[c := old(engines)[c].(hostDone := done[k..])]
        invariant CollectAll(s0, done[..k]) == Some(Value().(engines := s0.engines))
        decreases |engines[c].hostDone|
      {
        var (q, e) := E.TakeDone(engines[c]);
        CollectNext(s0, done, k);
        EnginesIgnored(Value().(engines := s0.engines), q.value, engines);
        engines := engines[c := e];
        EnginesIgnored(Value().(engines := s0.engines), q.value, engines);
        CollectCompletion(q.value);
        k := k + 1;
      }
      assert done[..k] == done;
    }

    method CollectEngineCompletion(order: seq<Cfg>)
      requires CollectEngines(Value(), order).Some?
      modifies this`commands, this`engineDone, this`engines
      ensures Some(Value()) == CollectEngines(old(Value()), order)
    {
      hide CollectAll; hide TakeEngine;
      for i := 0 to |order|
        invariant CollectEngines(old(Value()), order[..i]) == Some(Value())
      {
        OrderNext(old(Value()), order, i);
        CollectEngine(order[i]);
      }
      assert order[..|order|] == order;
    }

    /** The engines share nothing: ticking them one after the other is ticking them all. */
    method TickAllEngines(phys: Cfg -> AddrMap, env: SimEnv)
      requires Configured(engines) && env.engines.Keys == engines.Keys
      modifies this`engines
      ensures Value() == TickEngines(phys, old(Value()), env)
    {
      hide E.Tick;
      var rest := engines.Keys;
      while rest != {}
        invariant rest <= engines.Keys && engines.Keys == old(engines).Keys
        invariant forall c :: c in engines ==>
                    engines[c] == if c in rest then old(engines)[c]
                                  else E.Tick(phys(c), old(engines)[c], env.engines[c])
        decreases rest
      {
        var c :| c in rest;
        engines := engines[c := E.Tick(phys(c), engines[c], env.engines[c])];
        rest := rest - {c};
      }
      assert engines == TickEngines(phys, old(Value()), env).engines;
    }

    method KeepUnowned(g: Geometry, done: seq<DramReq>)
      modifies this`memDone
      ensures memDone == old(memDone) + Unowned(engines, g, done)
    {
      for i := 0 to |done|
        invariant memDone == old(memDone) + Unowned(engines, g, done[..i])
      {
        assert done[..i + 1][..i] == done[..i];
        if CfgOf(engines, g, done[i].addr) == None {
          memDone := memDone + [done[i]];
        }
      }
      assert done[..|done|] == done;
    }

    method DoTick(phys: Cfg -> AddrMap, g: Geometry, env: SimEnv)
      requires Configured(engines) && env.engines.Keys == engines.Keys && Tick(phys, g, Value(), env).Some?
      modifies this
      ensures Some(Value()) == Tick(phys, g, old(Value()), env)
    {
      hide CollectEngines; hide E.Tick; hide Complete; hide Unowned;
      var (completed, left) := Complete(SAME, mono.pending, env.completions).value;
      TickAllEngines(phys, env);
      CollectEngineCompletion(env.order);
      mono := mono.(pending := left);
      KeepUnowned(g, completed);
      immReady := immReady + immNext;
      immNext := [];
      clock := clock + 1;
    }

    method TakeComplete() returns (q: seq<DramReq>)
      modifies this`immReady, this`memDone, this`engineDone
      ensures (q, Value()) == GetComplete(old(Value()))
    {
      if immReady != [] {
        q, immReady := [immReady[|immReady| - 1]], immReady[..|immReady| - 1];
      } else if memDone != [] {
        q, memDone := [memDone[|memDone| - 1]], memDone[..|memDone| - 1];
      } else if engineDone != [] {
        q, engineDone := [engineDone[|engineDone| - 1]], engineDone[..|engineDone| - 1];
      } else {
        q := [];
      }
    }
  }
}
