/** What has completed is delivered: what the host takes back, in which order, and after how many takes. */
module SimDelivery {
  import opened Words
  import opened DramPortals
  import opened DramWrappers
  import opened RequestRouter
  import opened SimSpec
  import opened SimRuns
  import B = BootFsm
  import E = EngineSpec
  import SimTotals

  /** What the host can take back, in the order in which it comes. */
  function Outbox(s: Sim): seq<DramReq> {
    B.Reversed(s.immReady) + B.Reversed(s.memDone) + B.Reversed(s.engineDone)
  }

  lemma {:induction false} LastFirst(s: seq<DramReq>)
    requires s != []
    ensures B.Reversed(s) == [s[|s| - 1]] + B.Reversed(s[..|s| - 1])
  {
    var n := |s| - 1;
    forall i | 0 <= i <= n ensures B.Reversed(s)[i] == ([s[n]] + B.Reversed(s[..n]))[i] {
    }
  }

  /** One take hands out the first of the outbox, or nothing if it is empty. */
  lemma TakeIsFirst(s: Sim)
    ensures var (q, s') := GetComplete(s);
            q + Outbox(s') == Outbox(s) && (Outbox(s) == [] <==> q == []) && |q| <= 1
  {
    hide B.Reversed;
    if s.immReady != [] {
      LastFirst(s.immReady);
    } else if s.memDone != [] {
      LastFirst(s.memDone);
    } else if s.engineDone != [] {
      LastFirst(s.engineDone);
    }
    NothingReversed();
  }

  lemma NothingReversed()
    ensures B.Reversed<DramReq>([]) == []
  {
  }

  // ---- requests that complete at once ----

  /** The request never reaches a DRAM or an engine: it is malformed, an allocation, a command nobody is there
      to receive, or addressed to an engine that serves its processor only. */
  predicate AtOnce(s: Sim, w: World, q: DramReq, size: nat) {
    var k := KindOf(q.addr);
    if k == Memory then
      var c := CfgOf(s.engines, w.g, q.addr);
      c.Some? && (s.engines[c.value].sched == E.CgoOnly || s.engines[c.value].sched == E.Unconfigured)
    else
      size != 8 || k == Invalid || q.isRead != (k == CgoQuery) || k == CgoAlloc || k == FgoAlloc
      || forall c :: c in s.engines ==> s.engines[c].proc.Fgo? != (k == FgoInst)
  }

  /** What the host gets back for such a request: the request, numbered and stamped with the time; an
      accepted allocation tells how many engines were granted. */
  function AnswerTo(s: Sim, q: DramReq, size: nat, granted: seq<Cfg>): DramReq {
    var n := q.(id := Some(s.mono.nextId), issueTime := Some(s.clock));
    if (KindOf(q.addr) == CgoAlloc || KindOf(q.addr) == FgoAlloc) && size == 8 && !q.isRead then
      n.(payload := q.payload[0 := |granted| % 0x1_0000_0000_0000_0000])
    else n
  }

  lemma NoTargets(s: Sim, k: Kind)
    ensures (set c | c in s.engines && Targets(s.engines[c], k)) == {} <==>
            forall c :: c in s.engines ==> s.engines[c].proc.Fgo? != (k == FgoInst)
  {
    var ts := set c | c in s.engines && Targets(s.engines[c], k);
    assert forall c :: c in ts <==> c in s.engines && Targets(s.engines[c], k);
    if ts == {} {
      forall c | c in s.engines ensures s.engines[c].proc.Fgo? != (k == FgoInst) {
        assert c !in ts;
      }
    }
  }

  lemma CommandWaits(s: Sim, q: DramReq, k: Kind, ops: Operands)
    ensures var s' := EnqueueCommand(s, q, k, ops);
            && s' == s.(immNext := s'.immNext, engines := s'.engines, commands := s'.commands, mono := s'.mono)
            && s'.immNext == s.immNext +
                 if forall c :: c in s.engines ==> s.engines[c].proc.Fgo? != (k == FgoInst)
                 then [q.(id := Some(s.mono.nextId), issueTime := Some(s.clock))] else []
  {
    hide SendCopy;
    NoTargets(s, k);
  }

  /** Enqueueing touches nothing the host could take; what completes at once waits for the next tick. */
  lemma EnqueueWaits(s: Sim, w: World, q: DramReq, size: nat, granted: seq<Cfg>, sched: E.Sched)
    ensures var s' := Enqueue(s, w.g, w.ops, q, size, granted, sched);
            && Outbox(s') == Outbox(s) && s'.immReady == s.immReady
            && s'.immNext == s.immNext + if AtOnce(s, w, q, size) then [AnswerTo(s, q, size, granted)] else []
  {
    hide B.Reversed; hide AddEngines; hide CfgOf; hide KindOf; hide EnqueueCommand;
    OwnerExists(s.engines, w.g, q.addr);
    CommandWaits(s, q, KindOf(q.addr), w.ops);
  }

  // ---- a tick ----

  /** A tick leaves nothing that has completed where the host could not take it: what completed at once is
      ready, and no engine keeps a completion. */
  lemma TickDelivers(w: World, s: Sim, env: SimEnv)
    requires Good(s) && LegalEnv(w.phys, s, env)
    ensures var r := Tick(w.phys, w.g, s, env);
            && r.Some? && r.value.immNext == [] && r.value.immReady == s.immReady + s.immNext
            && r.value.engines.Keys == s.engines.Keys
            && forall c :: c in r.value.engines ==> r.value.engines[c].hostDone == []
  {
    hide Good; hide Live; hide E.Tick; hide CfgOf; hide Unowned; hide E.Legal; hide Outstanding; hide Complete;
    hide CollectEngines; hide EnginesOk; hide Counters;
    TickOk(w.phys, w.g, s, env);
    TicksGood(w, s, env);
    CollectEnginesOk(TickEngines(w.phys, s, env), w.g, env.order);
  }

  lemma TicksGood(w: World, s: Sim, env: SimEnv)
    requires Good(s) && LegalEnv(w.phys, s, env)
    ensures var s1 := TickEngines(w.phys, s, env);
            && EnginesOk(s1.engines) && SimRuns.Counters(s1, []) && s1.engines.Keys == s.engines.Keys
            && forall c :: c in env.order <==> c in s1.engines
  {
    hide E.Legal; hide Outstanding; hide EnginesOk; hide SimTotals.Total; hide E.Tick;
    TickEnginesOk(w.phys, s, env);
    VisitsAll(env.order, s.engines);
    var s1 := TickEngines(w.phys, s, env);
    forall n: nat ensures CounterOk(s1, [], n) {
      assert CounterOk(s, [], n);
    }
  }

  // ---- runs ----

  /** The takes between two events. */
  function Takes(evs: seq<Event>, n: nat, m: nat): nat
    requires n <= m <= |evs|
  {
    if n == m then 0 else Takes(evs, n, m - 1) + if evs[m - 1].Take? then 1 else 0
  }

  predicate NoTick(evs: seq<Event>, n: nat, m: nat)
    requires n <= m <= |evs|
  {
    forall i :: n <= i < m ==> !evs[i].TickEv?
  }

  function Least(a: nat, b: nat): nat {
    if a <= b then a else b
  }

  lemma OneTakes(w: World, s: RunState, ev: Event)
    requires SimRuns.Allowed(w, s.sim, ev) && !ev.TickEv?
    ensures var s' := RunOne(w, s, ev);
            && (if ev.Take? then
                  && s'.taken == s.taken + Outbox(s.sim)[..Least(1, |Outbox(s.sim)|)]
                  && Outbox(s'.sim) == Outbox(s.sim)[Least(1, |Outbox(s.sim)|)..]
                else s'.taken == s.taken && Outbox(s'.sim) == Outbox(s.sim))
  {
    hide Outbox; hide Enqueue; hide GetComplete;
    if ev.Enq? {
      EnqueueWaits(s.sim, w, ev.req, ev.size, ev.granted, ev.cgoSched);
    } else {
      TakeIsFirst(s.sim);
    }
  }

  /** Between two ticks every take hands out the next of the outbox, whatever the host sends meanwhile. */
  lemma {:induction false} TakesInOrder(w: World, r: Trace, n: nat, m: nat)
    requires IsRun(w, r) && n <= m <= |r.evs| && NoTick(r.evs, n, m)
    ensures var out := Outbox(r.states[n].sim);
            var k := Least(Takes(r.evs, n, m), |out|);
            && r.states[m].taken == r.states[n].taken + out[..k]
            && Outbox(r.states[m].sim) == out[k..]
  {
    hide Outbox; hide RunOne; hide SimRuns.Allowed;
    if n < m {
      TakesInOrder(w, r, n, m - 1);
      assert Linked(w, r, m - 1);
      OneTakes(w, r.states[m - 1], r.evs[m - 1]);
    }
  }

  lemma {:induction false} StaysNext(w: World, r: Trace, n: nat, m: nat, q: DramReq)
    requires IsRun(w, r) && n <= m <= |r.evs| && NoTick(r.evs, n, m) && q in r.states[n].sim.immNext
    ensures q in r.states[m].sim.immNext
  {
    hide RunOne; hide SimRuns.Allowed;
    if n < m {
      StaysNext(w, r, n, m - 1, q);
      assert Linked(w, r, m - 1);
      OneStaysNext(w, r.states[m - 1], r.evs[m - 1], q);
    }
  }

  lemma OneStaysNext(w: World, s: RunState, ev: Event, q: DramReq)
    requires SimRuns.Allowed(w, s.sim, ev) && !ev.TickEv? && q in s.sim.immNext
    ensures q in RunOne(w, s, ev).sim.immNext
  {
    hide Outbox; hide Enqueue;
    if ev.Enq? {
      EnqueueWaits(s.sim, w, ev.req, ev.size, ev.granted, ev.cgoSched);
    }
  }

  lemma ReadyFirst(s: Sim, q: DramReq, k: nat)
    requires q in s.immReady && |s.immReady| <= k <= |Outbox(s)|
    ensures q in Outbox(s)[..k]
  {
    var i :| 0 <= i < |s.immReady| && s.immReady[i] == q;
    assert B.Reversed(s.immReady)[|s.immReady| - 1 - i] == q;
    assert Outbox(s)[|s.immReady| - 1 - i] == q;
    hide Outbox;
    assert Outbox(s)[..k][|s.immReady| - 1 - i] == q;
  }

  /** Delivery. A request that completes at once is taken after the next tick and as many takes as requests
      are ready then, numbered, stamped with the time it was sent, and otherwise as the host sent it but
      for the number of engines an allocation reports. */
  lemma TakenAfterTick(w: World, r: Trace, n: nat, t: nat, m: nat)
    requires IsRun(w, r) && n < t < m <= |r.evs| && r.evs[n].Enq? && r.evs[t].TickEv?
    requires AtOnce(r.states[n].sim, w, r.evs[n].req, r.evs[n].size)
    requires NoTick(r.evs, n, t) && NoTick(r.evs, t + 1, m)
    requires Takes(r.evs, t + 1, m) >= |r.states[t + 1].sim.immReady|
    ensures |r.states[t + 1].taken| <= |r.states[m].taken|
    ensures AnswerTo(r.states[n].sim, r.evs[n].req, r.evs[n].size, r.evs[n].granted)
              in r.states[m].taken[|r.states[t + 1].taken|..]
  {
    hide RunOne; hide SimRuns.Allowed; hide Outbox; hide AtOnce; hide AnswerTo;
    var ev := r.evs[n];
    var q := AnswerTo(r.states[n].sim, ev.req, ev.size, ev.granted);
    assert Linked(w, r, n);
    Enqueued(w, r.states[n], ev);
    StaysNext(w, r, n + 1, t, q);
    assert Linked(w, r, t);
    SimIsSound(w, r, t);
    Ticked(w, r.states[t], r.evs[t]);
    TakesInOrder(w, r, t + 1, m);
    var s := r.states[t + 1].sim;
    ReadyFits(s);
    ReadyFirst(s, q, Least(Takes(r.evs, t + 1, m), |Outbox(s)|));
  }

  lemma Enqueued(w: World, s: RunState, ev: Event)
    requires SimRuns.Allowed(w, s.sim, ev) && ev.Enq? && AtOnce(s.sim, w, ev.req, ev.size)
    ensures AnswerTo(s.sim, ev.req, ev.size, ev.granted) in RunOne(w, s, ev).sim.immNext
  {
    hide Outbox; hide Enqueue; hide AtOnce; hide AnswerTo;
    EnqueueWaits(s.sim, w, ev.req, ev.size, ev.granted, ev.cgoSched);
  }

  lemma Ticked(w: World, s: RunState, ev: Event)
    requires SimRuns.Allowed(w, s.sim, ev) && ev.TickEv? && Good(s.sim)
    ensures var s' := RunOne(w, s, ev).sim;
            s'.immNext == [] && s'.immReady == s.sim.immReady + s.sim.immNext
  {
    hide Good; hide Tick; hide LegalEnv;
    TickDelivers(w, s.sim, ev.env);
  }

  lemma ReadyFits(s: Sim)
    ensures |s.immReady| <= |Outbox(s)|
  {
  }

  // ---- numbers and time ----

  /** The ticks and the requests of the first events. */
  function TicksOf(evs: seq<Event>, n: nat): nat
    requires n <= |evs|
  {
    if n == 0 then 0 else TicksOf(evs, n - 1) + if evs[n - 1].TickEv? then 1 else 0
  }

  function RequestsOf(evs: seq<Event>, n: nat): nat
    requires n <= |evs|
  {
    if n == 0 then 0 else RequestsOf(evs, n - 1) + if evs[n - 1].Enq? then 1 else 0
  }

  lemma OneCounts(w: World, s: RunState, ev: Event)
    requires Good(s.sim) && SimRuns.Allowed(w, s.sim, ev)
    ensures var s' := RunOne(w, s, ev).sim;
            && s'.clock == s.sim.clock + (if ev.TickEv? then 1 else 0)
            && s'.mono.nextId == s.sim.mono.nextId + (if ev.Enq? then 1 else 0)
  {
    hide Good; hide Live; hide E.Tick; hide CfgOf; hide Unowned; hide E.Legal; hide Outstanding; hide Complete;
    hide CollectEngines; hide EnginesOk; hide SimRuns.Counters; hide Visits; hide KindOf; hide AddEngines; hide AtOnce;
    hide SendCopy;
    match ev
    case TickEv(env) =>
      TickOk(w.phys, w.g, s.sim, env);
      TicksGood(w, s.sim, env);
      CollectEnginesOk(TickEngines(w.phys, s.sim, env), w.g, env.order);
    case Enq(q, _, _, _) => OwnerExists(s.sim.engines, w.g, q.addr);
    case Take =>
  }

  /** In every run the clock tells the ticks and the next number the requests the host has sent: every request has its
      own number, in the order sent, and is stamped with the tick in which it was sent. */
  lemma {:induction false} ClockAndNumbers(w: World, r: Trace, n: nat)
    requires IsRun(w, r) && n <= |r.evs|
    ensures r.states[n].sim.clock == TicksOf(r.evs, n) && r.states[n].sim.mono.nextId == RequestsOf(r.evs, n)
  {
    hide RunOne; hide SimRuns.Allowed; hide Good; hide Accounted;
    if n > 0 {
      ClockAndNumbers(w, r, n - 1);
      SimIsSound(w, r, n - 1);
      assert Linked(w, r, n - 1);
      OneCounts(w, r.states[n - 1], r.evs[n - 1]);
    }
  }
}
