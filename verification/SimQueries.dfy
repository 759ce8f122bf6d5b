/** The answer to a broadcast query is the conjunction of the answers of all engines it went to. */
module SimQueries {
  import opened Words
  import opened DramPortals
  import opened DramWrappers
  import opened RequestRouter
  import opened EngineConservation
  import opened SimSpec
  import opened SimTotals
  import opened SimRuns
  import E = EngineSpec
  import R = EngineRuns
  import EP = EngineProcessors

  /** The answers collected for every query, in order. */
  type Answers = map<nat, seq<u64>>

  function AnswersOf(a: Answers, n: nat): seq<u64> {
    if n in a then a[n] else []
  }

  function AnswersOne(a: Answers, q: DramReq): Answers {
    if KindOf(q.addr) == CgoQuery && q.id.Some? then
      a[q.id.value := AnswersOf(a, q.id.value) + [q.payload[0]]]
    else a
  }

  function AnswersAll(a: Answers, done: seq<DramReq>): Answers {
    if done == [] then a else AnswersOne(AnswersAll(a, done[..|done| - 1]), done[|done| - 1])
  }

  function AnswersEngines(s: Sim, a: Answers, order: seq<Cfg>): Answers {
    if order == [] then a
    else
      var before := CollectEngines(s, order[..|order| - 1]);
      var c := order[|order| - 1];
      if before == None || c !in before.value.engines then a
      else AnswersAll(AnswersEngines(s, a, order[..|order| - 1]), before.value.engines[c].hostDone)
  }

  /** 1 if every engine answered yes. */
  function Conj(answers: seq<u64>): u64 {
    if forall w :: w in answers ==> w != 0 then 1 else 0
  }

  lemma ConjMore(answers: seq<u64>, w: u64)
    ensures Conj(answers + [w]) == if Conj(answers) != 0 && w != 0 then 1 else 0
  {
    assert w in answers + [w];
    assert forall v :: v in answers ==> v in answers + [w];
  }

  // ---- the invariant ----

  ghost function QueriesOut(s: Sim, rest: seq<DramReq>, n: nat): nat {
    Total(s.engines, QueryCopy(n)) + Count(rest, QueryCopy(n))
  }

  /** The copies of a query are queries, the copies of another command are not. */
  ghost predicate KindOk(s: Sim, rest: seq<DramReq>, n: nat) {
    QueriesOut(s, rest, n) ==
      if n in s.commands && KindOf(s.commands[n].0.addr) == CgoQuery then CopiesOut(s.engines, rest, n) else 0
  }

  /** A pending query holds the conjunction of the answers so far; `targets` tells how many engines it
      was sent to. */
  ghost predicate PendingOk(s: Sim, a: Answers, targets: map<nat, nat>, n: nat) {
    && (n in s.commands && KindOf(s.commands[n].0.addr) == CgoQuery ==>
          && n in targets && |AnswersOf(a, n)| + s.commands[n].1 == targets[n]
          && s.commands[n].0.payload[0] == Conj(AnswersOf(a, n)))
    && (n >= s.mono.nextId ==> n !in a)
  }

  /** A completed query answers for all of its targets. */
  ghost predicate AnswerOk(s: Sim, a: Answers, targets: map<nat, nat>, q: DramReq) {
    KindOf(q.addr) == CgoQuery ==>
      && q.id.Some? && q.id.value !in s.commands && q.id.value < s.mono.nextId && q.id.value in targets
      && |AnswersOf(a, q.id.value)| == targets[q.id.value]
      && q.payload[0] == Conj(AnswersOf(a, q.id.value))
  }

  ghost predicate QueriesOk(s: Sim, rest: seq<DramReq>, a: Answers, targets: map<nat, nat>) {
    && (forall n: nat :: KindOk(s, rest, n)) && (forall n: nat :: PendingOk(s, a, targets, n))
    && (forall q :: q in s.engineDone ==> AnswerOk(s, a, targets, q))
  }

  // ---- collecting ----

  lemma HitKinds(q: DramReq, n: nat)
    ensures Hit(QueryCopy(n), q) ==> Hit(Copy(n), q) && KindOf(q.addr) == CgoQuery
    ensures Hit(Copy(n), q) && !Hit(QueryCopy(n), q) ==> KindOf(q.addr) != CgoQuery
  {
    hide KindOf;
  }

  lemma {:induction false} QueriesAreCopies(rest: seq<DramReq>, n: nat)
    ensures Count(rest, QueryCopy(n)) <= Count(rest, Copy(n))
  {
    hide Hit;
    if rest != [] {
      QueriesAreCopies(rest[1..], n);
      HitKinds(rest[0], n);
    }
  }

  lemma {:induction false} TotalQueries(m: Engines, n: nat)
    ensures Total(m, QueryCopy(n)) <= Total(m, Copy(n))
    decreases |m|
  {
    hide InEngine;
    if m != map[] {
      var k :| k in m;
      TotalSplit(m, k, QueryCopy(n));
      TotalSplit(m, k, Copy(n));
      TotalQueries(m - {k}, n);
      EngineQueries(m[k], n);
    }
  }

  lemma EngineQueries(e: E.Engine, n: nat)
    ensures InEngine(e, QueryCopy(n)) <= InEngine(e, Copy(n))
  {
    hide Count;
    QueriesAreCopies(e.hostPool, n);
    QueriesAreCopies(e.portal.hostReq, n);
    QueriesAreCopies(HostPart(e.dram.pending), n);
    QueriesAreCopies(e.portal.hostResp, n);
    QueriesAreCopies(e.hostDone, n);
    QueriesAreCopies(CmdReqs(e.cmdQueue), n);
    QueriesAreCopies(e.cmdDone, n);
    QueriesAreCopies(ProcReqs(e.proc), n);
  }

  /** A collected copy is a query exactly when its command is one. */
  lemma SameKind(s: Sim, rest: seq<DramReq>)
    requires rest != [] && Counters(s, rest) && IsBroadcast(rest[0].addr) && forall n: nat :: KindOk(s, rest, n)
    ensures rest[0].id.Some? && rest[0].id.value in s.commands
    ensures KindOf(rest[0].addr) == CgoQuery <==> KindOf(s.commands[rest[0].id.value].0.addr) == CgoQuery
  {
    hide Total; hide KindOf;
    CollectCounters(s, rest);
    var q := rest[0];
    var n := q.id.value;
    assert CounterOk(s, rest, n) && KindOk(s, rest, n);
    RestFirst(rest, Copy(n));
    RestFirst(rest, QueryCopy(n));
    QueriesAreCopies(rest[1..], n);
    TotalQueries(s.engines, n);
    NotNegative(s.engines, QueryCopy(n));
  }

  lemma CollectQuery(s: Sim, rest: seq<DramReq>, a: Answers, targets: map<nat, nat>)
    requires rest != [] && Counters(s, rest) && QueriesOk(s, rest, a, targets)
    ensures var r := CollectOne(s, rest[0]);
            r.Some? && QueriesOk(r.value, rest[1..], AnswersOne(a, rest[0]), targets)
  {
    hide Total; hide KindOf; hide Conj;
    CollectCounters(s, rest);
    var q := rest[0];
    var s', a' := CollectOne(s, q).value, AnswersOne(a, q);
    if IsBroadcast(q.addr) {
      SameKind(s, rest);
      var id := q.id.value;
      assert CounterOk(s, rest, id);
      assert PendingOk(s, a, targets, id);
      ConjMore(AnswersOf(a, id), q.payload[0]);
    } else {
      NotBroadcast(q.addr);
    }
    forall n: nat ensures KindOk(s', rest[1..], n) {
      assert KindOk(s, rest, n);
      RestFirst(rest, QueryCopy(n));
      RestFirst(rest, Copy(n));
    }
    forall n: nat ensures PendingOk(s', a', targets, n) {
      assert PendingOk(s, a, targets, n);
    }
    forall r | r in s'.engineDone ensures AnswerOk(s', a', targets, r) {
      if r in s.engineDone {
        assert AnswerOk(s, a, targets, r);
      }
    }
  }

  lemma NotBroadcast(addr: u64)
    requires !IsBroadcast(addr)
    ensures KindOf(addr) != CgoQuery
  {
  }

  lemma {:induction false} CollectAllQueries(s: Sim, g: Geometry, done: seq<DramReq>, k: nat, a: Answers,
                                             targets: map<nat, nat>)
    requires Counters(s, done) && QueriesOk(s, done, a, targets) && k <= |done|
    ensures var r := CollectAll(s, done[..k]);
            r.Some? && QueriesOk(r.value, done[k..], AnswersAll(a, done[..k]), targets)
  {
    hide Counters; hide QueriesOk; hide CollectOne; hide AnswersOne; hide Live;
    if k == 0 {
      assert done[..0] == [] && done[0..] == done;
    } else {
      CollectAllQueries(s, g, done, k - 1, a, targets);
      CollectAllOk(s, g, done, k - 1);
      var r := CollectAll(s, done[..k - 1]).value;
      assert done[..k][..k - 1] == done[..k - 1] && done[k - 1..][1..] == done[k..] && done[k - 1..][0] == done[k - 1];
      CollectQuery(r, done[k - 1..], AnswersAll(a, done[..k - 1]), targets);
    }
  }

  lemma TakeEngineQueries(s: Sim, c: Cfg, a: Answers, targets: map<nat, nat>)
    requires c in s.engines && QueriesOk(s, [], a, targets)
    ensures QueriesOk(TakeEngine(s, c), s.engines[c].hostDone, a, targets)
  {
    hide Total; hide KindOf; hide Conj;
    var done := s.engines[c].hostDone;
    var s1 := TakeEngine(s, c);
    forall x: Mark ensures Total(s1.engines, x) + Count(done, x) == Total(s.engines, x) && Count([], x) == 0 {
      TotalUpdate(s.engines, c, s.engines[c].(hostDone := []), x);
      EmptiedCount(s.engines[c], x);
      NothingCounted(x);
    }
    forall n: nat ensures KindOk(s1, done, n) {
      assert KindOk(s, [], n);
    }
    forall n: nat ensures PendingOk(s1, a, targets, n) {
      assert PendingOk(s, a, targets, n);
    }
    forall q | q in s1.engineDone ensures AnswerOk(s1, a, targets, q) {
      assert AnswerOk(s, a, targets, q);
    }
    hide Count;
    hide InEngine;
  }

  lemma {:induction false} CollectEnginesQueries(s: Sim, g: Geometry, order: seq<Cfg>, a: Answers,
                                                 targets: map<nat, nat>)
    requires EnginesOk(s.engines) && Counters(s, []) && QueriesOk(s, [], a, targets)
    requires forall c :: c in order ==> c in s.engines
    ensures var r := CollectEngines(s, order);
            r.Some? && QueriesOk(r.value, [], AnswersEngines(s, a, order), targets)
  {
    hide Counters; hide Live; hide EnginesOk; hide QueriesOk;
    if order != [] {
      var n := |order| - 1;
      var c := order[n];
      assert c in order;
      CollectEnginesQueries(s, g, order[..n], a, targets);
      CollectEnginesOk(s, g, order[..n]);
      var s1 := CollectEngines(s, order[..n]).value;
      var a1 := AnswersEngines(s, a, order[..n]);
      TakeEngineOk(s1, g, c);
      TakeEngineQueries(s1, c, a1, targets);
      var done := s1.engines[c].hostDone;
      CollectAllQueries(TakeEngine(s1, c), g, done, |done|, a1, targets);
      assert done[..|done|] == done && done[|done|..] == [];
    }
  }

  // ---- the other steps ----

  /** Nothing but a broadcast or a collection touches queries. */
  lemma Untouched(s: Sim, s': Sim, a: Answers, targets: map<nat, nat>)
    requires QueriesOk(s, [], a, targets) && s'.commands == s.commands && s'.mono.nextId >= s.mono.nextId
    requires forall q :: q in s'.engineDone ==> q in s.engineDone
    requires forall n: nat :: Total(s'.engines, QueryCopy(n)) == Total(s.engines, QueryCopy(n))
                           && Total(s'.engines, Copy(n)) == Total(s.engines, Copy(n))
    ensures QueriesOk(s', [], a, targets)
  {
    hide Total; hide KindOf; hide Conj;
    forall n: nat ensures KindOk(s', [], n) && PendingOk(s', a, targets, n) {
      assert KindOk(s, [], n) && PendingOk(s, a, targets, n);
    }
    forall q | q in s'.engineDone ensures AnswerOk(s', a, targets, q) {
      assert AnswerOk(s, a, targets, q);
    }
  }

  lemma CommandQueries(s: Sim, q: DramReq, ops: Operands, a: Answers, targets: map<nat, nat>)
    requires Good(s) && HostMade(q) && IsBroadcast(q.addr) && OperandsOk(q, ops) && QueriesOk(s, [], a, targets)
    ensures var k := KindOf(q.addr);
            var s' := EnqueueCommand(s, q, k, ops);
            var ts := set c | c in s.engines && Targets(s.engines[c], k);
            QueriesOk(s', [], a, targets[s.mono.nextId := |ts|])
  {
    hide Total; hide EnginesOk; hide SendCopy; hide Targets; hide Count; hide EP.JobInBank; hide KindOf; hide Conj;
    var k := KindOf(q.addr);
    var n := SimSpec.Numbered(s, q);
    var id := s.mono.nextId;
    var ts := set c | c in s.engines && Targets(s.engines[c], k);
    var s' := EnqueueCommand(s, q, k, ops);
    var targets' := targets[id := |ts|];
    assert CounterOk(s, [], id) && PendingOk(s, a, targets, id);
    NoAnswers();
    forall m: nat ensures KindOk(s', [], m) && PendingOk(s', a, targets', m) {
      assert KindOk(s, [], m) && PendingOk(s, a, targets, m) && CounterOk(s, [], m);
      BroadcastTotals(s, k, n, ops, QueryCopy(m));
      BroadcastTotals(s, k, n, ops, Copy(m));
      NothingCounted(QueryCopy(m));
      NothingCounted(Copy(m));
    }
    forall r | r in s'.engineDone ensures AnswerOk(s', a, targets', r) {
      assert AnswerOk(s, a, targets, r);
    }
  }

  lemma NoAnswers()
    ensures Conj([]) == 1
  {
  }

  /** How many engines an enqueued command goes to. */
  ghost function TargetsOf(s: Sim, ev: Event, targets: map<nat, nat>): map<nat, nat> {
    if ev.Enq? && IsBroadcast(ev.req.addr) && ev.size == 8 && ExpectsWrite(KindOf(ev.req.addr)) == !ev.req.isRead then
      targets[s.mono.nextId := |set c | c in s.engines && Targets(s.engines[c], KindOf(ev.req.addr))|]
    else targets
  }

  lemma MemoryTotals(s: Sim, w: World, q: DramReq, x: Mark)
    requires KindOf(q.addr) == Memory && !x.Key?
    ensures Total(EnqueueMemory(s, w.g, q).engines, x) == Total(s.engines, x)
  {
    hide Total; hide CfgOf; hide Count; hide InEngine; hide AcceptsMem;
    OwnerExists(s.engines, w.g, q.addr);
    var c := CfgOf(s.engines, w.g, q.addr);
    if c.Some? {
      R.MemArrives(s.engines[c.value], q, x);
      CountOne(q, x);
      TotalUpdate(s.engines, c.value, E.EnqueueMem(s.engines[c.value], q), x);
    }
  }

  lemma EnqueueQueries(s: Sim, w: World, ev: Event, a: Answers, targets: map<nat, nat>)
    requires Good(s) && ev.Enq? && Allowed(w, s, ev) && QueriesOk(s, [], a, targets)
    ensures QueriesOk(Enqueue(s, w.g, w.ops, ev.req, ev.size, ev.granted, ev.cgoSched), [], a,
          TargetsOf(s, ev, targets))
  {
    hide QueriesOk; hide Total; hide EnqueueCommand; hide Counters; hide CfgOf; hide AddEngines; hide EngineOk;
    hide AcceptsMem;
    hide ExpectsWrite; hide OperandsOk; hide HostMade;
    var q := ev.req;
    var k := KindOf(q.addr);
    var s' := Enqueue(s, w.g, w.ops, q, ev.size, ev.granted, ev.cgoSched);
    if k == Memory {
      forall n: nat ensures Total(s'.engines, QueryCopy(n)) == Total(s.engines, QueryCopy(n))
                         && Total(s'.engines, Copy(n)) == Total(s.engines, Copy(n)) {
        MemoryTotals(s, w, q, QueryCopy(n));
        MemoryTotals(s, w, q, Copy(n));
      }
      Untouched(s, s', a, targets);
    } else if ev.size != 8 || k == Invalid || ExpectsWrite(k) != !q.isRead {
      Untouched(s, s', a, targets);
    } else if k == CgoAlloc || k == FgoAlloc {
      AddOk(s.engines, ev.granted, ev.cgoSched);
      Untouched(s, s', a, targets);
    } else {
      CommandQueries(s, q, w.ops, a, targets);
    }
  }

  lemma TickQueries(w: World, s: Sim, env: SimEnv, a: Answers, targets: map<nat, nat>)
    requires Good(s) && LegalEnv(w.phys, s, env) && QueriesOk(s, [], a, targets)
    ensures var s1 := TickEngines(w.phys, s, env);
            var r := Tick(w.phys, w.g, s, env);
            r.Some? && QueriesOk(r.value, [], AnswersEngines(s1, a, env.order), targets)
  {
    hide Total; hide EnginesOk; hide CollectEngines; hide E.Legal; hide Outstanding; hide Complete; hide CfgOf;
    hide QueriesOk;
    hide Unowned; hide Count; hide E.Tick; hide Visits;
    TickOk(w.phys, w.g, s, env);
    TickEnginesOk(w.phys, s, env);
    var s1 := TickEngines(w.phys, s, env);
    Untouched(s, s1, a, targets);
    forall n: nat ensures CounterOk(s1, [], n) {
      assert CounterOk(s, [], n);
    }
    assert Total(s1.engines, Stray) == Total(s.engines, Stray);
    VisitsAll(env.order, s.engines);
    CollectEnginesQueries(s1, w.g, env.order, a, targets);
    Untouched(CollectEngines(s1, env.order).value, Tick(w.phys, w.g, s, env).value, AnswersEngines(s1, a, env.order),
          targets);
  }

  // ---- runs ----

  datatype Book = Book(answers: Answers, targets: map<nat, nat>)

  ghost function BookOne(w: World, s: Sim, ev: Event, b: Book): Book
    requires Allowed(w, s, ev)
  {
    match ev
    case Enq(_, _, _, _) => b.(targets := TargetsOf(s, ev, b.targets))
    case TickEv(env) => b.(answers := AnswersEngines(TickEngines(w.phys, s, env), b.answers, env.order))
    case Take => b
  }

  ghost predicate Kept(w: World, r: Trace, books: seq<Book>) {
    && IsRun(w, r) && |books| == |r.states| && books[0] == Book(map[], map[])
    && forall i: nat :: i < |r.evs| ==> BookLinked(w, r, books, i)
  }

  ghost predicate BookLinked(w: World, r: Trace, books: seq<Book>, i: nat)
    requires |r.states| == |r.evs| + 1 == |books| && i < |r.evs|
  {
    Linked(w, r, i) && books[i + 1] == BookOne(w, r.states[i].sim, r.evs[i], books[i])
  }

  lemma OneQuery(w: World, s: RunState, ev: Event, b: Book)
    requires Good(s.sim) && Allowed(w, s.sim, ev) && QueriesOk(s.sim, [], b.answers, b.targets)
    ensures var b' := BookOne(w, s.sim, ev, b);
            QueriesOk(RunOne(w, s, ev).sim, [], b'.answers, b'.targets)
  {
    hide Good; hide QueriesOk; hide Enqueue; hide Tick; hide TargetsOf; hide AnswersEngines; hide TickEngines;
    hide LegalEnv;
    match ev
    case Enq(_, _, _, _) => EnqueueQueries(s.sim, w, ev, b.answers, b.targets);
    case TickEv(env) => TickQueries(w, s.sim, env, b.answers, b.targets);
    case Take =>
      Untouched(s.sim, GetComplete(s.sim).1, b.answers, b.targets);
  }

  lemma NoQueries()
    ensures QueriesOk(NEW_SIM, [], map[], map[])
  {
    forall n: nat ensures KindOk(NEW_SIM, [], n) && PendingOk(NEW_SIM, map[], map[], n) {
      NothingCounted(QueryCopy(n));
    }
  }

  lemma {:induction false} QueriesAlways(w: World, r: Trace, books: seq<Book>, n: nat)
    requires Kept(w, r, books) && n <= |r.evs|
    ensures QueriesOk(r.states[n].sim, [], books[n].answers, books[n].targets)
  {
    hide QueriesOk; hide RunOne; hide BookOne; hide Allowed; hide Good; hide Accounted;
    if n == 0 {
      NoQueries();
    } else {
      QueriesAlways(w, r, books, n - 1);
      SimIsSound(w, r, n - 1);
      assert BookLinked(w, r, books, n - 1);
      OneQuery(w, r.states[n - 1], r.evs[n - 1], books[n - 1]);
    }
  }

  /** A query that is answered has an answer of every engine it went to, and says yes exactly when all of
      them did. */
  lemma QueryIsConjunction(w: World, r: Trace, books: seq<Book>, n: nat, q: DramReq)
    requires Kept(w, r, books) && n <= |r.evs|
    requires q in r.states[n].sim.engineDone && KindOf(q.addr) == CgoQuery
    ensures q.id.Some? && q.id.value in books[n].targets
    ensures var answers := AnswersOf(books[n].answers, q.id.value);
            && |answers| == books[n].targets[q.id.value]
            && (q.payload[0] != 0 <==> forall w :: w in answers ==> w != 0)
  {
    hide RunOne; hide BookOne; hide Allowed; hide Good; hide KindOf; hide KindOk; hide PendingOk;
    QueriesAlways(w, r, books, n);
    assert AnswerOk(r.states[n].sim, books[n].answers, books[n].targets, q);
  }
}
