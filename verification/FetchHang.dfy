/** When the fetching machine, and with it the pipeline, stops advancing: an exit test that is not taken
    and is fetched behind two others holds the fetch of its own copies for ever. */
module FetchHang {
  import opened CpuTypes
  import opened CpuStages
  import opened CpuPipeline
  import opened Isa
  import opened CpuSteps
  import opened FetchMachine
  import opened CpuRefinement
  import opened CpuRuns
  import opened CpuPause
  import opened CpuResponses
  import opened CpuProgress
  import opened HeldFetch

  predicate TestsUntaken(i: Inst, d: Data) {
    i.EqualExit? && d.v[i.rs1] != d.v[i.rd]
  }

  /** An untaken test behind two others: each copy of it holds the fetch of a further copy. */
  predicate Hung(prog: Program, s: Spec) {
    s.arch.d.status == Running && s.afterTest && s.held && TestsUntaken(Fetch(prog.imem, s.arch.pc), s.arch.d)
  }

  /** A hung machine never changes again. The sequential machine goes on behind the test. */
  lemma {:induction false} HungForEver(prog: Program, s: Spec, n: nat)
    requires Hung(prog, s)
    ensures FetchSteps(prog, s, n) == s
    ensures Step(prog, s.arch) == Arch((s.arch.pc + 1) % 0x1_0000, s.arch.d)
  {
    if n > 0 {
      HungForEver(prog, s, n - 1);
    }
  }

  lemma {:induction false} StepsAdd(prog: Program, s: Spec, i: nat, n: nat)
    ensures FetchSteps(prog, FetchSteps(prog, s, i), n) == FetchSteps(prog, s, i + n)
  {
    hide FetchStep;
    if n > 0 {
      StepsAdd(prog, s, i, n - 1);
    }
  }

  lemma HungFrom(prog: Program, s: Spec, k: nat, n: nat)
    requires Hung(prog, FetchSteps(prog, s, k)) && k <= n
    ensures FetchSteps(prog, s, n) == FetchSteps(prog, s, k)
  {
    hide Hung; hide FetchSteps;
    StepsAdd(prog, s, k, n - k);
    HungForEver(prog, FetchSteps(prog, s, k), n - k);
  }

  // ---- in terms of the instructions executed ----

  /** Three fetches bring at least one new instruction, or the machine hangs. */
  lemma HangsExactly(prog: Program, s: Spec, k: nat)
    requires k >= 1
    ensures Executed(prog, s, k + 3) == Executed(prog, s, k) <==> Hung(prog, FetchSteps(prog, s, k - 1))
  {
    hide Exec; hide Hung;
    var f := FetchSteps(prog, s, k - 1);
    FetchNext(prog, s, k - 1);
    FetchNext(prog, s, k);
    RepeatsThrice(prog, f);
    assert Executed(prog, s, k + 1) == Executed(prog, s, k) + if Repeats(prog, f) then 0 else 1;
    assert Executed(prog, s, k + 2) ==
           Executed(prog, s, k + 1) + if Repeats(prog, FetchSteps(prog, s, k)) then 0 else 1;
    assert Executed(prog, s, k + 3) ==
           Executed(prog, s, k + 2) + if Repeats(prog, FetchSteps(prog, s, k + 1)) then 0 else 1;
  }

  lemma FetchNext(prog: Program, s: Spec, k: nat)
    ensures FetchSteps(prog, s, k + 1) == FetchStep(prog, FetchSteps(prog, s, k))
  {
    hide FetchStep;
  }

  lemma RepeatsThrice(prog: Program, f: Spec)
    ensures var g := FetchStep(prog, f);
            Hung(prog, f) <==> Repeats(prog, f) && Repeats(prog, g) && Repeats(prog, FetchStep(prog, g))
  {
    var i := Fetch(prog.imem, f.arch.pc);
    if f.arch.d.status == Running && i.EqualExit? {
      TestRuns(prog, i, f.arch.d);
    }
  }

  lemma TestRuns(prog: Program, i: Inst, d: Data)
    requires d.status == Running && i.EqualExit?
    ensures Exec(prog.agu, i, d).status == Running <==> TestsUntaken(i, d)
  {
  }

  /** Without a hang every third fetch at least is a new instruction. */
  lemma {:induction false} FetchesAreFew(prog: Program, s: Spec, n: nat)
    requires forall j: nat :: j < n ==> !Hung(prog, FetchSteps(prog, s, j))
    ensures n <= 3 * Executed(prog, s, n)
  {
    hide Hung; hide Repeats; hide FetchSteps;
    if n >= 4 {
      FetchesAreFew(prog, s, n - 3);
      HangsExactly(prog, s, n - 3);
      ExecutedGrows(prog, s, n - 3, n);
    } else if n > 0 {
      assert Executed(prog, s, 1) == 1;
      ExecutedGrows(prog, s, 1, n);
    }
  }

  // ---- in terms of the program text ----

  /** Nothing is left of earlier exit tests. */
  predicate Fresh(s: Spec) {
    s.arch.d.status == Running && !s.afterTest && !s.held
  }

  function Ahead(prog: Program, s: Arch, n: nat): Inst {
    Fetch(prog.imem, (s.pc + n) % 0x1_0000)
  }

  /** Three untaken tests in a row. */
  predicate ThreeTests(prog: Program, s: Arch) {
    && TestsUntaken(Ahead(prog, s, 0), s.d) && TestsUntaken(Ahead(prog, s, 1), s.d)
    && TestsUntaken(Ahead(prog, s, 2), s.d)
  }

  /** An untaken test, some other instruction, and two untaken tests. */
  predicate SplitTests(prog: Program, s: Arch) {
    var x := Ahead(prog, s, 1);
    var d := Exec(prog.agu, x, s.d);
    && TestsUntaken(Ahead(prog, s, 0), s.d) && !x.EqualExit? && !x.JUMP? && d.status == Running
    && TestsUntaken(Ahead(prog, s, 2), d) && TestsUntaken(Ahead(prog, s, 3), d)
  }

  lemma ThreeTestsHang(prog: Program, s: Spec)
    requires Fresh(s)
    ensures ThreeTests(prog, s.arch) <==> Hung(prog, FetchStep(prog, FetchStep(prog, s)))
  {
    var i := Ahead(prog, s.arch, 0);
    if i.EqualExit? {
      TestRuns(prog, i, s.arch.d);
    }
  }

  lemma SplitTestsHang(prog: Program, s: Spec)
    requires Fresh(s) && SplitTests(prog, s.arch)
    ensures Hung(prog, FetchStep(prog, FetchStep(prog, FetchStep(prog, FetchStep(prog, s)))))
  {
    hide Exec;
    var f1 := FetchStep(prog, s);
    UntakenStays(prog, s);
    var f2 := FetchStep(prog, f1);
    var f3 := FetchStep(prog, f2);
    UntakenStays(prog, f2);
    UntakenStays(prog, f3);
  }

  lemma UntakenStays(prog: Program, s: Spec)
    requires s.arch.d.status == Running && TestsUntaken(Fetch(prog.imem, s.arch.pc), s.arch.d)
    ensures FetchStep(prog, s) ==
            Spec(Arch(if s.held then s.arch.pc else (s.arch.pc + 1) % 0x1_0000, s.arch.d), true, s.afterTest)
  {
  }

  lemma SplitOrigin(prog: Program, e: Spec)
    requires e.arch.d.status == Running
    requires var h := FetchStep(prog, e);
             var g := FetchStep(prog, h);
             && h.arch.d.status == Running && g.arch.d.status == Running && !Clashes(prog, h) && g.held && !g.afterTest
             && Hung(prog, FetchStep(prog, FetchStep(prog, g)))
    ensures Fresh(e) && SplitTests(prog, e.arch)
  {
    hide Exec;
    var h := FetchStep(prog, e);
    var g := FetchStep(prog, h);
    var f := FetchStep(prog, g);
    UntakenBefore(prog, f);
    UntakenBefore(prog, g);
    UntakenBefore(prog, e);
  }

  /** A test that did not stop the machine was not taken. */
  lemma UntakenBefore(prog: Program, s: Spec)
    requires s.arch.d.status == Running && FetchStep(prog, s).arch.d.status == Running
    ensures var i := Fetch(prog.imem, s.arch.pc);
            i.EqualExit? ==> TestsUntaken(i, s.arch.d) && FetchStep(prog, s).arch.d == s.arch.d
  {
  }

  /** One of the two patterns was met, early enough for the machine to hang at step `n`. */
  predicate MeetsTests(prog: Program, s: Spec, k: nat, n: nat) {
    var f := FetchSteps(prog, s, k);
    Fresh(f) && ((k + 2 <= n && ThreeTests(prog, f.arch)) || (k + 4 <= n && SplitTests(prog, f.arch)))
  }

  ghost predicate ClashFree(prog: Program, s: Spec, n: nat) {
    forall i: nat :: i < n ==> !Clashes(prog, FetchSteps(prog, s, i))
  }

  lemma {:induction false} HangOrigin(prog: Program, s: Spec, n: nat) returns (k: nat)
    requires !s.afterTest && !s.held && Hung(prog, FetchSteps(prog, s, n)) && ClashFree(prog, s, n)
    ensures MeetsTests(prog, s, k, n)
  {
    hide Hung; hide FetchStep; hide ThreeTests; hide SplitTests; hide Clashes;
    HangIsLate(prog, s, n);
    RanBefore(prog, s, n - 2, n);
    var g := FetchSteps(prog, s, n - 2);
    FetchNext(prog, s, n - 2);
    FetchNext(prog, s, n - 1);
    HangBefore(prog, g);
    if Fresh(g) {
      k := n - 2;
      ThreeTestsHang(prog, g);
    } else if Hung(prog, g) {
      k := HangOrigin(prog, s, n - 2);
    } else if g.afterTest {
      k := HangOrigin(prog, s, n - 1);
    } else {
      HeldIsLate(prog, s, n - 2);
      k := n - 4;
      FetchNext(prog, s, n - 4);
      FetchNext(prog, s, n - 3);
      RanBefore(prog, s, n - 3, n);
      RanBefore(prog, s, n - 4, n);
      SplitOrigin(prog, FetchSteps(prog, s, n - 4));
    }
  }

  lemma HangBefore(prog: Program, g: Spec)
    requires g.arch.d.status == Running && Hung(prog, FetchStep(prog, FetchStep(prog, g)))
    ensures g.afterTest && g.held ==> Hung(prog, g)
    ensures g.afterTest && !g.held ==> Hung(prog, FetchStep(prog, g))
  {
    hide Exec;
    UntakenBefore(prog, g);
    UntakenBefore(prog, FetchStep(prog, g));
  }

  lemma HeldIsLate(prog: Program, s: Spec, n: nat)
    requires !s.afterTest && !s.held && FetchSteps(prog, s, n).held
    ensures n >= 2
  {
    hide Exec;
    if n == 1 {
      FetchNext(prog, s, 0);
    }
  }

  lemma HangIsLate(prog: Program, s: Spec, n: nat)
    requires !s.afterTest && !s.held && Hung(prog, FetchSteps(prog, s, n))
    ensures n >= 2 && FetchSteps(prog, s, n).arch.d.status == Running
  {
    HeldIsLate(prog, s, n);
  }

  lemma PatternHangs(prog: Program, s: Spec, k: nat, n: nat)
    requires MeetsTests(prog, s, k, n)
    ensures Hung(prog, FetchSteps(prog, s, n))
  {
    hide Hung; hide FetchStep; hide ThreeTests; hide SplitTests; hide FetchSteps; hide Fresh;
    var f := FetchSteps(prog, s, k);
    FetchNext(prog, s, k);
    FetchNext(prog, s, k + 1);
    if k + 2 <= n && ThreeTests(prog, f.arch) {
      ThreeTestsHang(prog, f);
      HungFrom(prog, s, k + 2, n);
    } else {
      FetchNext(prog, s, k + 2);
      FetchNext(prog, s, k + 3);
      SplitTestsHang(prog, f);
      HungFrom(prog, s, k + 4, n);
    }
  }

  /** Exactly when a program hangs: as long as no jump sits right behind an untaken test, the machine
      hangs by step `n` if and only if it met, with nothing left of earlier tests, three untaken tests in
      a row, or an untaken test, another instruction and two untaken tests. */
  lemma HangsAtTests(prog: Program, s: Spec, n: nat)
    requires !s.afterTest && !s.held && ClashFree(prog, s, n)
    ensures Hung(prog, FetchSteps(prog, s, n)) <==> exists k: nat :: MeetsTests(prog, s, k, n)
  {
    hide Hung; hide FetchSteps; hide MeetsTests; hide ClashFree;
    if Hung(prog, FetchSteps(prog, s, n)) {
      var k := HangOrigin(prog, s, n);
      assert MeetsTests(prog, s, k, n);
    }
    if k: nat :| MeetsTests(prog, s, k, n) {
      PatternHangs(prog, s, k, n);
    }
  }

  // ---- the pipeline ----

  /** A pipeline whose program hangs runs on for ever: whatever the memory latencies and pauses, no tick
      panics or takes an exit, the CPU never finishes, and once it has fetched `k` instructions what it
      stands for never changes again, however many it fetches. */
  lemma HungRun(c0: Cpu, r: Trace, n: nat, k: nat)
    requires Inv(c0, []) && KeptApart(c0, []) && IsRun(r, c0) && n <= |r.evs|
    requires Hung(c0.prog, FetchSteps(c0.prog, Abs(c0, []), k)) && ClashFree(c0.prog, Abs(c0, []), k)
    ensures AllSmooth(r, n) && Refines(c0, r.states[n]) && !r.states[n].cpu.finished
    ensures var s := r.states[n];
            s.fetched >= k ==> Abs(s.cpu, s.log) == FetchSteps(c0.prog, Abs(c0, []), k)
  {
    hide Inv; hide Abs; hide PendingAccesses; hide Occupied; hide Hung; hide FetchSteps; hide Smooth; hide RunOne;
    hide KeptApart; hide Covered; hide ClashFree;
    HungIsCovered(c0.prog, Abs(c0, []), k, r.states[n].fetched);
    CoveredRun(c0, r, n);
    NotDone(r.states[n].cpu, r.states[n].log);
    if r.states[n].fetched >= k {
      HungFrom(c0.prog, Abs(c0, []), k, r.states[n].fetched);
    }
  }

  lemma NotDone(c: Cpu, log: seq<Access>)
    requires Inv(c, log)
    ensures !c.finished
  {
    hide Fine;
  }

  lemma HungIsCovered(prog: Program, s: Spec, k: nat, n: nat)
    requires Hung(prog, FetchSteps(prog, s, k)) && ClashFree(prog, s, k)
    ensures AllCovered(prog, s, n) && s.arch.d.status == Running
  {
    hide Hung; hide FetchSteps; hide FetchStep; hide Clashes;
    HungRuns(prog, FetchSteps(prog, s, k));
    NoSteps(prog, s);
    RanBefore(prog, s, 0, k);
    forall i: nat | i < n ensures Covered(prog, FetchSteps(prog, s, i)) {
      FetchNext(prog, s, i);
      if i < k {
        RanBefore(prog, s, i + 1, k);
      } else {
        HungFrom(prog, s, k, i);
        HungFrom(prog, s, k, i + 1);
      }
    }
  }

  lemma HungRuns(prog: Program, s: Spec)
    requires Hung(prog, s)
    ensures s.arch.d.status == Running && !Clashes(prog, s)
  {
  }

  /** And with a DRAM that answers it does get there, and goes on fetching. */
  lemma HangIsReached(c0: Cpu, k: nat, n: nat) returns (r: Trace)
    requires Inv(c0, []) && KeptApart(c0, []) && Unpaused(c0) && k <= n
    requires Hung(c0.prog, FetchSteps(c0.prog, Abs(c0, []), k)) && ClashFree(c0.prog, Abs(c0, []), k)
    ensures IsRun(r, c0) && AllSmooth(r, |r.evs|)
    ensures var s := r.states[|r.evs|];
            && s.fetched == n && Inv(s.cpu, s.log) && !s.cpu.finished
            && Abs(s.cpu, s.log) == FetchSteps(c0.prog, Abs(c0, []), k)
  {
    hide Inv; hide Abs; hide PendingAccesses; hide Occupied; hide Hung; hide FetchSteps; hide Smooth; hide RunOne;
    hide KeptApart; hide Covered; hide ClashFree; hide Unpaused;
    HungIsCovered(c0.prog, Abs(c0, []), k, n);
    r := CoveredRunExists(c0, n);
    NotDone(r.states[|r.evs|].cpu, r.states[|r.evs|].log);
    HungFrom(c0.prog, Abs(c0, []), k, n);
  }

  /** Without a hang the pipeline executes new instructions: in every run of clock ticks, each costs at
      most sixty ticks that do not wait for DRAM. */
  lemma RunExecutes(c0: Cpu, r: Trace, n: nat)
    requires Inv(c0, []) && Unpaused(c0) && Regular(c0, r, n) && OnlyTicks(r.evs, 0, n)
    requires forall j: nat :: j < r.states[n].fetched ==> !Hung(c0.prog, FetchSteps(c0.prog, Abs(c0, []), j))
    ensures AnsweredTicks(r, 0, n) <= 19 + 60 * Executed(c0.prog, Abs(c0, []), r.states[n].fetched)
  {
    hide Inv; hide Abs; hide Hung; hide FetchSteps; hide Smooth; hide RunOne; hide Unpaused; hide Delay; hide Allowed;
    hide Executed;
    RunMoves(c0, r, 0, n);
    FetchesAreFew(c0.prog, Abs(c0, []), r.states[n].fetched);
  }
}
