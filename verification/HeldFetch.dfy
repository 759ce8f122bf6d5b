/** What it costs that the second instruction after an exit test that is not taken is fetched twice. */
module HeldFetch {
  import opened Words
  import opened FlatMemory
  import opened AguUnits
  import opened CpuTypes
  import opened CpuStages
  import opened Isa
  import opened FetchMachine
  import opened DramPortals
  import opened CpuForwarding
  import opened CpuSteps
  import opened CpuRefinement
  import opened CpuRuns
  import opened CpuPipeline
  import opened CpuPause
  import opened CpuProgress

  /** The same state, whatever DRAM requests were made on the way. */
  predicate SameState(a: Data, b: Data) {
    a.v == b.v && a.f == b.f && a.mem == b.mem && a.status == b.status
  }

  // ---- instructions that may run twice ----

  /** A lane in which repeating the operation changes nothing; `first` and `second` say which of its
      sources the operation overwrites. */
  predicate LaneStays(op: VecOp, a: u32, b: u32, first: bool, second: bool) {
    match op
    case ADD =>
      if first && second then Wrap32(a + b) == 0 else if first then b == 0 else if second then a == 0 else true
    case SUB =>
      if first && second then Wrap32(a - b) == 0 else if first then b == 0
      else if second then Wrap32(a - b) == b else true
    case MUL =>
      var x := Wrap32(a * b);
      Wrap32((if first then x else a) * (if second then x else b)) == x
    case AND => true
  }

  predicate LanesStay(op: VecOp, a: Vec4, b: Vec4, first: bool, second: bool) {
    && LaneStays(op, a.x0, b.x0, first, second) && LaneStays(op, a.x1, b.x1, first, second)
    && LaneStays(op, a.x2, b.x2, first, second) && LaneStays(op, a.x3, b.x3, first, second)
  }

  /** Running the instruction a second time changes nothing: it does not overwrite what it reads, or
      overwrites it with a value that gives the same result again. */
  predicate Harmless(t: AguTable, i: Inst, d: Data) {
    match i
    case Vec128(op, rd, rs1, rs2) =>
      rd == 0 || (rd != rs1 && rd != rs2) || LanesStay(op, d.v[rs1], d.v[rs2], rd == rs1, rd == rs2)
    case FatPtrLD(frd, frs) =>
      frd != frs ||
      var e := Exec(t, i, d);
      AddrOf(t, e, frs).Some? && ReadFptr(e.mem, AddrOf(t, e, frs).value) == (e.f[frd], e.mem)
    case FatPtrArith(_, frd, frs, rs1, idx) => frd != frs || (idx < 4 && d.v[rs1].Lane(idx) == 0)
    case _ => true
  }

  lemma LaneTwice(op: VecOp, a: u32, b: u32, first: bool, second: bool)
    ensures var x := LaneOp(op, a, b);
            LaneOp(op, if first then x else a, if second then x else b) == x <==> LaneStays(op, a, b, first, second)
  {
    if op == AND {
      hide LaneOp;
      AndTwice(a, b);
    } else {
      ArithLaneTwice(op, a, b, first, second);
    }
  }

  lemma ArithLaneTwice(op: VecOp, a: u32, b: u32, first: bool, second: bool)
    requires op != AND
    ensures var x := LaneOp(op, a, b);
            LaneOp(op, if first then x else a, if second then x else b) == x <==> LaneStays(op, a, b, first, second)
  {
    hide Wrap32; hide Bits; hide OfBits; hide BitAnd;
    if op == ADD {
      AddTwice(a, b);
    } else if op == SUB {
      SubTwice(a, b);
    }
  }

  lemma AddTwice(a: u32, b: u32)
    ensures Wrap32(Wrap32(a + b) + b) == Wrap32(a + b) <==> b == 0
    ensures Wrap32(a + Wrap32(a + b)) == Wrap32(a + b) <==> a == 0
    ensures Wrap32(Wrap32(a + b) + Wrap32(a + b)) == Wrap32(a + b) <==> Wrap32(a + b) == 0
  {
  }

  lemma SubTwice(a: u32, b: u32)
    ensures Wrap32(Wrap32(a - b) - b) == Wrap32(a - b) <==> b == 0
    ensures Wrap32(a - Wrap32(a - b)) == Wrap32(a - b) <==> Wrap32(a - b) == b
    ensures Wrap32(Wrap32(a - b) - Wrap32(a - b)) == 0
  {
  }

  lemma AndTwice(a: u32, b: u32)
    ensures var x := LaneOp(AND, a, b);
            LaneOp(AND, x, b) == x && LaneOp(AND, a, x) == x && LaneOp(AND, x, x) == x
  {
    hide Bits; hide OfBits; hide BitAnd;
    BitsOf(BitAnd(Bits(a), Bits(b)));
    BitsTwice(Bits(a), Bits(b));
  }

  lemma BitsOf(x: bv32)
    ensures Bits(OfBits(x)) == x
  {
  }

  lemma BitsTwice(p: bv32, q: bv32)
    ensures var r := BitAnd(p, q);
            BitAnd(r, q) == r && BitAnd(p, r) == r && BitAnd(r, r) == r
  {
  }

  lemma VecTwice(t: AguTable, op: VecOp, rd: Reg, rs1: Reg, rs2: Reg, d: Data)
    ensures var i := Vec128(op, rd, rs1, rs2);
            SameState(Exec(t, i, Exec(t, i, d)), Exec(t, i, d)) <==> Harmless(t, i, d)
  {
    hide LaneOp; hide LaneStays;
    var a, b := d.v[rs1], d.v[rs2];
    LaneTwice(op, a.x0, b.x0, rd == rs1, rd == rs2);
    LaneTwice(op, a.x1, b.x1, rd == rs1, rd == rs2);
    LaneTwice(op, a.x2, b.x2, rd == rs1, rd == rs2);
    LaneTwice(op, a.x3, b.x3, rd == rs1, rd == rs2);
    var x := Lanes4(op, a, b);
    var e := SetV(d, rd, x);
    if rd != 0 {
      assert SetV(e, rd, Lanes4(op, e.v[rs1], e.v[rs2])).v[rd] == Lanes4(op, e.v[rs1], e.v[rs2]) && e.v[rd] == x;
      assert e.v[rd := x] == e.v;
    }
  }

  lemma ArithTwice(t: AguTable, pop: PtrOp, frd: Reg, frs: Reg, rs1: Reg, idx: u8, d: Data)
    requires d.status == Running && Exec(t, FatPtrArith(pop, frd, frs, rs1, idx), d).status == Running
    ensures var i := FatPtrArith(pop, frd, frs, rs1, idx);
            SameState(Exec(t, i, Exec(t, i, d)), Exec(t, i, d)) <==> Harmless(t, i, d)
  {
    hide Vec4.Lane;
    var q := PtrArith(t, pop, d.f[frs].value, d.v[rs1], idx).value;
    var e := SetF(d, frd, q);
    assert e.f[frd] == Some(q) && e.f[frd := Some(q)] == e.f;
    if frd == frs {
      var q2 := PtrArith(t, pop, q, d.v[rs1], idx);
      if q2.Some? {
        assert SetF(e, frd, q2.value).f[frd] == q2;
      }
    }
  }

  lemma MemTwice(t: AguTable, i: Inst, d: Data)
    requires IsMemInst(i) && d.status == Running && Exec(t, i, d).status == Running
    ensures SameState(Exec(t, i, Exec(t, i, d)), Exec(t, i, d)) <==> Harmless(t, i, d)
    ensures |Exec(t, i, Exec(t, i, d)).trace| == |Exec(t, i, d).trace| + 1
          || Exec(t, i, Exec(t, i, d)).status == Faulted
  {
    hide Translate; hide DecodeCpuData; hide DecodeCpuFatPtr;
    var e := Exec(t, i, d);
    match i
    case LD128(rd, frs) => assert WriteVReg(e.v, rd, ReadData(d.mem, AddrOf(t, d, frs).value).0.value) == e.v;
    case FatPtrLD(frd, frs) => assert e.f[frd := e.f[frd]] == e.f;
    case _ =>
  }

  /** Exactly when a second execution changes nothing but the DRAM requests made. */
  lemma TwiceExactly(t: AguTable, i: Inst, d: Data)
    requires d.status == Running && Exec(t, i, d).status == Running
    ensures SameState(Exec(t, i, Exec(t, i, d)), Exec(t, i, d)) <==> Harmless(t, i, d)
  {
    hide Exec; hide Harmless; hide LanesStay;
    match i
    case Vec128(op, rd, rs1, rs2) => VecTwice(t, op, rd, rs1, rs2, d);
    case FatPtrArith(pop, frd, frs, rs1, idx) => ArithTwice(t, pop, frd, frs, rs1, idx, d);
    case _ =>
      if IsMemInst(i) {
        MemTwice(t, i, d);
      } else {
        StillTwice(t, i, d);
      }
  }

  lemma StillTwice(t: AguTable, i: Inst, d: Data)
    requires i.NOP? || i.JUMP? || i.EqualExit?
    requires d.status == Running && Exec(t, i, d).status == Running
    ensures Exec(t, i, d) == d && Harmless(t, i, d)
  {
  }

  /** Instructions cannot tell apart states that differ in their DRAM requests only. */
  lemma ExecSame(t: AguTable, i: Inst, a: Data, b: Data)
    requires SameState(a, b)
    ensures SameState(Exec(t, i, a), Exec(t, i, b))
  {
    hide Translate; hide ReadData; hide ReadFptr; hide WriteData; hide WriteFptr; hide PtrArith; hide Lanes4;
  }

  // ---- the fetching machine against the instruction set ----

  /** The instruction fetched now will be fetched again. */
  predicate Repeats(prog: Program, s: Spec) {
    s.arch.d.status == Running && s.held && !Fetch(prog.imem, s.arch.pc).JUMP?
  }

  /** How many different instructions the first `n` fetches bring. */
  function Executed(prog: Program, s: Spec, n: nat): nat {
    if n == 0 then 0
    else Executed(prog, s, n - 1) + if n >= 2 && Repeats(prog, FetchSteps(prog, s, n - 2)) then 0 else 1
  }

  /** After `k` fetches the state is the sequential machine's after as many steps as there were
      different instructions. */
  predicate Follows(prog: Program, s: Spec, k: nat) {
    SameState(FetchSteps(prog, s, k).arch.d, Steps(prog, s.arch, Executed(prog, s, k)).d)
  }

  /** If the instruction fetched at step `i` is fetched again, it may be. */
  predicate HarmlessAt(prog: Program, s: Spec, i: nat) {
    var f := FetchSteps(prog, s, i);
    Repeats(prog, f) ==> Harmless(prog.agu, Fetch(prog.imem, f.arch.pc), f.arch.d)
  }

  /** One repetition in terms of single steps: the same instruction is fetched at the same place, and
      its second execution shows if and only if it is not harmless. */
  lemma HeldTwice(prog: Program, s: Spec, i: nat)
    requires Repeats(prog, FetchSteps(prog, s, i)) && FetchSteps(prog, s, i + 1).arch.d.status == Running
    ensures var f0 := FetchSteps(prog, s, i);
            var f1 := FetchSteps(prog, s, i + 1);
            var f2 := FetchSteps(prog, s, i + 2);
            var j := Fetch(prog.imem, f0.arch.pc);
            && f1.arch.pc == f0.arch.pc && f1.arch.d == Exec(prog.agu, j, f0.arch.d)
            && f2.arch.d == Exec(prog.agu, j, f1.arch.d)
            && (SameState(f2.arch.d, f1.arch.d) <==> Harmless(prog.agu, j, f0.arch.d))
            && (f2.arch.d.status == Running ==>
                  && f2.arch.pc == (if f1.held then f0.arch.pc else (f0.arch.pc + 1) % 0x1_0000)
                  && |f2.arch.d.trace| == |f1.arch.d.trace| + Bit(IsMemInst(j)))
  {
    hide Exec; hide Harmless; hide SameState;
    var f0 := FetchSteps(prog, s, i);
    var f1 := FetchSteps(prog, s, i + 1);
    var j := Fetch(prog.imem, f0.arch.pc);
    assert f1 == FetchStep(prog, f0) && FetchSteps(prog, s, i + 2) == FetchStep(prog, f1);
    assert f1.arch.d == Exec(prog.agu, j, f0.arch.d);
    TwiceExactly(prog.agu, j, f0.arch.d);
    if FetchSteps(prog, s, i + 2).arch.d.status == Running {
      TraceGrows(prog.agu, j, f1.arch.d);
    }
  }

  lemma TraceGrows(t: AguTable, i: Inst, d: Data)
    requires Exec(t, i, d).status == Running
    ensures |Exec(t, i, d).trace| == |d.trace| + Bit(IsMemInst(i))
  {
    hide ReadData; hide ReadFptr; hide WriteData; hide WriteFptr; hide PtrArith; hide Translate; hide Lanes4;
  }

  /** Only a taken exit test ends a program; it changes nothing else and is harmless. */
  lemma EndsByTest(t: AguTable, i: Inst, d: Data)
    requires d.status == Running && Exec(t, i, d).status == Exited
    ensures i.EqualExit? && Harmless(t, i, d)
  {
    hide ReadData; hide ReadFptr; hide WriteData; hide WriteFptr; hide PtrArith; hide Translate; hide Lanes4;
  }

  // ---- the sequential machine does not fault ----

  lemma {:induction false} FaultStays(prog: Program, s: Arch, i: nat, n: nat)
    requires i <= n && Steps(prog, s, n).d.status != Faulted
    ensures Steps(prog, s, i).d.status != Faulted
  {
    hide Exec;
    if i < n {
      FaultStays(prog, s, i, n - 1);
    }
  }

  lemma {:induction false} ExecutedGrows(prog: Program, s: Spec, i: nat, n: nat)
    requires i <= n
    ensures Executed(prog, s, i) <= Executed(prog, s, n) <= Executed(prog, s, i) + n - i
  {
    hide Repeats; hide FetchSteps;
    if i < n {
      ExecutedGrows(prog, s, i, n - 1);
    }
  }

  /** The sequential machine executes what the first `n` fetches bring without a fault. */
  predicate Faultless(prog: Program, s: Spec, n: nat) {
    Steps(prog, s.arch, Executed(prog, s, n)).d.status != Faulted
  }

  lemma FaultlessBefore(prog: Program, s: Spec, i: nat, n: nat)
    requires Faultless(prog, s, n) && i <= n
    ensures Faultless(prog, s, i)
  {
    hide Executed; hide Steps;
    ExecutedGrows(prog, s, i, n);
    FaultStays(prog, s.arch, Executed(prog, s, i), Executed(prog, s, n));
  }

  /** Where the fetching machine stands after `k` fetches: level with the sequential machine, or, in the
      middle of a repetition, one instruction behind it with the program counter. */
  predicate Level(prog: Program, s: Spec, k: nat) {
    var f := FetchSteps(prog, s, k);
    var m := Executed(prog, s, k);
    && SameState(f.arch.d, Steps(prog, s.arch, m).d)
    && (f.arch.d.status == Running ==>
          if k > 0 && Repeats(prog, FetchSteps(prog, s, k - 1)) then
            m > 0 && f.arch.pc == Steps(prog, s.arch, m - 1).pc && !Fetch(prog.imem, f.arch.pc).JUMP?
            && Steps(prog, s.arch, m - 1).d.status == Running
          else f.arch.pc == Steps(prog, s.arch, m).pc)
  }

  lemma LevelFresh(prog: Program, s: Spec, k: nat)
    requires Level(prog, s, k) && !(k > 0 && Repeats(prog, FetchSteps(prog, s, k - 1)))
    ensures Level(prog, s, k + 1)
  {
    hide Exec; hide SameState;
    var f := FetchSteps(prog, s, k);
    var m := Executed(prog, s, k);
    var a := Steps(prog, s.arch, m);
    StatusSame(f.arch.d, a.d);
    assert FetchSteps(prog, s, k + 1) == FetchStep(prog, f) && Steps(prog, s.arch, m + 1) == Step(prog, a);
    assert Executed(prog, s, k + 1) == m + 1;
    if f.arch.d.status == Running {
      ExecSame(prog.agu, Fetch(prog.imem, a.pc), f.arch.d, a.d);
    }
  }

  lemma StatusSame(a: Data, b: Data)
    requires SameState(a, b)
    ensures a.status == b.status && SameState(b, a)
  {
  }

  lemma LevelRepeat(prog: Program, s: Spec, k: nat)
    requires k > 0 && Level(prog, s, k) && Repeats(prog, FetchSteps(prog, s, k - 1)) && HarmlessAt(prog, s, k - 1)
    ensures Level(prog, s, k + 1)
  {
    hide Exec; hide SameState; hide Harmless;
    var f := FetchSteps(prog, s, k);
    var m := Executed(prog, s, k);
    StatusSame(f.arch.d, Steps(prog, s.arch, m).d);
    assert Executed(prog, s, k + 1) == m;
    if f.arch.d.status == Running {
      var b := Steps(prog, s.arch, m - 1);
      HeldTwice(prog, s, k - 1);
      assert Steps(prog, s.arch, m) == Step(prog, b);
      SameTrans(FetchSteps(prog, s, k + 1).arch.d, f.arch.d, Steps(prog, s.arch, m).d);
      StatusSame(FetchSteps(prog, s, k + 1).arch.d, f.arch.d);
    } else {
      assert FetchSteps(prog, s, k + 1) == f;
    }
  }

  lemma SameTrans(a: Data, b: Data, c: Data)
    requires SameState(a, b) && SameState(b, c)
    ensures SameState(a, c)
  {
  }

  lemma {:induction false} StaysLevel(prog: Program, s: Spec, n: nat)
    requires !s.held && s.arch.d.status == Running && Faultless(prog, s, n)
    requires forall i: nat :: i + 2 <= n ==> HarmlessAt(prog, s, i)
    ensures Level(prog, s, n)
  {
    hide HarmlessAt; hide Repeats; hide FetchStep; hide Step;
    if n > 0 {
      hide Level;
      FaultlessBefore(prog, s, n - 1, n);
      StaysLevel(prog, s, n - 1);
      if n > 1 && Repeats(prog, FetchSteps(prog, s, n - 2)) {
        assert HarmlessAt(prog, s, n - 2);
        LevelRepeat(prog, s, n - 1);
      } else {
        NotHeldFirst(prog, s);
        LevelFresh(prog, s, n - 1);
      }
    }
  }

  lemma NotHeldFirst(prog: Program, s: Spec)
    requires !s.held
    ensures !Repeats(prog, FetchSteps(prog, s, 0))
  {
  }

  /** Exactly when the repeated fetches do not show. As long as the sequential machine does not fault, the
      state after every number of fetches up to `n` is the sequential machine's if and only if every
      instruction that is fetched twice is harmless where it is. */
  lemma FollowsExactly(prog: Program, s: Spec, n: nat)
    requires !s.held && s.arch.d.status == Running && Faultless(prog, s, n)
    ensures (forall k: nat :: k <= n ==> Follows(prog, s, k)) <==>
          (forall i: nat :: i + 2 <= n ==> HarmlessAt(prog, s, i))
  {
    hide Follows; hide HarmlessAt; hide FetchSteps; hide Faultless;
    if forall i: nat :: i + 2 <= n ==> HarmlessAt(prog, s, i) {
      forall k: nat | k <= n ensures Follows(prog, s, k) {
        FaultlessBefore(prog, s, k, n);
        StaysLevel(prog, s, k);
        LevelFollows(prog, s, k);
      }
    }
    if forall k: nat :: k <= n ==> Follows(prog, s, k) {
      forall i: nat | i + 2 <= n ensures HarmlessAt(prog, s, i) {
        assert Follows(prog, s, i + 1) && Follows(prog, s, i + 2);
        FaultlessBefore(prog, s, i + 1, n);
        FollowsHarmless(prog, s, i);
      }
    }
  }

  lemma LevelFollows(prog: Program, s: Spec, k: nat)
    requires Level(prog, s, k)
    ensures Follows(prog, s, k)
  {
  }

  lemma FollowsHarmless(prog: Program, s: Spec, i: nat)
    requires Follows(prog, s, i + 1) && Follows(prog, s, i + 2) && Faultless(prog, s, i + 1)
    ensures HarmlessAt(prog, s, i)
  {
    hide Exec; hide SameState; hide Harmless; hide FetchSteps; hide Steps;
    var f := FetchSteps(prog, s, i);
    if Repeats(prog, f) {
      var d := Steps(prog, s.arch, Executed(prog, s, i + 1)).d;
      StatusSame(FetchSteps(prog, s, i + 1).arch.d, d);
      NextData(prog, s, i);
      if d.status == Exited {
        EndsByTest(prog.agu, Fetch(prog.imem, f.arch.pc), f.arch.d);
      } else {
        HeldTwice(prog, s, i);
        assert Executed(prog, s, i + 2) == Executed(prog, s, i + 1);
        SameTrans(FetchSteps(prog, s, i + 2).arch.d, d, FetchSteps(prog, s, i + 1).arch.d);
      }
    }
  }

  lemma NextData(prog: Program, s: Spec, i: nat)
    requires FetchSteps(prog, s, i).arch.d.status == Running
    ensures var f := FetchSteps(prog, s, i);
            FetchSteps(prog, s, i + 1).arch.d == Exec(prog.agu, Fetch(prog.imem, f.arch.pc), f.arch.d)
  {
    hide Exec;
  }

  /** A machine that keeps level does not fault either. */
  lemma LevelAllowed(prog: Program, s: Spec, n: nat)
    requires !s.held && s.arch.d.status == Running && Faultless(prog, s, n)
    requires forall i: nat :: i + 2 <= n ==> HarmlessAt(prog, s, i)
    ensures AllAllowed(prog, s, n) && Follows(prog, s, n)
  {
    hide Follows; hide HarmlessAt; hide FetchSteps; hide FetchStep; hide Faultless;
    FollowsExactly(prog, s, n);
    forall i: nat | i < n ensures Allowed(prog, FetchSteps(prog, s, i)) {
      assert Follows(prog, s, i + 1);
      FaultlessBefore(prog, s, i + 1, n);
      FollowsFaultless(prog, s, i);
    }
  }

  lemma FollowsFaultless(prog: Program, s: Spec, i: nat)
    requires Follows(prog, s, i + 1) && Faultless(prog, s, i + 1)
    ensures Allowed(prog, FetchSteps(prog, s, i))
  {
    hide Exec; hide Executed; hide Steps;
    assert FetchSteps(prog, s, i + 1) == FetchStep(prog, FetchSteps(prog, s, i));
  }

  /** The pipeline itself: in every run of a program whose repeated instructions are harmless it stands
      for the sequential machine, exit tests included, as long as the sequential machine does not fault,
      no exit is taken and no tick panics. */
  lemma RunFollows(c0: Cpu, r: Trace, n: nat)
    requires Inv(c0, []) && IsRun(r, c0) && n <= |r.evs| && AllSmooth(r, n)
    requires var s := Abs(c0, []);
             && !s.held && s.arch.d.status == Running && Faultless(c0.prog, s, r.states[n].fetched)
             && forall i: nat :: i + 2 <= r.states[n].fetched ==> HarmlessAt(c0.prog, s, i)
    ensures var s := r.states[n];
            && Inv(s.cpu, s.log)
            && SameState(Abs(s.cpu, s.log).arch.d,
                         Steps(c0.prog, Abs(c0, []).arch, Executed(c0.prog, Abs(c0, []), s.fetched)).d)
  {
    hide Inv; hide Abs; hide PendingAccesses; hide Occupied; hide Allowed; hide HarmlessAt; hide SameState;
    hide Executed; hide Faultless; hide Smooth; hide RunOne;
    LevelAllowed(c0.prog, Abs(c0, []), r.states[n].fetched);
    RunFetches(c0, r, n);
  }

  /** The first instruction whose repetition is not harmless. */
  lemma {:induction false} FirstHarm(prog: Program, s: Spec, i: nat) returns (k: nat)
    requires !HarmlessAt(prog, s, i)
    ensures k <= i && !HarmlessAt(prog, s, k) && forall j: nat :: j < k ==> HarmlessAt(prog, s, j)
  {
    hide HarmlessAt;
    k := i;
    if j: nat :| j < i && !HarmlessAt(prog, s, j) {
      k := FirstHarm(prog, s, j);
    }
  }

  /** There the machines part: the repetition changes the state or faults. */
  lemma HarmShows(prog: Program, s: Spec, k: nat)
    requires !s.held && s.arch.d.status == Running && Faultless(prog, s, k + 1)
    requires !HarmlessAt(prog, s, k) && forall j: nat :: j < k ==> HarmlessAt(prog, s, j)
    ensures forall j: nat :: j <= k + 1 ==> FetchSteps(prog, s, j).arch.d.status == Running
    ensures Follows(prog, s, k + 1) && !FetchSteps(prog, s, k + 1).afterTest
    ensures Executed(prog, s, k + 2) == Executed(prog, s, k + 1)
    ensures !Follows(prog, s, k + 2) && FetchSteps(prog, s, k + 2).arch.d.status != Exited
  {
    hide Exec; hide SameState; hide Harmless; hide Steps; hide AllAllowed;
    var f := FetchSteps(prog, s, k);
    NextData(prog, s, k);
    LevelAllowed(prog, s, k + 1);
    var d := Steps(prog, s.arch, Executed(prog, s, k + 1)).d;
    StatusSame(FetchSteps(prog, s, k + 1).arch.d, d);
    var j := Fetch(prog.imem, f.arch.pc);
    if d.status == Exited {
      EndsByTest(prog.agu, j, f.arch.d);
    }
    HeldTwice(prog, s, k);
    TestIsHarmless(prog.agu, j, f.arch.d);
    NextData(prog, s, k + 1);
    if FetchSteps(prog, s, k + 2).arch.d.status == Exited {
      EndsByTest(prog.agu, j, FetchSteps(prog, s, k + 1).arch.d);
    }
    forall i: nat | i <= k + 1 ensures FetchSteps(prog, s, i).arch.d.status == Running {
      RanBefore(prog, s, i, k + 1);
    }
    if Follows(prog, s, k + 2) {
      SameTrans(FetchSteps(prog, s, k + 2).arch.d, d, FetchSteps(prog, s, k + 1).arch.d);
    }
  }

  lemma TestIsHarmless(t: AguTable, i: Inst, d: Data)
    ensures i.EqualExit? ==> Harmless(t, i, d)
  {
  }

  /** A machine that still runs has not stopped before. */
  lemma {:induction false} RanBefore(prog: Program, s: Spec, i: nat, n: nat)
    requires FetchSteps(prog, s, n).arch.d.status == Running && i <= n
    ensures FetchSteps(prog, s, i).arch.d.status == Running
  {
    hide Exec;
    if i < n {
      RanBefore(prog, s, i, n - 1);
    }
  }

  /** And if one of them is not harmless there is a run that shows it: the pipeline stands for a state
      that the sequential machine does not have at that instruction, or it is about to fetch, for the
      second time, an instruction that faults and on the sequential machine does not. */
  lemma RunBreaks(c0: Cpu, i: nat) returns (r: Trace)
    requires Inv(c0, []) && KeptApart(c0, []) && Unpaused(c0)
    requires var s := Abs(c0, []);
             && !s.held && s.arch.d.status == Running && Faultless(c0.prog, s, i + 1)
             && !HarmlessAt(c0.prog, s, i) && NoClash(c0, i + 1)
    ensures IsRun(r, c0) && AllSmooth(r, |r.evs|)
    ensures var s := r.states[|r.evs|];
            var a := Abs(s.cpu, s.log);
            && Inv(s.cpu, s.log) && s.fetched <= i + 2
            && (!SameState(a.arch.d, Steps(c0.prog, Abs(c0, []).arch, Executed(c0.prog, Abs(c0, []), s.fetched)).d)
                || (s.fetched < i + 2 && FetchStep(c0.prog, a).arch.d.status == Faulted
                    && Steps(c0.prog, Abs(c0, []).arch,
                             Executed(c0.prog, Abs(c0, []), s.fetched + 1)).d.status == Running))
  {
    hide Inv; hide Abs; hide PendingAccesses; hide Occupied; hide HarmlessAt; hide SameState;
    hide Executed; hide IsRun; hide KeptApart; hide Unpaused; hide Smooth; hide Steps; hide Exec; hide FetchStep;
    var s := Abs(c0, []);
    var k := FirstHarm(c0.prog, s, i);
    FaultlessBefore(c0.prog, s, k + 1, i + 1);
    HarmShows(c0.prog, s, k);
    var n := if FetchSteps(c0.prog, s, k + 2).arch.d.status == Running then k + 2 else k + 1;
    forall j: nat | j < n ensures Covered(c0.prog, FetchSteps(c0.prog, s, j)) {
      NextFetch(c0.prog, s, j);
    }
    r := CoveredRunExists(c0, n);
    NextFetch(c0.prog, s, k + 1);
    FollowsStatus(c0.prog, s, k + 1);
  }

  lemma NextFetch(prog: Program, s: Spec, j: nat)
    ensures FetchStep(prog, FetchSteps(prog, s, j)) == FetchSteps(prog, s, j + 1)
  {
    hide FetchStep;
  }

  lemma FollowsStatus(prog: Program, s: Spec, k: nat)
    requires Follows(prog, s, k)
    ensures FetchSteps(prog, s, k).arch.d.status == Steps(prog, s.arch, Executed(prog, s, k)).d.status
  {
    hide FetchSteps; hide Steps; hide Executed;
  }

  // ---- a jump right behind an exit test that is not taken ----

  /** No run gets past such a jump: it is fetched, and then every tick either waits or panics. */
  lemma {:induction false} ClashBlocks(c0: Cpu, r: Trace, n: nat, k: nat)
    requires Inv(c0, []) && IsRun(r, c0) && n <= |r.evs| && AllSmooth(r, n)
    requires Clashes(c0.prog, FetchSteps(c0.prog, Abs(c0, []), k))
    ensures Refines(c0, r.states[n]) && r.states[n].fetched <= k + 1
    ensures r.states[n].fetched == k + 1 ==> JumpBehindTest(r.states[n].cpu.core)
  {
    hide Inv; hide RunOne; hide Smooth; hide Clashes; hide FetchSteps; hide Abs; hide PendingAccesses;
    hide Occupied; hide JumpBehindTest; hide FetchStep;
    if n == 0 {
      Starts(c0);
    } else {
      ClashBlocks(c0, r, n - 1, k);
      assert Linked(r, n - 1);
      var f := r.states[n - 1].fetched;
      if f <= k {
        RunsUntilClash(c0, k, f + 1);
        NextFetch(c0.prog, Abs(c0, []), f);
      }
      OneRefines(c0.prog, Abs(c0, []), r.states[n - 1], r.evs[n - 1], Occupied(c0.core));
      TraceAccountingInv(r.states[n].cpu, r.states[n].log);
    }
  }

  /** And with a DRAM that answers there is a run that panics. */
  lemma ClashPanics(c0: Cpu, k: nat, port: Portal) returns (r: Trace)
    requires Inv(c0, []) && Unpaused(c0) && Clashes(c0.prog, FetchSteps(c0.prog, Abs(c0, []), k))
    ensures IsRun(r, c0) && AllSmooth(r, |r.evs|) && Panics(r.states[|r.evs|].cpu, port)
  {
    hide Inv; hide Smooth; hide Clashes; hide FetchSteps; hide Abs; hide PendingAccesses; hide ExitNow;
    hide Occupied; hide JumpBehindTest; hide Panics; hide ClashNow; hide FetchStep;
    forall i: nat | i < k + 1 ensures Allowed(c0.prog, FetchSteps(c0.prog, Abs(c0, []), i)) {
      RunsUntilClash(c0, k, i + 1);
      NextFetch(c0.prog, Abs(c0, []), i);
    }
    r := RunExists(c0, k + 1);
    ClashBlocks(c0, r, |r.evs|, k);
    RunsUntilClash(c0, k, r.states[|r.evs|].fetched);
    RunningStays(r.states[|r.evs|].cpu, r.states[|r.evs|].log);
    if r.states[|r.evs|].fetched == k + 1 {
      r := ClashOn(c0, r);
    }
    ClashNowPanics(c0, r.states[|r.evs|], port);
  }

  lemma ClashNowPanics(c0: Cpu, s: RunState, port: Portal)
    requires Refines(c0, s) && Unpaused(s.cpu) && ClashNow(s.cpu)
    ensures Panics(s.cpu, port)
  {
    hide Inv; hide ClashNow; hide Panics; hide Orderly;
    InvIsOrderly(s.cpu, s.log);
    PanicsExactly(s.cpu, s.log, port);
  }

  lemma RunsUntilClash(c0: Cpu, k: nat, i: nat)
    requires Clashes(c0.prog, FetchSteps(c0.prog, Abs(c0, []), k)) && i <= k + 1
    ensures FetchSteps(c0.prog, Abs(c0, []), i).arch.d.status == Running
  {
    hide Abs; hide FetchSteps; hide FetchStep;
    NextFetch(c0.prog, Abs(c0, []), k);
    JumpRuns(c0.prog, FetchSteps(c0.prog, Abs(c0, []), k));
    RanBefore(c0.prog, Abs(c0, []), i, k + 1);
  }

  lemma JumpRuns(prog: Program, s: Spec)
    requires Clashes(prog, s)
    ensures FetchStep(prog, s).arch.d.status == Running
  {
  }

  /** From a run that has fetched the jump on: each answered tick brings the panic closer. */
  lemma {:induction false} ClashOn(c0: Cpu, r0: Trace) returns (r: Trace)
    requires IsRun(r0, c0) && AllSmooth(r0, |r0.evs|) && OnlyTicks(r0.evs, 0, |r0.evs|)
    requires var s := r0.states[|r0.evs|];
             Refines(c0, s) && Unpaused(s.cpu) && JumpBehindTest(s.cpu.core) && !ExitNow(s.cpu.core)
             && Abs(s.cpu, s.log).arch.d.status == Running
    ensures IsRun(r, c0) && AllSmooth(r, |r.evs|)
    ensures var s := r.states[|r.evs|];
            Refines(c0, s) && Unpaused(s.cpu) && ClashNow(s.cpu)
    decreases Delay(r0.states[|r0.evs|].cpu)
  {
    hide Inv; hide RunOne; hide Delay; hide Smooth; hide Allowed; hide Abs; hide Unpaused; hide FetchSteps;
    hide PendingAccesses; hide Occupied; hide ExitNow; hide ClashNow; hide JumpBehindTest;
    var s := r0.states[|r0.evs|];
    r := r0;
    if !ClashNow(s.cpu) {
      var port := AnswerOf(c0, s);
      var ev := TickEv(port);
      SmoothNow(c0, s, ev);
      RefinesOne(c0, s, ev);
      ExtendedIsRun(c0, r0, ev);
      RunningStays(RunOne(s, ev).cpu, RunOne(s, ev).log);
      r := ClashOn(c0, Extended(r0, ev, RunOne(s, ev)));
    }
  }
}
