/** The last ticks of a program: after the exit's signal has left, until the CPU has finished. */
module CpuFinish {
  import opened Words
  import opened DramPortals
  import opened FlatMemory
  import opened CpuTypes
  import opened Scoreboard
  import opened CpuStages
  import opened CpuPipeline
  import opened Isa
  import opened CpuDrain
  import opened CpuForwarding
  import opened CpuArbitration
  import opened CpuDecision
  import opened CpuSteps
  import opened CpuRefinement
  import opened HeldFetch
  import opened CpuExitStep
  import opened CpuExit

  // ---- after the exit's signal has left ----

  /** The pause signals of a tick, if a pause is asserted; no stage asks for anything else. */
  function PauseReq(requested: bool, st: Stage): SignalReq {
    if requested then SignalReq(ExternalPause, st, None) else Quiet(st)
  }

  lemma LastEvals(prog: Program, c: Core, requested: bool)
    requires LastInWb(c)
    ensures var e := EvalAll(prog, c, requested);
            && e.wbReq == Quiet(WB) && e.wbAct == DoNothing
            && e.mem == Eval(BUBBLE_MEMWB, Quiet(MEM), DoNothing) && e.claimed == c.mem
            && e.agu == Eval(BUBBLE_AGUMEM, PauseReq(requested, AGU), DoNothing)
            && e.ex == Eval(BUBBLE_EXAGU, PauseReq(requested, EX), DoNothing)
            && e.id == Eval(BUBBLE_IDEX, PauseReq(requested, ID), DoNothing)
            && e.iF.req == PauseReq(requested, IF) && e.iF.act == if requested then HoldPC else DoNothing
  {
  }

  lemma LastSubmits(prog: Program, c: Core, requested: bool, m: ActiveMap)
    requires LastInWb(c) && Closing(m, requested) && EXIT_KEY !in m && NoRaw(m)
    ensures var n := SubmitAll(m, EvalAll(prog, c, requested));
            && Closing(n, requested) && EXIT_KEY !in n && NoRaw(n) && BlocksOf(n) == BlocksOf(m)
            && (requested ==> PAUSE_KEY in n) && (!requested ==> n == m)
  {
    hide EvalAll; hide Closing; hide BlocksOf; hide LastInWb; hide SubmitSignal;
    LastEvals(prog, c, requested);
    if requested {
      var m3 := SubmitSignal(m, PauseReq(true, AGU));
      var m4 := SubmitSignal(m3, PauseReq(true, EX));
      var m5 := SubmitSignal(m4, PauseReq(true, ID));
      SubmitsPause(m, AGU);
      SubmitsPause(m3, EX);
      SubmitsPause(m4, ID);
      SubmitsPause(m5, IF);
      QuietSubmits(m);
    } else {
      QuietSubmits(m);
    }
  }

  lemma QuietSubmits(m: ActiveMap)
    ensures forall s: Stage :: SubmitSignal(m, Quiet(s)) == m
  {
  }

  lemma SubmitsPause(m: ActiveMap, s: Stage)
    requires Closing(m, true) && EXIT_KEY !in m && NoRaw(m)
    ensures var n := SubmitSignal(m, PauseReq(true, s));
            && Closing(n, true) && EXIT_KEY !in n && NoRaw(n) && BlocksOf(n) == BlocksOf(m)
            && (forall k :: k in m ==> k in n) && (s == IF ==> PAUSE_KEY in n)
  {
    SubmitClosing(m, true, PauseReq(true, s));
  }

  /** The operations of whatever signal wins now. */
  predicate LastOps(ops: Ops) {
    ops == ALL_NORMAL || ops == JUMP_OPS || ops == HOLD_OPS || ops == WRITEBACK_OPS || ops == RELEASE_OPS
          || ops == PAUSE_OPS
  }

  /** The test's bubble leaves WB unless WB is held. */
  lemma LastCore(prog: Program, c: Core, requested: bool, ops: Ops)
    requires LastInWb(c) && LastOps(ops)
    ensures var c' := NextOf(prog, c, requested, ops);
            && c'.rf.v == c.rf.v && c'.rf.f == c.rf.f && c'.mem == c.mem
            && !c'.exagu.valid && !c'.agumem.valid
            && (ops.wb == Normal ==> !c'.memwb.valid)
            && (ops.wb != Normal ==> LastInWb(c'))
  {
    hide EvalAll; hide RegsOk; hide FwdOk;
    LastEvals(prog, c, requested);
    if ops.wb != Normal {
      LastHeld(prog, c, requested, ops);
    }
  }

  lemma LastHeld(prog: Program, c: Core, requested: bool, ops: Ops)
    requires LastInWb(c) && (ops == RELEASE_OPS || ops == PAUSE_OPS)
    ensures var c' := NextOf(prog, c, requested, ops);
            CoreOk(c') && !c'.idex.valid && !c'.ifid.valid
  {
    hide EvalAll; hide RegsOk;
    LastEvals(prog, c, requested);
  }

  /** What wins once the exit's signal has left: the highest memory block, or else a pause that is
      asserted, or else a jump, or nothing. */
  lemma LastWinner(m: ActiveMap, requested: bool)
    requires Closing(m, requested) && EXIT_KEY !in m && m != map[] && NoRaw(m) && (requested ==> PAUSE_KEY in m)
    ensures BlocksOf(m) == map[] && requested ==> Winner(m).reason == ExternalPause && OpsOf(m[Winner(m)]) == PAUSE_OPS
    ensures BlocksOf(m) == map[] && requested ==> m[Winner(m)].fsm == PauseFsm
    ensures BlocksOf(m) == map[] && !requested ==> Winner(m).reason == JumpResolution && OpsOf(m[Winner(m)]) == JUMP_OPS
    ensures BlocksOf(m) == map[] && !requested ==> m[Winner(m)].fsm == JumpFsm(false)
    ensures BlocksOf(m) != map[] ==> Winner(m) == Winner(BlocksOf(m)) && Winner(m).reason.MemBlock?
  {
    hide OpsOf;
    var w := Winner(m);
    assert w == KeyOf(m[w]);
    if BlocksOf(m) == map[] {
      assert w.reason.MemBlock? ==> w in BlocksOf(m);
      if requested {
        assert w == PAUSE_KEY || KeyLess(PAUSE_KEY, w);
      }
      StopOps(m[w]);
    } else {
      var v := Winner(BlocksOf(m));
      assert v in BlocksOf(m) && v in m;
      forall k | k in m && k != v ensures KeyLess(k, v) {
        assert k == KeyOf(m[k]) && v == KeyOf(m[v]);
        if k.reason.MemBlock? {
          assert k in BlocksOf(m);
        }
      }
      MaxUnique(m.Keys, v, w);
    }
  }

  lemma StopOps(a: Active)
    ensures a.target == Some({IF}) && a.fsm == JumpFsm(false) ==> OpsOf(a) == JUMP_OPS
    ensures a.target == None && a.fsm == PauseFsm ==> OpsOf(a) == PAUSE_OPS
  {
  }

  lemma StageOps(a: Active)
    requires a.fsm.MemFsm? && a.target == Some(ALL_STAGES)
    ensures OpsOf(a) == BlockOps(a.fsm.st)
  {
  }

  lemma LastDecision(m: ActiveMap, requested: bool, port: Portal)
    requires Closing(m, requested) && EXIT_KEY !in m && NoRaw(m) && (requested ==> PAUSE_KEY in m)
    ensures var d := Decide(m, port);
            && Closing(d.active, requested) && EXIT_KEY !in d.active && NoRaw(d.active) && d.winner != Some(ProgEnd)
            && (BlocksOf(m) == map[] ==> d.port == port && BlocksOf(d.active) == map[])
            && (BlocksOf(m) == map[] && requested ==> d.ops == PAUSE_OPS && d.winner == Some(ExternalPause))
            && (BlocksOf(m) == map[] && !requested ==> d.ops == ALL_NORMAL || d.ops == JUMP_OPS)
            && (BlocksOf(m) != map[] ==>
                  var w := Winner(BlocksOf(m));
                  && w in m && w.reason.MemBlock? && m[w].fsm.MemFsm? && d.ops == BlockOps(m[w].fsm.st)
                  && d.port == Advance(m[w].fsm, w.reason, port).1 && d.winner == Some(w.reason)
                  && (m[w].fsm.st == Release ==> BlocksOf(d.active) == BlocksOf(m) - {w}))
  {
    hide Decide; hide Advance; hide OpsOf; hide BlocksOf; hide Leftover;
    if m == map[] {
      NothingDecided(port);
    } else {
      LastWinner(m, requested);
      BlocksFsm(m, requested);
      LastSurvivors(m, requested, port);
      if Winner(m).reason.MemBlock? {
        StageOps(m[Winner(m)]);
        ReleaseLeaves(m, requested, port);
      } else {
        BlocksSurvive(m, port);
      }
      Survivors(m, port);
      StopsStill(m[Winner(m)], port);
    }
  }

  lemma StopsStill(a: Active, port: Portal)
    ensures a.fsm.JumpFsm? || a.fsm == PauseFsm ==> Advance(a.fsm, a.reason, port).1 == port
  {
  }

  lemma NothingDecided(port: Portal)
    ensures Decide(map[], port) == Decision(ALL_NORMAL, map[], None, port) && BlocksOf(map[]) == map[]
  {
  }

  /** A block that was released leaves; the others stay. */
  lemma ReleaseLeaves(m: ActiveMap, requested: bool, port: Portal)
    requires Closing(m, requested) && m != map[] && Winner(m).reason.MemBlock?
    ensures var w := Winner(m);
            m[w].fsm.MemFsm? && (m[w].fsm.st == Release ==> BlocksOf(Decide(m, port).active) == BlocksOf(m) - {w})
  {
    hide Decide; hide OpsOf; hide Leftover;
    BlocksFsm(m, requested);
    Survivors(m, port);
    var d := Decide(m, port);
    if m[Winner(m)].fsm.st == Release {
      assert BlocksOf(d.active).Keys == BlocksOf(m).Keys - {Winner(m)};
    }
  }

  lemma LastSurvivors(m: ActiveMap, requested: bool, port: Portal)
    requires Closing(m, requested) && EXIT_KEY !in m && m != map[] && NoRaw(m)
    ensures var d := Decide(m, port);
            Closing(d.active, requested) && EXIT_KEY !in d.active && NoRaw(d.active)
  {
    hide Decide; hide OpsOf;
    Survivors(m, port);
    AdvanceKind(m[Winner(m)], requested, port);
  }

  lemma AdvanceKind(a: Active, requested: bool, port: Portal)
    requires Leftover(requested, a)
    ensures var f := Advance(a.fsm, a.reason, port).0;
            FsmAction(f) != Normal ==> Leftover(requested, a.(fsm := f))
  {
  }

  // ---- a finished CPU ----

  /** A tick with only the test's bubble in flight, in WB. The CPU finishes unless WB is held: by a block
      that has just been released, or by a pause. */
  lemma LastTick(c: Cpu, port: Portal, requested: bool)
    requires Lasting(c, requested)
    requires forall k :: k in BlocksOf(c.active) ==> c.active[k].fsm.MemFsm? && c.active[k].fsm.st != Done
    ensures var (c', port') := Tick(c, port);
            && c'.core.rf.v == c.core.rf.v && c'.core.rf.f == c.core.rf.f && c'.core.mem == c.core.mem
            && Steady(c', requested)
            && (BlocksOf(c.active) == map[] ==>
                  && c'.finished == !requested && port' == port
                  && c'.pause == UpdateReady(c.pause, if requested then Some(ExternalPause) else c'.lastWinner)
                  && (requested ==> Lasting(c', true) && BlocksOf(c'.active) == map[]))
            && (BlocksOf(c.active) != map[] ==>
                  var w := Winner(BlocksOf(c.active));
                  var a := c.active[w];
                  && w in c.active && w.reason.MemBlock? && a.fsm.MemFsm? && c'.finished == (a.fsm.st != Release)
                  && c'.pause == UpdateReady(c.pause, Some(w.reason))
                  && |NewReqs(port, port')| == Bit(a.fsm.st == Submit)
                  && (a.fsm.st == Release ==>
                        BlocksOf(c'.active) == BlocksOf(c.active) - {w} && port' == port && Lasting(c', requested)))
  {
    hide EvalAll; hide NextCore; hide SubmitAll; hide Decide; hide Closing; hide BlocksOf; hide NoRaw;
    hide CoreOk; hide Advance;
    hide NewReqs;
    var n := SubmitAll(c.active, EvalAll(c.prog, c.core, requested));
    LastSubmits(c.prog, c.core, requested, c.active);
    SteadyPrepared(c, requested);
    LastDecision(n, requested, port);
    SameBlocks(c.active, n);
    var d := Decide(n, port);
    assert Decided(c, port) == d;
    if BlocksOf(c.active) == map[] {
      LastCore(c.prog, c.core, requested, d.ops);
    } else {
      var w := Winner(BlocksOf(c.active));
      assert w in BlocksOf(c.active);
      BlockReqs(c.active[w].fsm, w.reason, port);
      LastCore(c.prog, c.core, requested, d.ops);
    }
  }

  lemma SameBlocks(m: ActiveMap, n: ActiveMap)
    requires BlocksOf(n) == BlocksOf(m)
    ensures forall k :: k in BlocksOf(m) ==> k in m && k in n && n[k] == m[k] && k.reason.MemBlock?
  {
  }

  lemma BlockReqs(f: Fsm, r: Reason, port: Portal)
    requires f.MemFsm? && r.MemBlock?
    ensures var port' := Advance(f, r, port).1;
            |NewReqs(port, port')| == Bit(f.st == Submit) && (f.st == Release ==> port' == port)
  {
  }

  /** When an exit is taken, no memory block is live but one whose access has completed. */
  ghost predicate Prompt(c: Cpu) {
    ExitNow(c.core) ==> forall k :: k in c.active && k.reason.MemBlock? ==>
          c.active[k].fsm.MemFsm? && c.active[k].fsm.st == Release
  }

  predicate IsAccess(l: AguMem) {
    l.valid && l.dma != DmaNop && l.phys.Some?
  }

  /** A load or store is in MEM, or leaves AGU, when the exit is taken, and no live block has its line
      and direction. */
  predicate LateAccess(c: Cpu) {
    var l := EvalAGU(c.prog, c.core).next;
    || (IsAccess(c.core.agumem) && BlockKey(c.core.agumem) !in c.active)
    || (IsAccess(l) && BlockKey(l) !in c.active)
  }

  lemma MemAsks(l: AguMem, m: Mem)
    requires AguMemOk(l)
    ensures var q := EvalMEM(l, m).0.req;
            if IsAccess(l) then q.reason.MemBlock? && KeyOf(FreshSignal(q)) == BlockKey(l)
                  && FreshSignal(q).fsm == MemFsm(Submit, None)
            else q == Quiet(MEM)
  {
    hide ReadData; hide ReadFptr;
  }

  /** The blocks `b` left behind when those of `m` were live: these have been released, the others have
      not submitted their request. */
  ghost predicate LeftBehind(m: ActiveMap, b: ActiveMap) {
    && (forall k :: k in b ==>
          b[k].fsm.MemFsm? && k.reason.MemBlock? && b[k].fsm.st == (if k in m then Release else Submit))
    && (forall j, k :: j in b && k in b && j in m && k in m ==> j == k)
  }

  predicate AsksAnew(q: SignalReq) {
    q.reason.MemBlock? && FreshSignal(q).fsm == MemFsm(Submit, None)
  }

  lemma AddedBlocks(m: ActiveMap, q1: SignalReq, q2: SignalReq)
    requires LeftBehind(m, BlocksOf(m)) && (q1 == Quiet(MEM) || AsksAnew(q1)) && (q2 == Quiet(MEM) || AsksAnew(q2))
    ensures var b := AddBlock(AddBlock(BlocksOf(m), q1), q2);
            && LeftBehind(m, b)
            && ((exists k :: k in b && k !in m) <==>
                (AsksAnew(q1) && KeyOf(FreshSignal(q1)) !in m) || (AsksAnew(q2) && KeyOf(FreshSignal(q2)) !in m))
  {
    var b := AddBlock(AddBlock(BlocksOf(m), q1), q2);
    if AsksAnew(q1) && KeyOf(FreshSignal(q1)) !in m {
      assert KeyOf(FreshSignal(q1)) in b;
    }
    if AsksAnew(q2) && KeyOf(FreshSignal(q2)) !in m {
      assert KeyOf(FreshSignal(q2)) in b;
    }
  }

  lemma StaleBlocks(c: Cpu, log: seq<Access>)
    requires Inv(c, log) && ExitNow(c.core) && Prompt(c)
    ensures LeftBehind(c.active, Stale(c)) && (LateAccess(c) <==> exists k :: k in Stale(c) && k !in c.active)
  {
    hide EvalEX; hide EvalAGU; hide EvalMEM; hide AfterAgu; hide AfterMem; hide NextOf; hide Fine;
    hide Expected; hide Abs;
    hide AddBlock; hide BlocksOf; hide CoreOk; hide Keyed; hide Settled;
    AtExit(c, log);
    AguMemLater(c.prog, c.core, log);
    MemAsks(c.core.agumem, c.core.mem);
    var l := EvalAGU(c.prog, c.core).next;
    var m := NextOf(c.prog, c.core, c.pause.requested, EXIT_OPS).mem;
    MemAsks(l, m);
    BlocksIn(c.active);
    AddedBlocks(c.active, EvalMEM(c.core.agumem, c.core.mem).0.req, EvalMEM(l, m).0.req);
  }

  lemma AguMemLater(prog: Program, c: Core, log: seq<Access>)
    requires OlderFine(prog, c, log)
    ensures AguMemOk(c.agumem) && AguMemOk(EvalAGU(prog, c).next)
  {
    hide EvalAGU; hide DrainAgu; hide DrainMem;
    AguExact(prog, c, true, log);
  }

  /** The last two ticks: a released block may keep the finish back by one tick, and one block that has
      not submitted its request does so. With a pause asserted and no such block the CPU does not finish. */
  lemma LastTwoTicks(c3: Cpu, p3: Portal, p4: Portal, m: ActiveMap, requested: bool)
    requires Lasting(c3, requested) && LeftBehind(m, BlocksOf(c3.active))
    ensures var (c4, p3') := Tick(c3, p3);
            var (c5, p4') := Tick(c4, p4);
            var late := exists k :: k in BlocksOf(c3.active) && k !in m;
            && (c5.finished <==> late || !requested)
            && c5.core.rf.v == c3.core.rf.v && c5.core.rf.f == c3.core.rf.f && c5.core.mem == c3.core.mem
            && |NewReqs(p3, p3')| + |NewReqs(p4, p4')| == Bit(late)
            && (late && (forall k :: k in BlocksOf(c3.active) ==> k !in m) ==> |NewReqs(p3, p3')| == 1 && c4.finished)
            && (requested && late && !c3.pause.delayStarted && c3.pause.remaining == 0 ==> !c5.pause.ready)
            && (requested && !late ==> Lasting(c5, true) && BlocksOf(c5.active) == map[])
  {
    hide Tick; hide Closing; hide NewReqs; hide BlocksOf; hide NoRaw; hide LastInWb;
    BlocksIn(c3.active);
    LastTick(c3, p3, requested);
    var (c4, p3') := Tick(c3, p3);
    NoReqs(p3);
    NoReqs(p4);
    if c4.finished {
      FinishedStays(c4, p4);
    } else {
      BlocksIn(c4.active);
      LastTick(c4, p4, requested);
    }
  }

  /** The end of a program. Counting the tick that takes the exit as the first, the CPU has finished
      after the fourth or the fifth. Registers and memory are what was kept of the older instructions.
      At most one more DRAM request is made, after its instruction has retired: exactly if a load or
      store was in MEM or left AGU when the exit was taken. With a pause asserted the CPU finishes only
      if there is such a late request, and then without acknowledging the pause. */
  lemma TakenExitEnds(c0: Cpu, log: seq<Access>, p0: Portal, p1: Portal, p2: Portal, p3: Portal, p4: Portal)
    requires Inv(c0, log) && ExitNow(c0.core) && Steady(c0, c0.pause.requested) && Prompt(c0)
    ensures var c3 := Tick(Tick(Tick(c0, p0).0, p1).0, p2).0;
            var (c4, p3') := Tick(c3, p3);
            var (c5, p4') := Tick(c4, p4);
            && !c3.finished && (c5.finished <==> LateAccess(c0) || !c0.pause.requested)
            && SameState(Base(c5.core, log), Kept(c0.prog, c0.core, log))
            && |NewReqs(p3, p3')| + |NewReqs(p4, p4')| == Bit(LateAccess(c0))
            && (LateAccess(c0) && BlocksOf(c0.active) == map[] ==> |NewReqs(p3, p3')| == 1 && c4.finished)
            && (c0.pause.requested && LateAccess(c0) && !c0.pause.delayStarted && c0.pause.remaining == 0 ==>
                  !c5.pause.ready)
            && (c0.pause.requested && !LateAccess(c0) ==> Lasting(c5, true) && BlocksOf(c5.active) == map[])
  {
    hide Inv; hide Tick; hide ExitNow; hide Prompt; hide LateAccess; hide Closing; hide NewReqs; hide BlocksOf;
    hide Stale;
    hide NoRaw; hide Kept; hide LastInWb; hide LeftBehind;
    TakenExitDrains(c0, log, p0, p1, p2);
    StaleBlocks(c0, log);
    var c3 := Tick(Tick(Tick(c0, p0).0, p1).0, p2).0;
    LastTwoTicks(c3, p3, p4, c0.active, c0.pause.requested);
    BlocksIn(c0.active);
    if BlocksOf(c0.active) == map[] {
      StaleKeys(c0.active, Stale(c0));
    }
  }

  lemma StaleKeys(m: ActiveMap, b: ActiveMap)
    requires LeftBehind(m, b) && BlocksOf(m) == map[]
    ensures forall k :: k in b ==> k !in m
  {
    BlocksIn(m);
  }

  lemma BlocksIn(m: ActiveMap)
    ensures forall k :: k in BlocksOf(m) ==> k in m && m[k] == BlocksOf(m)[k] && k.reason.MemBlock?
    ensures forall k :: k in m && k.reason.MemBlock? ==> k in BlocksOf(m)
  {
  }

  lemma NoReqs(p: Portal)
    ensures NewReqs(p, p) == []
  {
  }

  /** A finished CPU does nothing any more; an answer that comes late stays where it is. */
  lemma FinishedStays(c: Cpu, port: Portal)
    requires c.finished
    ensures var (c', port') := Tick(c, port);
            c'.finished && c'.core == c.core && port' == port && (!c.pause.resumePending ==> c' == c)
  {
    hide Run;
  }
}
