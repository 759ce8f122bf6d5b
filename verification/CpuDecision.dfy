/** The decision of one tick, case by case, and the signals it leaves behind. */
module CpuDecision {
  import opened Words
  import opened DramPortals
  import opened Scoreboard
  import opened CpuStages
  import opened CpuArbitration

  const HOLD_OPS: Ops := Ops(Stall, Stall, Stall, Stall, Stall, Normal)
  const WRITEBACK_OPS: Ops := Ops(Stall, Stall, Stall, Stall, Normal, Normal)
  const RELEASE_OPS: Ops := Ops(Stall, Stall, Stall, Normal, Normal, Stall)
  const PAUSE_OPS: Ops := Ops(Normal, Stall, Stall, Stall, Stall, Stall)
  const RAW_OPS: Ops := Ops(Stall, Stall, Stall, Normal, Normal, Normal)
  const JUMP_OPS: Ops := Ops(Flush, Normal, Normal, Normal, Normal, Normal)

  function BlockOps(st: MemState): Ops {
    match st
    case Submit => HOLD_OPS
    case Waiting => HOLD_OPS
    case WriteBack => WRITEBACK_OPS
    case Release => RELEASE_OPS
    case Done => ALL_NORMAL
  }

  ghost predicate HasBlock(n: ActiveMap) {
    exists k :: k in n && k.reason.MemBlock?
  }

  /** What survives a decision: the winner one step further unless it finished, and every loser
      except RAW signals. Re-keying would not move any of them. */
  lemma Survivors(n: ActiveMap, port: Portal)
    requires Keyed(n) && n != map[]
    ensures var w := Winner(n);
            var d := Decide(n, port);
            && Keyed(d.active)
            && d.winner == Some(w.reason) && d.ops == OpsOf(n[w])
            && (forall j :: j in d.active ==> j in n)
            && (forall j :: j in d.active && j != w ==> d.active[j] == n[j] && !n[j].fsm.RawFsm?)
            && (forall j :: j in n && j != w && !n[j].fsm.RawFsm? ==> j in d.active)
            && (w in d.active <==> FsmAction(Advance(n[w].fsm, w.reason, port).0) != Normal)
            && (w in d.active ==> d.active[w] == n[w].(fsm := Advance(n[w].fsm, w.reason, port).0))
            && d.port == Advance(n[w].fsm, w.reason, port).1
  {
    var w := Winner(n);
    var (fsm, _) := Advance(n[w].fsm, n[w].reason, port);
    assert n[w].reason == w.reason;
    assert FsmAction(fsm) == FsmAction(n[w].fsm) || FsmAction(fsm) == Normal;
  }

  lemma WinnerBlock(prog: Program, c: Core, requested: bool, n: ActiveMap, k: Key)
    requires AllExpected(prog, c, requested, n) && k in n && k.reason.MemBlock?
    ensures Winner(n) == k && OpsOf(n[k]) == BlockOps(n[k].fsm.st)
  {
    hide EvalEX; hide EvalAGU; hide BlockOk;
    forall j | j in n && j != k ensures KeyLess(j, k) {
      assert Expected(prog, c, requested, n[j]);
    }
    assert Expected(prog, c, requested, n[k]);
    MaxUnique(n.Keys, k, Winner(n));
  }

  lemma WinnerPause(prog: Program, c: Core, n: ActiveMap)
    requires Submitted(prog, c, true, n) && !HasBlock(n)
    ensures n != map[] && Winner(n).reason == ExternalPause && OpsOf(n[Winner(n)]) == PAUSE_OPS
  {
    hide EvalEX; hide EvalAGU; hide BlockOk;
    var w := Winner(n);
    assert PAUSE_KEY in n && (w == PAUSE_KEY || KeyLess(PAUSE_KEY, w));
    assert Expected(prog, c, true, n[w]);
  }

  lemma WinnerRaw(prog: Program, c: Core, n: ActiveMap)
    requires Submitted(prog, c, false, n) && !HasBlock(n)
    requires EvalAGU(prog, c) != AGU_RAW && EvalEX(c) == EX_RAW
    ensures n != map[] && Winner(n) == EX_RAW_KEY && OpsOf(n[Winner(n)]) == RAW_OPS
  {
    hide EvalEX; hide EvalAGU; hide BlockOk;
    var w := Winner(n);
    assert EX_RAW_KEY in n && (w == EX_RAW_KEY || KeyLess(EX_RAW_KEY, w));
    assert Expected(prog, c, false, n[w]);
  }

  lemma OnlyJumps(prog: Program, c: Core, n: ActiveMap, k: Key)
    requires AllExpected(prog, c, false, n) && !HasBlock(n)
    requires EvalAGU(prog, c) != AGU_RAW && EvalEX(c) != EX_RAW && k in n
    ensures k == JUMP_KEY && c.ifid.valid && c.ifid.inst.JUMP? && OpsOf(n[k]) == JUMP_OPS
  {
    hide EvalEX; hide EvalAGU; hide BlockOk;
    assert Expected(prog, c, false, n[k]);
  }

  lemma WinnerJump(prog: Program, c: Core, n: ActiveMap)
    requires Submitted(prog, c, false, n) && !HasBlock(n)
    requires EvalAGU(prog, c) != AGU_RAW && EvalEX(c) != EX_RAW
    ensures c.ifid.valid && c.ifid.inst.JUMP? ==>
              n != map[] && Winner(n) == JUMP_KEY && OpsOf(n[JUMP_KEY]) == JUMP_OPS && n.Keys == {JUMP_KEY}
    ensures !(c.ifid.valid && c.ifid.inst.JUMP?) ==> n == map[]
  {
    forall k | k in n ensures k == JUMP_KEY && c.ifid.valid && c.ifid.inst.JUMP? && OpsOf(n[k]) == JUMP_OPS {
      OnlyJumps(prog, c, n, k);
    }
    hide EvalEX; hide EvalAGU; hide BlockOk;
    if c.ifid.valid && c.ifid.inst.JUMP? {
      assert JUMP_KEY in n;
      assert n.Keys == {JUMP_KEY};
    } else {
      assert n.Keys == {};
    }
  }
}
