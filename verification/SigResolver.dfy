/** The signal resolver as the CPU updates it in place. */
module SigResolvers {
  import opened Words
  import opened DramPortals
  import opened Scoreboard

  /** What an update does to the signal it does not concern: finished signals leave. */
  lemma FinishedSignalsLeave(m: ActiveMap, k: Key)
    requires Keyed(m) && k in m
    ensures FsmAction(Blocked(m[k].fsm)) == Normal || KeyOf(m[k].(fsm := Blocked(m[k].fsm))) == k
  {
  }

  /** The action class of a signal never changes before the signal finishes, so its key is its own
      for life and rebuilding the map merges nothing. */
  lemma KeyForLife(a: Active, port: Portal)
    requires FsmAction(a.fsm) != Normal
    ensures var f := Advance(a.fsm, a.reason, port).0;
            FsmAction(f) == Normal || KeyOf(a.(fsm := f)) == KeyOf(a)
  {
  }

  class SigResolver {
    var active: ActiveMap
    var lastWinner: Option<Reason>

    constructor ()
      ensures active == map[] && lastWinner == None
    {
      active, lastWinner := map[], None;
    }

    method SubmitSignal(q: SignalReq)
      modifies this`active
      ensures active == Scoreboard.SubmitSignal(old(active), q)
    {
      if q.reason == NoReason {
        return;
      }
      var fsm := Template(q.reason);
      var key := Key(Priority(q.reason), q.issuer, FsmAction(fsm), q.reason);
      if key !in active {
        active := active[key := Active(q.issuer, fsm, q.target, q.reason)];
      }
    }

    /** The winner's state machine takes its step, at the portal if it is a memory block. */
    static method AdvanceWinner(f: Fsm, r: Reason, port: DramPortal) returns (g: Fsm)
      modifies port
      ensures (g, port.Value()) == Advance(f, r, old(port.Value()))
    {
      if f.MemFsm? && f.st == Submit && r.MemBlock? {
        var q := NewReq(r.addr, r.isRead, true);
        port.Submit(q);
        g := MemFsm(Waiting, Some(q));
      } else if f.MemFsm? && f.st == Waiting && f.req.Some? {
        var done := port.TakeCompleted(f.req.value);
        g := MemFsm(if done.Some? then WriteBack else Waiting, f.req);
      } else {
        g := Advance(f, r, EMPTY_PORTAL).0;
      }
    }

    /** The key that comes last in the order of the map. */
    method LastKey() returns (w: Key)
      requires active != map[]
      ensures w == Winner(active) && w in active
    {
      assert active.Keys != {};
      w :| w in active.Keys;
      var rest := active.Keys - {w};
      while rest != {}
        invariant w in active.Keys && rest <= active.Keys && w !in rest
        invariant forall k :: k in active.Keys - rest && k != w ==> KeyLess(k, w)
        decreases rest
      {
        var k :| k in rest;
        ghost var before := w;
        if KeyLess(w, k) {
          w := k;
        }
        rest := rest - {k};
        forall j | j in active.Keys - rest && j != w ensures KeyLess(j, w) {
          if w == k && j != before {
            KeyOrderTransitive(j, before, k);
          }
        }
      }
      MaxUnique(active.Keys, w, Winner(active));
    }

    /** Rebuilds the map, dropping finished signals and computing every key anew. */
    method UpdateActive()
      requires forall k :: k in active ==> FsmAction(active[k].fsm) == Normal || KeyOf(active[k]) == k
      modifies this`active
      ensures active == Live(old(active)) && Keyed(active)
    {
      var taken := active;
      var rest := taken.Keys;
      active := map[];
      while rest != {}
        invariant rest <= taken.Keys
        invariant forall k :: k in active <==> k in taken && k !in rest && FsmAction(taken[k].fsm) != Normal
        invariant forall k :: k in active ==> active[k] == taken[k]
        decreases rest
      {
        var k :| k in rest;
        if FsmAction(taken[k].fsm) != Normal {
          active := active[KeyOf(taken[k]) := taken[k]];
        }
        rest := rest - {k};
      }
      assert active == Live(taken);
    }

    /** Tells every signal but the winner that it lost. */
    method HandleBlocked(w: Key)
      requires Keyed(active) && w in active
      modifies this`active
      ensures active == AfterWin(old(active), w, old(active)[w].fsm)
      ensures forall k :: k in active && k != w ==>
                FsmAction(active[k].fsm) == Normal || KeyOf(active[k]) == k
    {
      ghost var was := active;
      var rest := active.Keys - {w};
      while rest != {}
        invariant rest <= was.Keys && w !in rest && active.Keys == was.Keys
        invariant active[w] == was[w]
        invariant forall k :: k in was && k in rest ==> active[k] == was[k]
        invariant forall k :: k in was && k != w && k !in rest ==>
                    active[k] == was[k].(fsm := Blocked(was[k].fsm))
        decreases rest
      {
        var k :| k in rest;
        active := active[k := active[k].(fsm := Blocked(active[k].fsm))];
        rest := rest - {k};
      }
      assert active == AfterWin(was, w, was[w].fsm);
      forall k | k in active && k != w ensures FsmAction(active[k].fsm) == Normal || KeyOf(active[k]) == k {
        FinishedSignalsLeave(was, k);
      }
    }

    /** One decision: the highest signal rules every stage it targets and advances; the others are
        told that they lost. */
    method GetDecision(port: DramPortal) returns (ops: Ops)
      requires Keyed(active)
      modifies this, port
      ensures Decision(ops, active, lastWinner, port.Value()) == Decide(old(active), old(port.Value()))
      ensures Keyed(active)
    {
      hide Advance; hide Blocked; hide FsmAction; hide FsmOp; hide OpOf; hide OpsOf; hide Priority; hide IsMax;
      ghost var was := active;
      lastWinner := None;
      ops := ALL_NORMAL;
      if active == map[] {
        return;
      }
      var w := LastKey();
      var champ := active[w];
      lastWinner := Some(champ.reason);
      ops := OpsOf(champ);
      KeyForLife(champ, port.Value());
      HandleBlocked(w);
      var fsm := AdvanceWinner(champ.fsm, champ.reason, port);
      active := active[w := champ.(fsm := fsm)];
      assert active == AfterWin(was, w, fsm);
      UpdateActive();
    }

    method ClearActiveSignal(r: Reason)
      modifies this
      ensures active == ClearActive(old(active), r)
      ensures lastWinner == if old(lastWinner).Some?
            && SameKind(old(lastWinner).value, r) then None else old(lastWinner)
    {
      active := map k | k in active && !SameKind(active[k].reason, r) :: active[k];
      if lastWinner.Some? && SameKind(lastWinner.value, r) {
        lastWinner := None;
      }
    }
  }
}
