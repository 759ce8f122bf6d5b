/** The processing element as an object, one tick at a time. */
module PeMachine {
  import opened Words
  import opened DramPortals
  import opened FlatMemory
  import opened PeTypes
  import opened PePipeline
  import opened Filters
  import S = Scoreboard
  import CpuPipeline

  class PeRegisters {
    const vrf: array<Vec8>
    const srf: array<i32>

    ghost predicate Valid()
    {
      vrf.Length == 16 && srf.Length == 8
    }

    constructor ()
      ensures Valid() && fresh(vrf) && fresh(srf)
      ensures vrf[..] == NewPe().st.v && srf[..] == NewPe().st.s
    {
      vrf := new Vec8[16](_ => ZERO8);
      srf := new i32[8](_ => 0);
    }

    method WriteVRF(r: VId, x: Vec8)
      requires Valid()
      modifies vrf
      ensures vrf[..] == WriteVR(old(vrf[..]), r, x)
    {
      if r != 0 {
        vrf[r] := x;
      }
    }

    method WriteSRF(r: SId, x: i32)
      requires Valid()
      modifies srf
      ensures srf[..] == WriteSR(old(srf[..]), r, x)
    {
      if r != 0 {
        srf[r] := x;
      }
    }
  }

  predicate IsReal(a: PeAct) {
    Dest(a) != None
  }

  lemma FilteredApply(st: PeState, acts: seq<PeAct>)
    ensures ApplyAll(st, Kept(IsReal, acts)) == ApplyAll(st, acts)
  {
    KeptApply(Apply, ApplyAll, IsReal, st, acts);
  }

  class PeUnit {
    var imem: seq<Job>
    var completed: seq<DramReq>
    var fetchNextAllowed: bool
    var finished: bool
    var issueEx: IssueEx
    var exWbForward: ExWb
    const rf: PeRegisters
    const fmem: FlatMem
    var stop: Stop

    ghost predicate Valid() {
      rf.Valid()
    }

    function State(): PeState
      requires rf.Valid()
      reads rf.vrf, rf.srf, fmem
    {
      PeState(rf.vrf[..], rf.srf[..], fmem.mem)
    }

    ghost function Value(): Pe
      requires rf.Valid()
      reads this, rf.vrf, rf.srf, fmem
    {
      Pe(imem, completed, fetchNextAllowed, finished, issueEx, exWbForward, State(), stop)
    }

    constructor ()
      ensures Valid() && fresh(rf) && fresh(rf.vrf) && fresh(rf.srf) && fresh(fmem)
      ensures Value() == NewPe()
    {
      imem, completed, fetchNextAllowed, finished := [], [], false, false;
      issueEx, exWbForward, stop := EMPTY_ISSUE, EMPTY_WB, Stop(S.Done, None);
      rf := new PeRegisters();
      fmem := new FlatMem();
    }

    // ---- the host's side ----

    method AllowNext()
      requires Valid()
      modifies this`fetchNextAllowed
      ensures Value() == PePipeline.AllowNext(old(Value()))
    {
      fetchNextAllowed := true;
    }

    method TakeCompleted() returns (req: Option<DramReq>)
      requires Valid()
      modifies this`completed
      ensures (req, Value()) == PePipeline.TakeCompleted(old(Value()))
    {
      req := None;
      if completed != [] {
        req, completed := Some(completed[0]), completed[1..];
      }
    }

    method HasFinished() returns (was: bool)
      requires Valid()
      modifies this`finished
      ensures (was, Value()) == PePipeline.HasFinished(old(Value()))
    {
      was := finished;
      finished := false;
    }

    method MirrorHostWrite(first: u32, payload: Payload)
      requires Valid() && first + ENTRIES_PER_CACHELINE <= 0x1_0000_0000
      modifies fmem
      ensures Value() == MirrorHost(old(Value()), first, payload)
    {
      fmem.MirrorHostWrite(first, payload);
    }

    // ---- the tick ----

    method PeekFetch() returns (j: Option<Job>)
      requires Valid()
      ensures j == Peek(Value())
    {
      j := if fetchNextAllowed && imem != [] then Some(imem[0]) else None;
    }

    method ConsumeFetch()
      requires Valid()
      modifies this`imem, this`fetchNextAllowed
      ensures Value() == PePipeline.ConsumeFetch(old(Value()))
    {
      if fetchNextAllowed {
        fetchNextAllowed := false;
        if imem != [] {
          imem := imem[1..];
        }
      }
    }

    /** EX evaluates the ALU, then memory, and only then knows what to write back. */
    method EvalEx() returns (e: ExEval)
      modifies fmem
      ensures e == EvalEX(issueEx, exWbForward, old(fmem.mem)) && fmem.mem == e.claimed
    {
      var l := issueEx;
      if !l.valid {
        return ExEval(EMPTY_WB, S.NoReason, [DoNothing], fmem.mem);
      }
      var next := ExWb(true, None, None, l.wb);
      match AluComp(l.alu, exWbForward) {
        case VecOut(lit) => next := next.(v := Some(lit));
        case SclOut(lit) => next := next.(s := Some(lit));
        case NoOut =>
      }
      var acts: seq<PeAct> := [];
      var reason := S.NoReason;
      match l.mem {
        case MemIdle =>
        case ReadVec(a) =>
          var x := fmem.MemReadV(a);
          next := next.(v := x);
          reason := Block(a, true);
        case WriteVec(a, r, lit) =>
          acts := acts + [WriteMemV(a, BypassV(exWbForward, r, lit))];
          reason := Block(a, false);
        case ReadScl(a) =>
          var x := fmem.MemReadS(a);
          next := next.(s := x);
          reason := Block(a, true);
        case WriteScl(a, r, lit) =>
          acts := acts + [WriteMemS(a, BypassS(exWbForward, r, lit))];
          reason := Block(a, false);
      }
      e := ExEval(next, reason, acts + WbActs(next), fmem.mem);
    }

    method StopStep(reason: S.Reason, port: DramPortal) returns (ops: StopOps)
      modifies this`stop, port
      ensures (ops, stop, port.Value()) == StopDecision(old(stop), reason, old(port.Value()))
    {
      if stop.st.Done? {
        if !reason.MemBlock? {
          return StopOps(S.Normal, S.Normal);
        }
        stop := stop.(st := S.Submit);
      }
      ops := OpsOf(stop.st);
      if stop.st.Submit? && reason.MemBlock? {
        var q := NewReq(reason.addr, reason.isRead, true);
        port.Submit(q);
        stop := Stop(S.Waiting, Some(q));
      } else if stop.st.Waiting? && stop.req.Some? {
        var done := port.TakeCompleted(stop.req.value);
        if done.Some? {
          stop := stop.(st := S.WriteBack);
        }
      } else {
        stop := AdvanceStop(stop, reason, EMPTY_PORTAL).0;
      }
    }

    /** Commits the actions of EX; naming a destination twice would be a panic. */
    method ArchUpdate(acts: seq<PeAct>)
      requires Valid() && !Duplicated(acts)
      modifies rf.vrf, rf.srf, fmem
      ensures State() == ApplyAll(old(State()), acts)
    {
      var seen: set<PeDest> := {};
      var ops: seq<PeAct> := [];
      for i := 0 to |acts|
        invariant forall d :: d in seen ==> exists k :: 0 <= k < i && Dest(acts[k]) == Some(d)
        invariant ops == Kept(IsReal, acts[..i])
      {
        assert acts[..i + 1][..i] == acts[..i];
        var dest := Dest(acts[i]);
        if dest != None {
          assert dest.value !in seen;
          seen := seen + {dest.value};
          ops := ops + [acts[i]];
        }
      }
      assert acts[..|acts|] == acts;
      FilteredApply(State(), acts);
      CommitReal(ops);
    }

    method CommitReal(ops: seq<PeAct>)
      requires Valid()
      modifies rf.vrf, rf.srf, fmem
      ensures State() == ApplyAll(old(State()), ops)
    {
      ghost var st0 := State();
      for i := 0 to |ops|
        invariant State() == ApplyAll(st0, ops[..i])
      {
        assert ops[..i + 1][..i] == ops[..i];
        match ops[i] {
          case DoNothing =>
          case WriteVRF(r, x) => rf.WriteVRF(r, x);
          case WriteSRF(r, x) => rf.WriteSRF(r, x);
          case WriteMemV(addr, x) => var _ := fmem.MemWriteV(addr, x);
          case WriteMemS(addr, x) => var _ := fmem.MemWriteS(addr, x);
        }
      }
      assert ops[..|ops|] == ops;
    }

    /** One clock tick, the function of the old state that the refinement theorem is about. */
    method Tick(port: DramPortal)
      requires Valid() && !Panics(Value())
      modifies this, rf.vrf, rf.srf, fmem, port
      ensures Valid()
      ensures (Value(), port.Value()) == PePipeline.Tick(old(Value()), old(port.Value()))
    {
      hide EvalISSUE; hide EvalEX; hide StopDecision; hide ApplyAll; hide Duplicated;
      ghost var p := Value();
      var input := PeekFetch();
      var issueNext := EvalISSUE(input, rf.vrf[..], rf.srf[..]);
      var e := EvalEx();
      var ops := StopStep(e.reason, port);
      if ops.ex == S.Normal {
        ArchUpdate(e.acts);
        if issueEx.valid {
          finished := true;
        }
        if issueEx.simReq.Some? {
          completed := completed + [issueEx.simReq.value];
        }
        if e.next.valid {
          exWbForward := e.next;
        }
      }
      var op := CpuPipeline.StageOp(ops.issue, ops.ex);
      if op == S.Normal {
        ConsumeFetch();
        issueEx := issueNext;
      } else if op != S.Stall {
        issueEx := EMPTY_ISSUE;
      }
    }
  }
}
