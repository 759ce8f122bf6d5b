/** The PE executes its queue one instruction after the other, whatever the timing. */
module PeRefinement {
  import opened Words
  import opened DramPortals
  import opened FlatMemory
  import opened PeTypes
  import opened PePipeline
  import S = Scoreboard

  datatype Access = Access(line: u64, isRead: bool)

  /** What the memory and the registers went through, in order. */
  datatype Happened = Retired(inst: PeInst) | HostStore(first: u32, payload: Payload)

  predicate LineFits(first: u32) {
    first + ENTRIES_PER_CACHELINE <= 0x1_0000_0000
  }

  function Then(st: PeState, x: Happened): PeState {
    match x
    case Retired(i) => Exec(i, st)
    case HostStore(first, payload) =>
      if LineFits(first) then st.(mem := MirrorLine(st.mem, first, payload)) else st
  }

  /** The sequential meaning of a history. */
  function Spec(h: seq<Happened>): PeState {
    if h == [] then NewPe().st else Then(Spec(h[..|h| - 1]), h[|h| - 1])
  }

  /** The instructions of a history. */
  function Executed(h: seq<Happened>): seq<PeInst> {
    if h == [] then []
    else Executed(h[..|h| - 1]) + (if h[|h| - 1].Retired? then [h[|h| - 1].inst] else [])
  }

  function Insts(jobs: seq<Job>): seq<PeInst> {
    if jobs == [] then [] else Insts(jobs[..|jobs| - 1]) + [jobs[|jobs| - 1].inst]
  }

  function AccessOf(i: PeInst): seq<Access> {
    match i
    case LD128(_, a) => [Access(a / ENTRIES_PER_CACHELINE, true)]
    case ST128(_, a) => [Access(a / ENTRIES_PER_CACHELINE, false)]
    case LD32(_, a) => [Access(a / ENTRIES_PER_CACHELINE, true)]
    case ST32(_, a) => [Access(a / ENTRIES_PER_CACHELINE, false)]
    case _ => []
  }

  function Accesses(jobs: seq<Job>): seq<Access> {
    if jobs == [] then [] else Accesses(jobs[..|jobs| - 1]) + AccessOf(jobs[|jobs| - 1].inst)
  }

  function Requests(jobs: seq<Job>): seq<DramReq> {
    if jobs == [] then []
    else
      var last := jobs[|jobs| - 1].req;
      Requests(jobs[..|jobs| - 1]) + (if last.Some? then [last.value] else [])
  }

  // ---- runs ----

  datatype Event =
    | TickEv(port: Portal)
    | Push(job: Job)
    | Allow
    | Take
    | AskFinished
    | Store(first: u32, payload: Payload)

  /** The PE with what was done to it: jobs pushed, permissions given, completions taken, the history,
      how many jobs were fetched and retired, the DRAM accesses requested, and the register values
      ISSUE read for the instruction in EX. */
  datatype RunState = RunState(
    pe: Pe, pushed: seq<Job>, allows: nat, taken: seq<DramReq>, hist: seq<Happened>,
    fetched: nat, retired: nat, log: seq<Access>, v0: VFile, s0: SFile)

  function Fetches(p: Pe, port: Portal): bool {
    var (ops, _, _) := StopDecision(p.stop, EvalEX(p.latch, p.fwd, p.st.mem).reason, port);
    ops.issue.Normal? && ops.ex.Normal? && p.allowed && p.imem != []
  }

  function Retires(p: Pe, port: Portal): bool {
    var (ops, _, _) := StopDecision(p.stop, EvalEX(p.latch, p.fwd, p.st.mem).reason, port);
    ops.ex.Normal? && p.latch.valid
  }

  /** The request a tick puts on the portal. */
  function Submits(p: Pe): seq<Access> {
    var r := EvalEX(p.latch, p.fwd, p.st.mem).reason;
    if Woken(p.stop, r).st.Submit? && r.MemBlock? then [Access(r.addr, r.isRead)] else []
  }

  function RunOne(s: RunState, ev: Event): RunState {
    match ev
    case Push(j) => s.(pe := PushHost(s.pe, j), pushed := s.pushed + [j])
    case Allow => s.(pe := AllowNext(s.pe), allows := s.allows + 1)
    case Take =>
      var (r, p) := TakeCompleted(s.pe);
      s.(pe := p, taken := s.taken + if r.Some? then [r.value] else [])
    case AskFinished => s.(pe := HasFinished(s.pe).1)
    case Store(first, payload) =>
      if LineFits(first) then
        s.(pe := MirrorHost(s.pe, first, payload), hist := s.hist + [HostStore(first, payload)])
      else s
    case TickEv(port) =>
      RunState(Tick(s.pe, port).0, s.pushed, s.allows, s.taken,
               if Retires(s.pe, port) && s.retired < |s.pushed|
               then s.hist + [Retired(s.pushed[s.retired].inst)] else s.hist,
               s.fetched + (if Fetches(s.pe, port) then 1 else 0),
               s.retired + (if Retires(s.pe, port) then 1 else 0),
               s.log + Submits(s.pe),
               if Fetches(s.pe, port) then s.pe.st.v else s.v0,
               if Fetches(s.pe, port) then s.pe.st.s else s.s0)
  }

  datatype Trace = Trace(evs: seq<Event>, states: seq<RunState>)

  ghost predicate Linked(r: Trace, i: nat)
    requires i < |r.evs| && |r.states| == |r.evs| + 1
  {
    r.states[i + 1] == RunOne(r.states[i], r.evs[i])
  }

  ghost predicate IsRun(r: Trace) {
    && |r.states| == |r.evs| + 1
    && r.states[0] == RunState(NewPe(), [], 0, [], [], 0, 0, [], NewPe().st.v, NewPe().st.s)
    && forall i: nat :: i < |r.evs| ==> Linked(r, i)
  }

  // ---- the invariant ----

  /** The registers hold what the latest retired instruction forwards. */
  predicate FwdOk(fwd: ExWb, v: VFile, s: SFile) {
    fwd.valid ==>
      && (fwd.wb.VWrite? && fwd.wb.vrd != 0 && fwd.v.Some? ==> v[fwd.wb.vrd] == fwd.v.value)
      && (fwd.wb.SWrite? && fwd.wb.srd != 0 && fwd.s.Some? ==> s[fwd.wb.srd] == fwd.s.value)
  }

  /** Bypassing repairs every operand that ISSUE read too early. */
  ghost predicate Repairs(fwd: ExWb, v0: VFile, s0: SFile, v: VFile, s: SFile) {
    && (forall r: VId :: BypassV(fwd, r, ReadVR(v0, r)) == ReadVR(v, r))
    && (forall r: SId :: BypassS(fwd, r, ReadSR(s0, r)) == ReadSR(s, r))
  }

  function IsMem(i: PeInst): bool {
    AccessOf(i) != []
  }

  /** A load that has been evaluated has already claimed the type of its entry. */
  function Claim(i: PeInst, m: Mem): Mem {
    match i
    case LD128(_, a) => ReadV(m, a).1
    case LD32(_, a) => ReadS(m, a).1
    case _ => m
  }

  /** The DRAM request of a load or store. */
  function OwnRequest(i: PeInst): DramReq
    requires IsMem(i)
  {
    NewReq(AccessOf(i)[0].line, AccessOf(i)[0].isRead, true)
  }

  predicate StopOk(p: Pe, i: Option<PeInst>) {
    match p.stop.st
    case Submit => false
    case Waiting => i.Some? && IsMem(i.value)
    case WriteBack => i.Some? && IsMem(i.value)
    case Release => i.None?
    case Done => true
  }

  /** The instruction in EX. */
  function InEx(s: RunState): Option<PeInst> {
    if s.pe.latch.valid && s.retired < |s.pushed| then Some(s.pushed[s.retired].inst) else None
  }

  ghost predicate QueueOk(s: RunState) {
    && s.retired <= s.fetched <= |s.pushed|
    && s.fetched == s.retired + (if s.pe.latch.valid then 1 else 0)
    && s.pe.imem == s.pushed[s.fetched..]
    && s.fetched + (if s.pe.allowed then 1 else 0) <= s.allows
  }

  ghost predicate LatchOk(s: RunState) {
    && (!s.pe.latch.valid ==> s.pe.latch == EMPTY_ISSUE)
    && (s.pe.latch.valid ==>
          s.retired < |s.pushed| && s.pe.latch == EvalISSUE(Some(s.pushed[s.retired]), s.v0, s.s0))
    && (s.pe.latch.valid ==> Repairs(s.pe.fwd, s.v0, s.s0, s.pe.st.v, s.pe.st.s))
    && FwdOk(s.pe.fwd, s.pe.st.v, s.pe.st.s)
    && StopOk(s.pe, InEx(s))
    && (s.pe.stop.st.Waiting? ==>
          InEx(s).Some? && IsMem(InEx(s).value)
          && s.pe.stop.req == Some(OwnRequest(InEx(s).value)))
  }

  /** Registers and memory are those of the history, up to the type the pending load has claimed. */
  ghost predicate StateOk(s: RunState) {
    var spec := Spec(s.hist);
    && s.pe.st.v == spec.v && s.pe.st.s == spec.s
    && (s.pe.st.mem == spec.mem || (InEx(s).Some? && s.pe.st.mem == Claim(InEx(s).value, spec.mem)))
  }

  ghost predicate BookOk(s: RunState) {
    && s.retired <= |s.pushed|
    && Executed(s.hist) == Insts(s.pushed[..s.retired])
    && s.taken + s.pe.completed == Requests(s.pushed[..s.retired])
    && s.log == Accesses(s.pushed[..s.retired]) +
                (if InEx(s).Some? && !s.pe.stop.st.Done? then AccessOf(InEx(s).value) else [])
  }

  ghost predicate Good(s: RunState) {
    QueueOk(s) && LatchOk(s) && StateOk(s) && BookOk(s)
  }

  // ---- one instruction ----

  lemma OneAct(st: PeState, a: PeAct)
    ensures ApplyAll(st, [a]) == Apply(st, a) && ApplyAll(st, []) == st && !Duplicated([a]) && !Duplicated([])
  {
    assert [a][..0] == [];
    assert ApplyAll(st, [a][..0]) == st;
  }

  lemma ClaimTwice(i: PeInst, m: Mem)
    ensures Claim(i, Claim(i, m)) == Claim(i, m)
    ensures i.LD128? ==> ReadV(Claim(i, m), i.addr) == ReadV(m, i.addr)
    ensures i.LD32? ==> ReadS(Claim(i, m), i.addr) == ReadS(m, i.addr)
  {
    hide DecodePeVector; hide DecodePeScalar;
  }

  /** What EX computes from the repaired operands is the sequential step. */
  lemma ExIsExec(j: Job, v0: VFile, s0: SFile, fwd: ExWb, st: PeState, m: Mem)
    requires Repairs(fwd, v0, s0, st.v, st.s)
    requires m == st.mem || m == Claim(j.inst, st.mem)
    ensures var e := EvalEX(EvalISSUE(Some(j), v0, s0), fwd, m);
            && e.claimed == Claim(j.inst, st.mem) && e.next.valid && !Duplicated(e.acts)
            && ApplyAll(st.(mem := e.claimed), e.acts) == Exec(j.inst, st)
            && e.reason == (if IsMem(j.inst) then S.MemBlock(AccessOf(j.inst)[0].line, AccessOf(j.inst)[0].isRead)
                            else S.NoReason)
  {
    hide ReadV; hide ReadS; hide WriteV; hide WriteS; hide BypassV; hide BypassS; hide Zip; hide Mac32; hide ReluVec;
    hide ApplyAll; hide Duplicated;
    ClaimTwice(j.inst, st.mem);
    var e := EvalEX(EvalISSUE(Some(j), v0, s0), fwd, m);
    var st1 := st.(mem := e.claimed);
    if e.acts == [] {
      OneAct(st1, DoNothing);
    } else {
      OneAct(st1, e.acts[0]);
      assert e.acts == [e.acts[0]];
    }
  }

  /** What it forwards afterwards is what it wrote. */
  lemma ExForwards(j: Job, v0: VFile, s0: SFile, fwd: ExWb, st: PeState, m: Mem)
    requires Repairs(fwd, v0, s0, st.v, st.s)
    requires m == st.mem || m == Claim(j.inst, st.mem)
    ensures var next := EvalEX(EvalISSUE(Some(j), v0, s0), fwd, m).next;
            var st' := Exec(j.inst, st);
            FwdOk(next, st'.v, st'.s) && Repairs(next, st.v, st.s, st'.v, st'.s)
  {
    hide Zip; hide Mac32; hide ReluVec; hide DecodePeVector; hide DecodePeScalar; hide WriteV; hide WriteS;
    ClaimTwice(j.inst, st.mem);
  }

  lemma RepairsNow(fwd: ExWb, v: VFile, s: SFile)
    requires FwdOk(fwd, v, s)
    ensures Repairs(fwd, v, s, v, s)
  {
  }

  // ---- host stores and claims ----

  lemma {:induction false} MirrorCommutes(i: PeInst, m: Mem, first: u32, payload: Payload, n: nat)
    requires LineFits(first) && n <= ENTRIES_PER_CACHELINE
    ensures var m1 := MirrorEntries(Claim(i, m), first, payload, n);
            m1 == MirrorEntries(m, first, payload, n) || m1 == Claim(i, MirrorEntries(m, first, payload, n))
  {
    hide Claim; hide Mirror; hide LineBytes;
    if n > 0 {
      MirrorCommutes(i, m, first, payload, n - 1);
      MirrorOne(i, MirrorEntries(m, first, payload, n - 1), first + (n - 1), LineBytes(payload, n - 1));
    }
  }

  lemma MirrorOne(i: PeInst, m: Mem, a: u32, b: Bytes16)
    ensures Mirror(Claim(i, m), a, b) == Mirror(m, a, b) || Mirror(Claim(i, m), a, b) == Claim(i, Mirror(m, a, b))
  {
    hide DecodePeVector; hide DecodePeScalar; hide DecodeCpuData; hide DecodeCpuFatPtr;
  }

  // ---- one tick ----

  lemma SpecMore(h: seq<Happened>, x: Happened)
    ensures Spec(h + [x]) == Then(Spec(h), x)
    ensures Executed(h + [x]) == Executed(h) + (if x.Retired? then [x.inst] else [])
  {
    assert (h + [x])[..|h + [x]| - 1] == h;
  }

  lemma JobsMore(jobs: seq<Job>, k: nat)
    requires k < |jobs|
    ensures Insts(jobs[..k + 1]) == Insts(jobs[..k]) + [jobs[k].inst]
    ensures Accesses(jobs[..k + 1]) == Accesses(jobs[..k]) + AccessOf(jobs[k].inst)
    ensures Requests(jobs[..k + 1]) == Requests(jobs[..k]) + (if jobs[k].req.Some? then [jobs[k].req.value] else [])
  {
    assert jobs[..k + 1][..k] == jobs[..k];
  }

  lemma EmptyEx(fwd: ExWb, m: Mem, st: PeState)
    ensures var e := EvalEX(EMPTY_ISSUE, fwd, m);
            && e == ExEval(EMPTY_WB, S.NoReason, [DoNothing], m)
            && ApplyAll(st, e.acts) == st && !Duplicated(e.acts)
  {
    OneAct(st, DoNothing);
  }

  /** Ticks in which EX holds nothing: a memory access has just been released, or the PE was idle. */
  lemma IdleTick(s: RunState, port: Portal)
    requires Good(s) && !s.pe.latch.valid
    ensures !Panics(s.pe) && !Retires(s.pe, port) && Submits(s.pe) == []
    ensures Good(RunOne(s, TickEv(port)))
  {
    hide Spec; hide Executed; hide Insts; hide Accesses; hide Requests; hide Duplicated; hide ApplyAll; hide Repairs;
    hide FwdOk; hide BypassV; hide BypassS; hide EvalEX; hide EvalISSUE; hide Claim; hide FirstMatch; hide AccessOf;
    EmptyEx(s.pe.fwd, s.pe.st.mem, s.pe.st);
    RepairsNow(s.pe.fwd, s.pe.st.v, s.pe.st.s);
    var s' := RunOne(s, TickEv(port));
    NothingIssued(s.pe.st.v, s.pe.st.s);
    assert QueueOk(s');
    assert LatchOk(s');
    assert StateOk(s');
    assert BookOk(s');
  }

  lemma NothingIssued(v: VFile, s: SFile)
    ensures EvalISSUE(None, v, s) == EMPTY_ISSUE
    ensures forall j :: EvalISSUE(Some(j), v, s).valid && EvalISSUE(Some(j), v, s).simReq == j.req
  {
  }

  /** A memory access waits in EX until its response has come. */
  lemma WaitTick(s: RunState, port: Portal)
    requires Good(s) && s.pe.latch.valid && IsMem(s.pushed[s.retired].inst) && !s.pe.stop.st.WriteBack?
    ensures !Panics(s.pe) && !Retires(s.pe, port)
    ensures Good(RunOne(s, TickEv(port)))
  {
    hide Spec; hide Executed; hide Insts; hide Accesses; hide Requests; hide Duplicated; hide ApplyAll; hide Repairs;
    hide FwdOk; hide BypassV; hide BypassS; hide EvalEX; hide EvalISSUE; hide Exec; hide Claim; hide FirstMatch;
    var j := s.pushed[s.retired];
    ExIsExec(j, s.v0, s.s0, s.pe.fwd, Spec(s.hist), s.pe.st.mem);
  }

  /** An instruction retires: an access that has its response, or any other instruction at once. */
  lemma RetireTick(s: RunState, port: Portal)
    requires Good(s) && s.pe.latch.valid
    requires !IsMem(s.pushed[s.retired].inst) || s.pe.stop.st.WriteBack?
    ensures !Panics(s.pe) && Retires(s.pe, port) && Submits(s.pe) == []
    ensures Good(RunOne(s, TickEv(port)))
  {
    hide Spec; hide Executed; hide Insts; hide Accesses; hide Requests; hide Duplicated; hide ApplyAll; hide Repairs;
    hide FwdOk; hide BypassV; hide BypassS; hide EvalEX; hide EvalISSUE; hide Exec; hide Claim; hide FirstMatch;
    var j := s.pushed[s.retired];
    var spec := Spec(s.hist);
    ExIsExec(j, s.v0, s.s0, s.pe.fwd, spec, s.pe.st.mem);
    ExForwards(j, s.v0, s.s0, s.pe.fwd, spec, s.pe.st.mem);
    SpecMore(s.hist, Retired(j.inst));
    JobsMore(s.pushed, s.retired);
    NothingIssued(s.pe.st.v, s.pe.st.s);
    NothingIssued(s.v0, s.s0);
    var e := EvalEX(s.pe.latch, s.pe.fwd, s.pe.st.mem);
    assert s.pe.st.(mem := e.claimed) == spec.(mem := e.claimed);
    var s' := RunOne(s, TickEv(port));
    assert QueueOk(s');
    assert LatchOk(s');
    assert StateOk(s');
    assert BookOk(s');
  }

  // ---- whole runs ----

  lemma HostKeeps(s: RunState, ev: Event)
    requires Good(s) && !ev.TickEv? && !ev.Store?
    ensures Good(RunOne(s, ev))
  {
    hide Spec; hide Executed; hide Insts; hide Accesses; hide Requests; hide Repairs; hide FwdOk; hide EvalISSUE;
    hide Claim; hide AccessOf;
    match ev
    case Push(j) =>
      assert s.pushed + [j] == s.pushed[..s.retired] + (s.pushed[s.retired..] + [j]);
      assert (s.pushed + [j])[..s.retired] == s.pushed[..s.retired];
    case Take =>
      if s.pe.completed != [] {
        assert s.taken + s.pe.completed == (s.taken + [s.pe.completed[0]]) + s.pe.completed[1..];
      }
    case _ =>
  }

  lemma StoreKeeps(s: RunState, first: u32, payload: Payload)
    requires Good(s)
    ensures Good(RunOne(s, Store(first, payload)))
  {
    hide Spec; hide Executed; hide Insts; hide Accesses; hide Requests; hide Repairs; hide FwdOk; hide EvalISSUE;
    hide Claim; hide AccessOf; hide MirrorLine;
    if LineFits(first) {
      SpecMore(s.hist, HostStore(first, payload));
      if InEx(s).Some? {
        LineCommutes(InEx(s).value, Spec(s.hist).mem, first, payload);
      }
    }
  }

  lemma LineCommutes(i: PeInst, m: Mem, first: u32, payload: Payload)
    requires LineFits(first)
    ensures var m1 := MirrorLine(Claim(i, m), first, payload);
            m1 == MirrorLine(m, first, payload) || m1 == Claim(i, MirrorLine(m, first, payload))
  {
    MirrorCommutes(i, m, first, payload, ENTRIES_PER_CACHELINE);
  }

  /** The refinement theorem. After any events -- jobs pushed, permissions given, responses early or
      late or never, host stores at any moment -- registers and memory are those of executing the
      first `retired` jobs one after the other, with the host stores where they happened; the
      completed requests are those of these jobs in order; and the DRAM requests made are their
      accesses in order, plus that of the access waiting in EX. No tick panics. */
  lemma {:induction false} PeRefines(r: Trace, n: nat)
    requires IsRun(r) && n <= |r.evs|
    ensures Good(r.states[n]) && !Panics(r.states[n].pe)
  {
    hide Good; hide RunOne; hide Panics;
    if n == 0 {
      StartIsGood();
    } else {
      PeRefines(r, n - 1);
      assert Linked(r, n - 1);
      OneKeeps(r.states[n - 1], r.evs[n - 1]);
    }
    NeverPanics(r.states[n], EMPTY_PORTAL);
  }

  lemma StartIsGood()
    ensures Good(RunState(NewPe(), [], 0, [], [], 0, 0, [], NewPe().st.v, NewPe().st.s))
  {
  }

  lemma OneKeeps(s: RunState, ev: Event)
    requires Good(s)
    ensures Good(RunOne(s, ev))
  {
    hide Spec; hide Executed; hide Insts; hide Accesses; hide Requests; hide Repairs; hide FwdOk; hide EvalISSUE;
    hide Claim; hide AccessOf; hide Tick; hide EvalEX; hide Panics; hide Retires; hide Fetches; hide Submits;
    match ev
    case TickEv(port) =>
      if !s.pe.latch.valid {
        IdleTick(s, port);
      } else if IsMem(s.pushed[s.retired].inst) && !s.pe.stop.st.WriteBack? {
        WaitTick(s, port);
      } else {
        RetireTick(s, port);
      }
    case Store(first, payload) => StoreKeeps(s, first, payload);
    case _ => HostKeeps(s, ev);
  }

  lemma NeverPanics(s: RunState, port: Portal)
    requires Good(s)
    ensures !Panics(s.pe)
  {
    hide Spec; hide Executed; hide Insts; hide Accesses; hide Requests; hide Repairs; hide FwdOk; hide EvalISSUE;
    hide Claim; hide AccessOf; hide Tick; hide EvalEX; hide Panics; hide Retires; hide Fetches; hide Submits;
    if !s.pe.latch.valid {
      IdleTick(s, port);
    } else if IsMem(s.pushed[s.retired].inst) && !s.pe.stop.st.WriteBack? {
      WaitTick(s, port);
    } else {
      RetireTick(s, port);
    }
  }

  /** With nothing in EX the state is exactly the sequential one, claimed types included. */
  lemma QuietPeIsSequential(r: Trace, n: nat)
    requires IsRun(r) && n <= |r.evs| && !r.states[n].pe.latch.valid
    ensures r.states[n].pe.st == Spec(r.states[n].hist)
    ensures r.states[n].fetched <= |r.states[n].pushed|
    ensures Executed(r.states[n].hist) == Insts(r.states[n].pushed[..r.states[n].fetched])
    ensures r.states[n].log == Accesses(r.states[n].pushed[..r.states[n].fetched])
  {
    hide Spec; hide Executed; hide Insts; hide Accesses; hide Requests; hide Repairs; hide FwdOk; hide EvalISSUE;
    hide Claim; hide AccessOf; hide RunOne; hide Panics;
    PeRefines(r, n);
  }

  /** Every permission lets at most one instruction through; one given to an empty queue is lost. */
  lemma FetchIsGated(r: Trace, n: nat)
    requires IsRun(r) && n <= |r.evs|
    ensures r.states[n].fetched <= r.states[n].allows
    ensures var p := r.states[n].pe;
            p.allowed && p.imem == [] && !p.latch.valid && p.stop.st.Done? ==>
              forall port :: !Tick(p, port).0.allowed
  {
    hide Spec; hide Executed; hide Insts; hide Accesses; hide Requests; hide Repairs; hide FwdOk; hide EvalISSUE;
    hide Claim; hide AccessOf; hide RunOne; hide Panics;
    PeRefines(r, n);
  }
}
