/** From the host's stores to the registers: data that the host packs into cache lines arrives unchanged where
    the programs load it. */
module HostData {
  import opened Words
  import opened DramPortals
  import opened FlatMemory
  import opened HostFormats
  import A = AguUnits
  import C = CpuRuns
  import CpuEffects
  import CpuPipeline
  import CpuRefinement
  import CpuSteps
  import CpuTypes
  import Isa
  import P = PeRefinement
  import PeEffects
  import T = PeTypes

  // ---- the CPU ----

  /** The instruction accesses entry `a`. */
  predicate Touches(t: A.AguTable, i: CpuTypes.Inst, d: Isa.Data, a: u32) {
    match i
    case LD128(_, frs) => CpuEffects.Reaches(t, d.f[frs]) && CpuEffects.Target(t, d.f[frs]) == a
    case FatPtrLD(_, frs) => CpuEffects.Reaches(t, d.f[frs]) && CpuEffects.Target(t, d.f[frs]) == a
    case ST128(_, frd) => CpuEffects.Reaches(t, d.f[frd]) && CpuEffects.Target(t, d.f[frd]) == a
    case FatPtrST(frd, _) => CpuEffects.Reaches(t, d.f[frd]) && CpuEffects.Target(t, d.f[frd]) == a
    case _ => false
  }

  predicate SameEntry(m: Mem, n: Mem, a: u32) {
    (a in m <==> a in n) && (a in m ==> m[a] == n[a])
  }

  lemma OthersKeep(t: A.AguTable, i: CpuTypes.Inst, d: Isa.Data, e: Isa.Data, a: u32)
    requires CpuEffects.Effect(t, i, d, e) && !Touches(t, i, d, a)
    ensures SameEntry(e.mem, d.mem, a)
  {
    hide CpuEffects.VectorIs; hide CpuEffects.Reaches; hide CpuEffects.Target; hide CpuEffects.Moves;
  }

  lemma {:induction false} Untouched(c0: CpuPipeline.Cpu, a: u32, k: nat, n: nat)
    requires k <= n && CpuEffects.Before(c0, n).d.status == Isa.Running
    requires forall j: nat :: j < k ==> !Touches(c0.prog.agu, CpuEffects.Fetched(c0, j), CpuEffects.Before(c0, j).d, a)
    ensures SameEntry(CpuEffects.Before(c0, k).d.mem, CpuEffects.Before(c0, 0).d.mem, a)
  {
    hide CpuEffects.Before; hide CpuEffects.Fetched; hide CpuEffects.Effect; hide Touches;
    if k > 0 {
      Untouched(c0, a, k - 1, n);
      CpuEffects.RunsSoFar(c0, k - 1, n);
      OthersKeep(c0.prog.agu, CpuEffects.Fetched(c0, k - 1), CpuEffects.Before(c0, k - 1).d, CpuEffects.Before(c0, k).d,
                 a);
    }
  }

  predicate WritesF(i: CpuTypes.Inst, frd: Reg) {
    (i.FatPtrLD? || i.FatPtrArith?) && i.frd == frd
  }

  lemma {:induction false} UnwrittenF(c0: CpuPipeline.Cpu, frd: Reg, k: nat, n: nat)
    requires k <= n && CpuEffects.Before(c0, n).d.status == Isa.Running
    requires forall j :: k <= j < n ==> !WritesF(CpuEffects.Fetched(c0, j), frd)
    ensures CpuEffects.Before(c0, n).d.f[frd] == CpuEffects.Before(c0, k).d.f[frd]
  {
    hide CpuEffects.Before; hide CpuEffects.Fetched; hide CpuEffects.VectorIs; hide CpuEffects.Reaches;
    hide CpuEffects.Moves;
    if k < n {
      CpuEffects.RunsSoFar(c0, n - 1, n);
      UnwrittenF(c0, frd, k, n - 1);
      assert !WritesF(CpuEffects.Fetched(c0, n - 1), frd);
    }
  }

  /** A pointer header that the host has stored before the CPU starts: the instruction that first touches its
      entry, a pointer load, leaves exactly that pointer in its register, and it is there when nothing is in
      flight and no later instruction has written the register. */
  lemma PointerIsLoaded(c0: CpuPipeline.Cpu, r: C.Trace, n: nat, k: nat, m: Mem, first: u32, payload: Payload, i: nat,
                        tag: nat, offset: nat)
    requires CpuRefinement.Inv(c0, []) && C.Regular(c0, r, n) && CpuSteps.Occupied(r.states[n].cpu.core) == 0
    requires k < r.states[n].fetched && CpuEffects.Fetched(c0, k).FatPtrLD?
    requires i < 4 && first + 4 <= 0x1_0000_0000 && tag < 16 && offset < 0x1000_0000
    requires payload[2 * i] % 0x1_0000_0000 == Header(tag, offset)
    requires SameEntry(CpuEffects.Before(c0, 0).d.mem, MirrorLine(m, first, payload), first + i)
    requires FreeFor(m, first + i, (e: Entry) => e.CpuFatPtr?)
    requires var f := CpuEffects.Before(c0, k).d.f;
             && CpuEffects.Reaches(c0.prog.agu, f[CpuEffects.Fetched(c0, k).frs])
             && CpuEffects.Target(c0.prog.agu, f[CpuEffects.Fetched(c0, k).frs]) == first + i
    requires forall j: nat :: j < k ==>
               !Touches(c0.prog.agu, CpuEffects.Fetched(c0, j), CpuEffects.Before(c0, j).d, first + i)
    requires forall j :: k < j < r.states[n].fetched ==>
               !WritesF(CpuEffects.Fetched(c0, j), CpuEffects.Fetched(c0, k).frd)
    ensures r.states[n].cpu.core.rf.f[CpuEffects.Fetched(c0, k).frd] == Some(FatPtr(tag, offset))
  {
    hide CpuRefinement.Inv; hide CpuEffects.Before; hide CpuEffects.Fetched; hide C.AllSmooth; hide C.AllAllowed;
    hide C.RunOne; hide WritesF; hide Touches; hide CpuEffects.Reaches; hide CpuEffects.Target; hide MirrorLine;
    hide Header; hide CpuEffects.VectorIs; hide CpuEffects.Moves; hide CpuSteps.Occupied;
    var last := r.states[n].fetched;
    CpuEffects.RunComputes(c0, r, n, k);
    Untouched(c0, first + i, k, last);
    PointerArrives(m, first, payload, i, tag, offset);
    SameRead(CpuEffects.Before(c0, k).d.mem, MirrorLine(m, first, payload), first + i);
    UnwrittenF(c0, CpuEffects.Fetched(c0, k).frd, k + 1, last);
    CpuEffects.RunsSoFar(c0, k + 1, last);
  }

  lemma SameRead(m: Mem, n: Mem, a: u32)
    requires SameEntry(m, n, a)
    ensures ReadFptr(m, a).0 == ReadFptr(n, a).0
    ensures ReadV(m, a).0 == ReadV(n, a).0 && ReadS(m, a).0 == ReadS(n, a).0
  {
  }

  // ---- the PE ----

  /** What happens between a store and a load of an entry and changes what the load gets: another store, or a
      load that claims the entry for the other type. */
  predicate Disturbs(x: P.Happened, a: u32, vector: bool) {
    match x
    case HostStore(first, _) => P.LineFits(first) && first <= a < first + 4
    case Retired(ST128(_, b)) => a == b
    case Retired(ST32(_, b)) => a == b
    case Retired(LD128(_, b)) => a == b && !vector
    case Retired(LD32(_, b)) => a == b && vector
    case _ => false
  }

  lemma OneReads(st: T.PeState, x: P.Happened, a: u32)
    ensures !Disturbs(x, a, true) ==> ReadV(P.Then(st, x).mem, a).0 == ReadV(st.mem, a).0
    ensures !Disturbs(x, a, false) ==> ReadS(P.Then(st, x).mem, a).0 == ReadS(st.mem, a).0
  {
    hide T.Zip; hide T.Mac32; hide T.ReluVec; hide DecodePeVector; hide DecodePeScalar; hide MirrorEntries;
    if x.HostStore? && P.LineFits(x.first) && !(x.first <= a < x.first + 4) {
      NotYetStored(st.mem, x.first, x.payload, 4, a);
      SameRead(MirrorLine(st.mem, x.first, x.payload), st.mem, a);
    }
  }

  lemma {:induction false} StillReads(h: seq<P.Happened>, a: u32, vector: bool, j: nat, n: nat)
    requires j <= n <= |h| && forall k :: j <= k < n ==> !Disturbs(h[k], a, vector)
    ensures vector ==> ReadV(PeEffects.Before(h, n).mem, a).0 == ReadV(PeEffects.Before(h, j).mem, a).0
    ensures !vector ==> ReadS(PeEffects.Before(h, n).mem, a).0 == ReadS(PeEffects.Before(h, j).mem, a).0
  {
    hide PeEffects.Before; hide ReadV; hide ReadS; hide P.Then; hide Disturbs; hide PeEffects.Effect;
    if j < n {
      StillReads(h, a, vector, j, n - 1);
      PeEffects.OneHappens(h, n - 1);
      OneReads(PeEffects.Before(h, n - 1), h[n - 1], a);
    }
  }

  /** Lanes that the host has stored are what a later vector load leaves in its register. */
  lemma LanesAreLoaded(r: P.Trace, n: nat, j: nat, k: nat, i: nat, v: Vec8)
    requires P.IsRun(r) && n <= |r.evs|
    requires var h := r.states[n].hist;
             && j < k < |h| && h[j].HostStore? && P.LineFits(h[j].first) && i < 4
             && h[j].payload[2 * i] == FourLanes(v[0], v[1], v[2], v[3])
             && h[j].payload[2 * i + 1] == FourLanes(v[4], v[5], v[6], v[7])
             && FreeFor(PeEffects.Before(h, j).mem, h[j].first + i, (e: Entry) => e.PeVector?)
             && h[k].Retired? && h[k].inst.LD128? && h[k].inst.addr == h[j].first + i && h[k].inst.vrd != 0
             && (forall x :: j < x < k ==> !Disturbs(h[x], h[j].first + i, true))
             && (forall x :: k < x < |h| ==> !PeEffects.WritesV(h[x], h[k].inst.vrd))
    ensures r.states[n].pe.st.v[r.states[n].hist[k].inst.vrd] == v
  {
    hide PeEffects.Before; hide P.Executed; hide P.Insts; hide P.Accesses; hide P.Requests;
    hide P.RunOne; hide P.QueueOk; hide P.LatchOk; hide P.BookOk; hide MirrorLine; hide FourLanes; hide FreeFor;
    hide PeEffects.VectorIs; hide PeEffects.ReluIs; hide PeEffects.MacIs; hide T.Exec; hide ReadV; hide Disturbs;
    hide LineBytes; hide DecodePeVector;
    var h := r.states[n].hist;
    P.PeRefines(r, n);
    PeEffects.OneHappens(h, j);
    LanesArrive(PeEffects.Before(h, j).mem, h[j].first, h[j].payload, i, v);
    StillReads(h, h[j].first + i, true, j + 1, k);
    PeEffects.OneHappens(h, k);
    PeEffects.UnwrittenV(h, h[k].inst.vrd, k + 1, |h|);
    PeEffects.WholeHistory(h);
  }

  /** And the same for a scalar. */
  lemma ScalarIsLoaded(r: P.Trace, n: nat, j: nat, k: nat, i: nat, x: i32)
    requires P.IsRun(r) && n <= |r.evs|
    requires var h := r.states[n].hist;
             && j < k < |h| && h[j].HostStore? && P.LineFits(h[j].first) && i < 4
             && h[j].payload[2 * i] % 0x1_0000_0000 == U32(x)
             && FreeFor(PeEffects.Before(h, j).mem, h[j].first + i, (e: Entry) => e.PeScalar?)
             && h[k].Retired? && h[k].inst.LD32? && h[k].inst.addr == h[j].first + i && h[k].inst.srd != 0
             && (forall y :: j < y < k ==> !Disturbs(h[y], h[j].first + i, false))
             && (forall y :: k < y < |h| ==> !PeEffects.WritesS(h[y], h[k].inst.srd))
    ensures r.states[n].pe.st.s[r.states[n].hist[k].inst.srd] == x
  {
    hide PeEffects.Before; hide P.Executed; hide P.Insts; hide P.Accesses; hide P.Requests;
    hide P.RunOne; hide P.QueueOk; hide P.LatchOk; hide P.BookOk; hide MirrorLine; hide U32; hide FreeFor;
    hide PeEffects.VectorIs; hide PeEffects.ReluIs; hide PeEffects.MacIs; hide T.Exec; hide ReadS; hide Disturbs;
    hide LineBytes; hide DecodePeScalar;
    var h := r.states[n].hist;
    P.PeRefines(r, n);
    PeEffects.OneHappens(h, j);
    ScalarArrives(PeEffects.Before(h, j).mem, h[j].first, h[j].payload, i, x);
    StillReads(h, h[j].first + i, false, j + 1, k);
    PeEffects.OneHappens(h, k);
    PeEffects.UnwrittenS(h, h[k].inst.srd, k + 1, |h|);
    PeEffects.WholeHistory(h);
  }
}
