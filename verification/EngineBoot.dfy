/** Starting a CPU inside its engine: from the start command, through the boot controller's reads of the shared
    DRAM, to a CPU that meets the invariants of the CPU theorems. */
module EngineBoot {
  import opened Words
  import opened DramPortals
  import opened DramWrappers
  import opened EngineSpec
  import opened EngineProcessors
  import opened EngineExclusive
  import opened EngineNumbers
  import opened EngineRuns
  import opened EngineCommands
  import B = BootFsm
  import C = CpuPipeline
  import CT = CpuTypes
  import CpuRefinement
  import CpuPause
  import CpuRuns
  import CpuStages
  import EngineConservation
  import EngineCpu
  import EngineHandshake
  import EngineWaiting
  import FetchMachine
  import FM = FlatMemory
  import H = BootHandover
  import I = BootImage
  import Isa
  import Q = CpuResponses
  import R = BootRuns
  import SimSpec

  // ---- the boot controller's view of its engine ----

  function View(b: B.Boot, l: B.Loaded, p: Portal, d: Dram, issued: seq<u64>, answered: nat): R.BootRun {
    R.BootRun(b, l, p, EngineCpu.PimInside(d), issued, answered)
  }

  /** The invariants of the boot theorems. */
  ghost predicate Sound(s: R.BootRun, l0: B.Loaded, descs: seq<(u32, u32)>, prog: seq<CT.Inst>) {
    R.Prepared(l0.mem, descs, prog) && R.Good(s) && R.StageOk(s, l0, descs)
  }

  /** They hold whatever was issued and answered in the current phase. */
  ghost predicate Boots(b: B.Boot, l: B.Loaded, p: Portal, d: Dram, l0: B.Loaded, descs: seq<(u32, u32)>,
                        prog: seq<CT.Inst>) {
    exists issued, answered :: Sound(View(b, l, p, d, issued, answered), l0, descs, prog)
  }

  lemma OneKeeps(s: R.BootRun, ev: R.Event, l0: B.Loaded, descs: seq<(u32, u32)>, prog: seq<CT.Inst>)
    requires Sound(s, l0, descs, prog)
    ensures Sound(R.RunOne(s, ev), l0, descs, prog)
  {
    hide R.Prepared; hide R.Good; hide R.StageOk; hide R.RunOne;
    R.StageKeeps(s, ev, l0, descs, prog);
    match ev
    case TickEv => R.TickKeeps(s);
    case Start => R.StartKeeps(s);
    case Issue(id, time) => R.IssueKeeps(s, id, time);
    case Refused => R.RefusedKeeps(s);
    case Answer(i) => R.AnswerKeeps(s, i);
  }

  lemma StepKeeps(s: R.BootRun, ev: R.Event, b: B.Boot, l: B.Loaded, p: Portal, d: Dram, l0: B.Loaded,
                  descs: seq<(u32, u32)>, prog: seq<CT.Inst>)
    requires Sound(s, l0, descs, prog)
    requires R.RunOne(s, ev) == View(b, l, p, d, R.RunOne(s, ev).issued, R.RunOne(s, ev).answered)
    ensures Boots(b, l, p, d, l0, descs, prog)
  {
    hide R.RunOne; hide Sound;
    OneKeeps(s, ev, l0, descs, prog);
    assert Sound(View(b, l, p, d, R.RunOne(s, ev).issued, R.RunOne(s, ev).answered), l0, descs, prog);
  }

  /** Only the processor's side of portal and DRAM matters. */
  lemma SameSide(b: B.Boot, l: B.Loaded, p: Portal, d: Dram, p': Portal, d': Dram, l0: B.Loaded,
                 descs: seq<(u32, u32)>, prog: seq<CT.Inst>)
    requires Boots(b, l, p, d, l0, descs, prog)
    requires p'.pimReq == p.pimReq && p'.pimResp == p.pimResp && EngineCpu.PimInside(d') == EngineCpu.PimInside(d)
    ensures Boots(b, l, p', d', l0, descs, prog)
  {
    hide R.Prepared; hide EngineCpu.PimInside; hide R.TableBounded; hide R.Bag; hide R.PhaseReqs; hide R.Lines;
    var issued, answered :| Sound(View(b, l, p, d, issued, answered), l0, descs, prog);
    SameStage(View(b, l, p, d, issued, answered), View(b, l, p', d', issued, answered), l0, descs, prog);
    assert Sound(View(b, l, p', d', issued, answered), l0, descs, prog);
  }

  lemma SameStage(s: R.BootRun, s': R.BootRun, l0: B.Loaded, descs: seq<(u32, u32)>, prog: seq<CT.Inst>)
    requires R.Prepared(l0.mem, descs, prog) && R.StageOk(s, l0, descs) && s'.boot == s.boot && s'.loaded == s.loaded
    ensures R.StageOk(s', l0, descs)
  {
    hide I.IsImage; hide I.AllEncodable; hide B.LoadProgram; hide B.LoadAguTable; hide R.TableBytes;
  }

  // ---- the parts of a tick ----

  /** The controller's own tick. */
  lemma BootTicks(b: B.Boot, l: B.Loaded, p: Portal, d: Dram, l0: B.Loaded, descs: seq<(u32, u32)>, prog: seq<CT.Inst>)
    requires Boots(b, l, p, d, l0, descs, prog)
    ensures var (b', l', p') := B.BootTick(b, l, p);
            Boots(b', l', p', d, l0, descs, prog)
  {
    hide Sound; hide B.BootTick;
    var issued, answered :| Sound(View(b, l, p, d, issued, answered), l0, descs, prog);
    var (b', l', p') := B.BootTick(b, l, p);
    StepKeeps(View(b, l, p, d, issued, answered), R.TickEv, b', l', p', d, l0, descs, prog);
  }

  /** A start arms an idle controller and leaves any other alone. */
  lemma StartTicks(b: B.Boot, l: B.Loaded, p: Portal, d: Dram, l0: B.Loaded, descs: seq<(u32, u32)>,
                   prog: seq<CT.Inst>)
    requires Boots(b, l, p, d, l0, descs, prog)
    ensures b.st == B.Idle ==> Boots(b.(st := B.AguSubmit), l, p, d, l0, descs, prog)
  {
    hide Sound;
    var issued, answered :| Sound(View(b, l, p, d, issued, answered), l0, descs, prog);
    if b.st == B.Idle {
      StepKeeps(View(b, l, p, d, issued, answered), R.Start, b.(st := B.AguSubmit), l, p, d, l0, descs, prog);
    }
  }

  /** While the processor is served, requests are issued one by one until the DRAM refuses. */
  lemma {:induction false} DrainBoots(b: B.Boot, l: B.Loaded, p: Portal, d: Dram, clock: nat, quota: nat, l0: B.Loaded,
                                      descs: seq<(u32, u32)>, prog: seq<CT.Inst>)
    requires Boots(b, l, p, d, l0, descs, prog) && p.mode == PIM && d.pimMode && AllPim(p.pimReq)
    ensures var (p', d') := DrainPort(p, d, clock, quota);
            Boots(b, l, p', d', l0, descs, prog) && d'.pimMode && p'.mode == PIM
    decreases quota
  {
    hide Sound;
    var issued, answered :| Sound(View(b, l, p, d, issued, answered), l0, descs, prog);
    var s := View(b, l, p, d, issued, answered);
    if p.pimReq != [] {
      var (q, p1) := p.GetOne();
      assert q.value in p.pimReq;
      if quota == 0 {
        StepKeeps(s, R.Refused, b, l, p1.Submit(q.value), d, l0, descs, prog);
      } else {
        var d1 := Dram(d.pending + [Stamped(q.value, d.nextId, clock)], d.nextId + 1, d.pimMode);
        StepKeeps(s, R.Issue(d.nextId, clock), b, l, p1, d1, l0, descs, prog);
        forall r | r in p1.pimReq ensures r in p.pimReq {}
        DrainBoots(b, l, p1, d1, clock, quota - 1, l0, descs, prog);
      }
    }
  }

  lemma {:induction false} CompleteFirst(p: Portal, q: DramReq, rest: seq<DramReq>)
    ensures CompleteAll(p, [q] + rest) == CompleteAll(p.Complete(q), rest)
  {
    if rest == [] {
      assert [q] + rest == [q] && [q][..0] == [];
      assert CompleteAll(p, [q]) == CompleteAll(p, [q][..0]).Complete(q);
    } else {
      var n := |rest| - 1;
      CompleteFirst(p, q, rest[..n]);
      assert ([q] + rest)[..n + 1] == [q] + rest[..n] && ([q] + rest)[n + 1] == rest[n];
    }
  }

  /** Completions answer requests one by one, in any order. */
  lemma {:induction false} CompleteBoots(phys: AddrMap, b: B.Boot, l: B.Loaded, p: Portal, d: Dram,
                                         cs: seq<Completion>, l0: B.Loaded, descs: seq<(u32, u32)>, prog: seq<CT.Inst>)
    requires Boots(b, l, p, d, l0, descs, prog) && d.pimMode && Complete(phys, d.pending, cs).Some?
    ensures var (done, left) := Complete(phys, d.pending, cs).value;
            Boots(b, l, CompleteAll(p, done), d.(pending := left), l0, descs, prog)
    decreases |cs|
  {
    hide Sound; hide FirstWith;
    if cs == [] {
      assert d.(pending := d.pending) == d;
    } else {
      var issued, answered :| Sound(View(b, l, p, d, issued, answered), l0, descs, prog);
      var i := FirstWith(phys, d.pending, cs[0]);
      var q := d.pending[i];
      var d1 := d.(pending := d.pending[..i] + d.pending[i + 1..]);
      StepKeeps(View(b, l, p, d, issued, answered), R.Answer(i), b, l, p.Complete(q), d1, l0, descs, prog);
      CompleteBoots(phys, b, l, p.Complete(q), d1, cs[1..], l0, descs, prog);
      CompleteFirst(p, q, Complete(phys, d1.pending, cs[1..]).value.0);
    }
  }

  // ---- a tick of the engine up to its scheduling ----

  /** A CPU that nobody has used, but for what the boot controller has loaded and the host's delays. */
  predicate Unused(c: C.Cpu) {
    c == WithLoaded(SimSpec.NEW_CPU, LoadedOf(c)).(
           started := c.started,
           pause := C.NO_PAUSE.(pauseDelay := c.pause.pauseDelay, resumeDelay := c.pause.resumeDelay))
  }

  /** The engine's processor in the course of a boot; it has started exactly when the controller is done. */
  ghost predicate BootsIn(e: Engine, l0: B.Loaded, descs: seq<(u32, u32)>, prog: seq<CT.Inst>) {
    && e.proc.Cgo? && Unused(e.proc.cpu) && e.proc.cpu.started == (e.proc.boot.st == B.Finished)
    && Boots(e.proc.boot, LoadedOf(e.proc.cpu), e.portal, e.dram, l0, descs, prog)
  }

  /** An engine whose CPU has not started. */
  ghost predicate Booting(e: Engine, l0: B.Loaded, descs: seq<(u32, u32)>, prog: seq<CT.Inst>) {
    BootsIn(e, l0, descs, prog) && !e.proc.cpu.started
  }

  lemma ProcBoots(e: Engine, l0: B.Loaded, descs: seq<(u32, u32)>, prog: seq<CT.Inst>)
    requires Booting(e, l0, descs, prog) && Compatible(e.proc, e.sched)
    ensures BootsIn(TickProc(e), l0, descs, prog)
  {
    hide B.BootTick; hide C.Tick; hide Boots;
    BootTicks(e.proc.boot, LoadedOf(e.proc.cpu), e.portal, e.dram, l0, descs, prog);
  }

  lemma CmdsBoot(e: Engine, l0: B.Loaded, descs: seq<(u32, u32)>, prog: seq<CT.Inst>)
    requires BootsIn(e, l0, descs, prog)
    ensures BootsIn(ProcessCmds(e), l0, descs, prog)
  {
    hide ProcessCmds; hide Boots; hide AnswersAre;
    CommandsDo(e);
    StartTicks(e.proc.boot, LoadedOf(e.proc.cpu), e.portal, e.dram, l0, descs, prog);
    var b := e.proc.boot;
    assert b.(st := b.st) == b;
  }

  lemma OfferBoots(e: Engine, quota: nat, l0: B.Loaded, descs: seq<(u32, u32)>, prog: seq<CT.Inst>)
    requires BootsIn(e, l0, descs, prog) && Sides(e.portal, e.dram)
    ensures var (p, d) := DrainPort(e.portal, e.dram, e.clock, quota);
            BootsIn(e.(portal := p, dram := d), l0, descs, prog)
  {
    hide Boots; hide DrainPort; hide NonePim;
    if e.dram.pimMode {
      DrainBoots(e.proc.boot, LoadedOf(e.proc.cpu), e.portal, e.dram, e.clock, quota, l0, descs, prog);
    } else {
      EngineCpu.DrainHostSide(e.portal, e.dram, e.clock, quota);
      var (p, d) := DrainPort(e.portal, e.dram, e.clock, quota);
      SameSide(e.proc.boot, LoadedOf(e.proc.cpu), e.portal, e.dram, p, d, l0, descs, prog);
    }
  }

  lemma CollectBoots(phys: AddrMap, e: Engine, cs: seq<Completion>, l0: B.Loaded, descs: seq<(u32, u32)>,
                     prog: seq<CT.Inst>)
    requires BootsIn(e, l0, descs, prog) && Sides(e.portal, e.dram)
    requires multiset(cs) <= Outstanding(phys, e.dram.pending)
    ensures BootsIn(Collect(phys, e, cs), l0, descs, prog)
  {
    hide Boots; hide Outstanding; hide Complete; hide CompleteAll; hide NonePim; hide AllPim; hide B.Reversed;
    PanicsExactly(phys, e.dram.pending, cs);
    var (done, left) := Complete(phys, e.dram.pending, cs).value;
    var p, d := CompleteAll(e.portal, done), e.dram.(pending := left);
    if e.dram.pimMode {
      CompleteBoots(phys, e.proc.boot, LoadedOf(e.proc.cpu), e.portal, e.dram, cs, l0, descs, prog);
    } else {
      EngineCpu.DoneIsHost(done, left, e.dram.pending);
      EngineCpu.CompleteHostSide(e.portal, done);
      SameSide(e.proc.boot, LoadedOf(e.proc.cpu), e.portal, e.dram, p, d, l0, descs, prog);
    }
    SameSide(e.proc.boot, LoadedOf(e.proc.cpu), p, d, p.(hostResp := []), d, l0, descs, prog);
  }

  lemma StartsIn(e: Engine, l0: B.Loaded, descs: seq<(u32, u32)>, prog: seq<CT.Inst>)
    requires Booting(e, l0, descs, prog) && Compatible(e.proc, e.sched)
    ensures var e1 := ProcessCmds(TickProc(e));
            e1.proc.Cgo? && (e1.proc.cpu.started ==> e.sched == CgoOnly || e.sched == HostCgoShare)
  {
    hide Boots; hide C.Tick; hide B.BootTick; hide ProcessCmds; hide AnswersAre;
    CommandsDo(TickProc(e));
  }

  /** The whole tick but its scheduling. */
  lemma PartsBoot(phys: AddrMap, e: Engine, env: Env, l0: B.Loaded, descs: seq<(u32, u32)>, prog: seq<CT.Inst>)
    requires Booting(e, l0, descs, prog) && Exclusive(e) && e.sched != Unconfigured && Legal(phys, e, env)
    ensures var e1 := Collect(phys, Offered(e, env), env.completions);
            && BootsIn(e1, l0, descs, prog) && BeforeSchedule(e1) && e1.sched == e.sched
            && (e1.proc.cpu.started ==> e.sched == CgoOnly || e.sched == HostCgoShare)
  {
    StartsIn(e, l0, descs, prog);
    hide Booting; hide BootsIn; hide Outstanding; hide ProcInBank; hide DrainPort; hide NonePim; hide AllPim;
    hide TickProc; hide ProcessCmds; hide Collect;
    ProcBoots(e, l0, descs, prog);
    CmdsBoot(TickProc(e), l0, descs, prog);
    ProcTick(e);
    PortKeepsSides(e.portal, TickProc(e).portal, e.dram);
    CmdsTouch(TickProc(e));
    OfferedKeeps(e, env);
    OfferBoots(BeforeDram(e), env.quota, l0, descs, prog);
    CollectKeeps(phys, Offered(e, env), env.completions);
    CollectBoots(phys, Offered(e, env), env.completions, l0, descs, prog);
  }

  // ---- what a finished boot has loaded ----

  /** Entries that hold neither the descriptor table nor the program are as the host left them. */
  ghost predicate DataKept(m: FM.Mem, m0: FM.Mem, descs: seq<(u32, u32)>)
    requires |descs| == 16
  {
    forall a: u32 :: 8 <= a && !(descs[0].0 <= a < (descs[0].0 as int) + descs[0].1) ==>
      (a in m <==> a in m0) && (a in m0 ==> m[a] == m0[a])
  }

  lemma PreparedParts(m: FM.Mem, descs: seq<(u32, u32)>, prog: seq<CT.Inst>)
    requires R.Prepared(m, descs, prog)
    ensures |descs| == 16 && |prog| <= 8 * (descs[0].1 as int) && (descs[0].0 as int) + descs[0].1 < 0x1_0000_0000
  {
    hide I.IsImage; hide I.AllEncodable; hide R.TableBytes;
    assert B.DescriptorOk(descs[0]);
  }

  lemma LoadsKeepData(l0: B.Loaded, descs: seq<(u32, u32)>, prog: seq<CT.Inst>)
    requires R.Prepared(l0.mem, descs, prog)
    ensures var l := B.LoadProgram(B.LoadAguTable(l0).1, descs[0].0, descs[0].1).1;
            && DataKept(l.mem, l0.mem, descs) && l.imem == I.Padded(prog, 8 * (descs[0].1 as int))
            && R.TableIs(l.agu, descs, 16) && l.f == B.INITIAL_PTRS
  {
    hide B.ReadChunks; hide I.Padded; hide R.TableIs; hide R.TableBytes; hide I.ChunkBytes; hide I.Encodable;
    hide B.TableOk; hide B.InstallTable; hide B.DecodeAll; hide B.DescriptorOk;
    PreparedParts(l0.mem, descs, prog);
    R.PreparedTable(l0, descs, prog);
    var l1 := B.LoadAguTable(l0).1;
    I.ImageLoads(l1, descs[0].0, prog, descs[0].1);
    var l := B.LoadProgram(l1, descs[0].0, descs[0].1).1;
    forall a: u32 | 8 <= a && !(descs[0].0 <= a < (descs[0].0 as int) + descs[0].1)
      ensures (a in l.mem <==> a in l0.mem) && (a in l0.mem ==> l.mem[a] == l0.mem[a])
    {
      R.TableRead(l0.mem, descs, 8, a);
      I.ImageRead(l1.mem, descs[0].0, prog, descs[0].1, a);
    }
  }

  /** The state in which a booted CPU starts: the sequential machine at its first instruction, with the host's
      program, buffers and data. */
  ghost predicate AtReset(c: C.Cpu, m0: FM.Mem, descs: seq<(u32, u32)>, prog: seq<CT.Inst>)
    requires |descs| == 16 && |prog| <= 8 * (descs[0].1 as int)
  {
    var spec := CpuRefinement.Abs(c, []);
    && c.prog.imem == I.Padded(prog, 8 * (descs[0].1 as int)) && R.TableIs(c.prog.agu, descs, 16)
    && spec == FetchMachine.Spec(Isa.Arch(0, Isa.Data(
         [ZERO4, ZERO4, ZERO4, ZERO4, ZERO4, ZERO4, ZERO4, ZERO4], B.INITIAL_PTRS, spec.arch.d.mem, [], Isa.Running)),
         false, false)
    && DataKept(spec.arch.d.mem, m0, descs)
  }

  /** The CPU a finished boot leaves: it meets the invariants of the CPU theorems and stands for the reset
      state, and none of the controller's requests or responses is left. */
  lemma FinishedCarries(e: Engine, l0: B.Loaded, descs: seq<(u32, u32)>, prog: seq<CT.Inst>)
    requires BootsIn(e, l0, descs, prog) && e.proc.cpu.started
    ensures EngineCpu.Carries(e.proc.cpu, [], e.portal, EngineCpu.PimInside(e.dram))
    ensures R.Prepared(l0.mem, descs, prog) && AtReset(e.proc.cpu, l0.mem, descs, prog)
  {
    hide R.Prepared; hide B.LoadProgram; hide B.LoadAguTable; hide R.TableIs; hide I.Padded; hide DataKept;
    hide R.PhaseOk; hide CpuRefinement.Inv; hide CpuPause.PauseOk; hide CpuRefinement.Abs; hide R.TableBounded;
    var b, l := e.proc.boot, LoadedOf(e.proc.cpu);
    var issued, answered :| Sound(View(b, l, e.portal, e.dram, issued, answered), l0, descs, prog);
    assert R.Prepared(l0.mem, descs, prog);
    PreparedParts(l0.mem, descs, prog);
    LoadsKeepData(l0, descs, prog);
    assert l == B.LoadProgram(B.LoadAguTable(l0).1, descs[0].0, descs[0].1).1;
    HandedCarries(e.proc.cpu, l);
    NothingInFlight(e.portal, EngineCpu.PimInside(e.dram));
  }

  lemma NothingInFlight(p: Portal, inDram: seq<DramReq>)
    requires p.pimReq == [] && p.pimResp == [] && inDram == []
    ensures Q.OneIn(map[], p, inDram)
  {
  }

  lemma HandedCarries(c: C.Cpu, l: B.Loaded)
    requires Unused(c) && c.started && l == LoadedOf(c) && l.f == B.INITIAL_PTRS
    ensures c.active == map[] && CpuRefinement.Inv(c, []) && CpuPause.PauseOk(c)
    ensures CpuRefinement.Abs(c, []) == FetchMachine.Spec(Isa.Arch(0, Isa.Data(
              [ZERO4, ZERO4, ZERO4, ZERO4, ZERO4, ZERO4, ZERO4, ZERO4], l.f, l.mem, [], Isa.Running)), false, false)
  {
    hide CpuRefinement.Inv; hide CpuPause.PauseOk; hide CpuRefinement.Abs; hide CpuRefinement.KeptApart;
    var h := H.Handed(l);
    H.HandedIsBooted(l);
    H.InitialPointers();
    H.HandedStarts(l);
    CpuRuns.BootedIsGood(CpuStages.Program(l.imem, l.agu), l.f, l.mem);
    EngineCpu.DelaysCarry(h, [], c.pause.pauseDelay, c.pause.resumeDelay);
  }

  // ---- a tick ----

  /** The tick in which the boot finishes hands over, whatever scheduling does with the CPU in the same tick. */
  ghost predicate Handed(e: Engine, m0: FM.Mem, descs: seq<(u32, u32)>, prog: seq<CT.Inst>)
    requires |descs| == 16 && |prog| <= 8 * (descs[0].1 as int)
  {
    EngineCpu.Carried(e, []) && AtReset(e.proc.cpu, m0, descs, prog)
  }

  lemma TickBoots(phys: AddrMap, e: Engine, env: Env, l0: B.Loaded, descs: seq<(u32, u32)>, prog: seq<CT.Inst>)
    requires Booting(e, l0, descs, prog) && Exclusive(e) && e.sched != Unconfigured && Legal(phys, e, env)
    requires R.Prepared(l0.mem, descs, prog)
    ensures |descs| == 16 && |prog| <= 8 * (descs[0].1 as int)
    ensures var e' := Tick(phys, e, env);
            && e'.proc.Cgo?
            && if e'.proc.cpu.started then Handed(e', l0.mem, descs, prog) else Booting(e', l0, descs, prog)
  {
    hide Boots; hide Unused; hide R.Prepared; hide Outstanding; hide ProcInBank; hide Sides; hide NonePim;
    hide Offered; hide Collect; hide Schedule; hide EngineCpu.Carries; hide AtReset;
    PreparedParts(l0.mem, descs, prog);
    PartsBoot(phys, e, env, l0, descs, prog);
    var e1 := Collect(phys, Offered(e, env), env.completions);
    ScheduleLeaves(e1, env.idle);
    ScheduleKeeps(e1, env.idle);
    TickIsExclusive(phys, e, env);
    ScheduleBoots(e1, env.idle, l0, descs, prog);
  }

  lemma ScheduleBoots(e: Engine, idle: bool, l0: B.Loaded, descs: seq<(u32, u32)>, prog: seq<CT.Inst>)
    requires BootsIn(e, l0, descs, prog) && BeforeSchedule(e) && R.Prepared(l0.mem, descs, prog)
    requires |descs| == 16 && |prog| <= 8 * (descs[0].1 as int)
    requires e.proc.cpu.started ==> e.sched == CgoOnly || e.sched == HostCgoShare
    ensures var e' := Schedule(e, idle);
            && e'.proc.Cgo? && e'.proc.cpu.started == e.proc.cpu.started && e'.sched == e.sched
            && (e.proc.cpu.started ==> EngineCpu.Carries(e'.proc.cpu, [], e'.portal, EngineCpu.PimInside(e'.dram))
                                       && AtReset(e'.proc.cpu, l0.mem, descs, prog))
            && (!e.proc.cpu.started ==> Booting(e', l0, descs, prog))
  {
    hide Boots; hide R.Prepared; hide ProcInBank; hide Sides; hide NonePim; hide Schedule; hide EngineCpu.Carries;
    hide CpuRefinement.Abs; hide DataKept; hide I.Padded; hide R.TableIs; hide Unused;
    ScheduleLeaves(e, idle);
    ScheduleKeeps(e, idle);
    var e' := Schedule(e, idle);
    if e.proc.cpu.started {
      FinishedCarries(e, l0, descs, prog);
      EngineCpu.ScheduleCarries(e, idle, []);
    } else {
      SameSide(e.proc.boot, LoadedOf(e.proc.cpu), e.portal, e.dram, e'.portal, e'.dram, l0, descs, prog);
    }
  }

  // ---- runs ----

  /** A new engine whose processor's memory the host has prepared. */
  function Prepared(m: FM.Mem): Processor {
    Cgo(SimSpec.NEW_CPU.(core := SimSpec.NEW_CPU.core.(mem := m)), B.NEW_BOOT)
  }

  function LoadedFrom(m: FM.Mem): B.Loaded {
    B.Loaded(m, map[], [], [None, None, None, None, None, None, None, None])
  }

  lemma NewBoots(m: FM.Mem, descs: seq<(u32, u32)>, prog: seq<CT.Inst>)
    requires R.Prepared(m, descs, prog)
    ensures Booting(NewEngine(Prepared(m)), LoadedFrom(m), descs, prog)
  {
    hide R.Prepared; hide R.Bag;
    var e := NewEngine(Prepared(m));
    var s := View(e.proc.boot, LoadedOf(e.proc.cpu), e.portal, e.dram, [], 0);
    PreparedParts(m, descs, prog);
    R.StartIsGood(s);
    R.FirstStage(s, descs);
    assert Sound(s, LoadedFrom(m), descs, prog);
  }

  lemma HostBoots(phys: AddrMap, s: RunState, ev: Event, l0: B.Loaded, descs: seq<(u32, u32)>, prog: seq<CT.Inst>)
    requires Booting(s.engine, l0, descs, prog) && Exclusive(s.engine) && Allowed(phys, s.engine, ev) && !ev.TickEv?
    ensures Booting(RunOne(phys, s, ev).engine, l0, descs, prog)
  {
    hide Boots; hide Legal; hide ProcInBank; hide Sides; hide NonePim;
    var e, e' := s.engine, RunOne(phys, s, ev).engine;
    SameSide(e.proc.boot, LoadedOf(e.proc.cpu), e.portal, e.dram, e'.portal, e'.dram, l0, descs, prog);
  }

  /** A CPU that has started stays started. */
  lemma StartedStays(phys: AddrMap, s: RunState, ev: Event)
    requires EngineRuns.Good(s) && Allowed(phys, s.engine, ev) && s.engine.proc.Cgo? && s.engine.proc.cpu.started
    ensures RunOne(phys, s, ev).engine.proc.Cgo? && RunOne(phys, s, ev).engine.proc.cpu.started
  {
    hide Sides; hide ProcInBank; hide NonePim; hide Unnumbered; hide EngineConservation.InEngine;
    hide Numbered; hide Schedule; hide Collect; hide DrainPort; hide ProcessCmds; hide AnswersAre; hide Outstanding;
    hide C.Run;
    if ev.TickEv? {
      var e := s.engine;
      OfferedKeeps(e, ev.env);
      CommandsDo(TickProc(e));
      RunStarted(e.proc.cpu, e.portal);
      CollectKeeps(phys, Offered(e, ev.env), ev.env.completions);
      ScheduleLeaves(Collect(phys, Offered(e, ev.env), ev.env.completions), ev.env.idle);
    }
  }

  lemma RunStarted(c: C.Cpu, port: Portal)
    ensures C.Tick(c, port).0.started == c.started
  {
    hide C.Decided; hide C.NextCore; hide C.EvalAll;
  }

  /** In every run of an engine, until its CPU has started: the invariants of the boot theorems hold. */
  lemma {:induction false} RunBoots(phys: AddrMap, r: Trace, m: FM.Mem, descs: seq<(u32, u32)>, prog: seq<CT.Inst>,
                                    n: nat)
    requires IsRun(phys, r, Prepared(m)) && R.Prepared(m, descs, prog) && n <= |r.evs|
    requires r.states[n].engine.proc.Cgo? ==> !r.states[n].engine.proc.cpu.started
    ensures Booting(r.states[n].engine, LoadedFrom(m), descs, prog)
  {
    hide Booting; hide R.Prepared; hide RunOne; hide Allowed; hide EngineRuns.Good; hide ProcInBank; hide NewEngine;
    hide Prepared;
    if n == 0 {
      NewBoots(m, descs, prog);
    } else {
      var s, ev := r.states[n - 1], r.evs[n - 1];
      assert Linked(phys, r, n - 1);
      EngineIsSound(phys, r, Prepared(m), n - 1);
      KindStays(phys, r, Prepared(m), n - 1);
      KindStays(phys, r, Prepared(m), n);
      IsCgo(m);
      if s.engine.proc.cpu.started {
        StartedStays(phys, s, ev);
        assert false;
      }
      RunBoots(phys, r, m, descs, prog, n - 1);
      OneBoots(phys, s, ev, LoadedFrom(m), descs, prog);
    }
  }

  /** A CPU that has not started never keeps the host waiting: it is ready to be paused. */
  lemma UnstartedIsReady(phys: AddrMap, r: Trace, m: FM.Mem, descs: seq<(u32, u32)>, prog: seq<CT.Inst>, n: nat)
    requires IsRun(phys, r, Prepared(m)) && R.Prepared(m, descs, prog) && n <= |r.evs|
    ensures r.states[n].engine.proc.Cgo?
    ensures var c := r.states[n].engine.proc.cpu;
            !c.started ==> c.pause.ready && !c.pause.requested && !c.finished
  {
    hide R.Prepared; hide RunOne; hide Allowed; hide ProcInBank; hide NewEngine; hide Prepared; hide Boots;
    KindStays(phys, r, Prepared(m), n);
    IsCgo(m);
    if !r.states[n].engine.proc.cpu.started {
      RunBoots(phys, r, m, descs, prog, n);
    }
  }

  lemma IsCgo(m: FM.Mem)
    ensures Prepared(m).Cgo?
  {
  }

  lemma OneBoots(phys: AddrMap, s: RunState, ev: Event, l0: B.Loaded, descs: seq<(u32, u32)>, prog: seq<CT.Inst>)
    requires EngineRuns.Good(s) && Allowed(phys, s.engine, ev) && Booting(s.engine, l0, descs, prog)
    requires R.Prepared(l0.mem, descs, prog)
    ensures |descs| == 16 && |prog| <= 8 * (descs[0].1 as int)
    ensures var e' := RunOne(phys, s, ev).engine;
            && e'.proc.Cgo?
            && (if e'.proc.cpu.started then ev.TickEv? && Handed(e', l0.mem, descs, prog)
                else Booting(e', l0, descs, prog))
  {
    hide Boots; hide R.Prepared; hide Exclusive; hide Unnumbered; hide EngineConservation.InEngine; hide Legal;
    hide Numbered; hide Tick; hide Handed; hide Unused; hide Allowed; hide RunOne;
    PreparedParts(l0.mem, descs, prog);
    if ev.TickEv? {
      OneShape(phys, s, ev);
      TickBoots(phys, s.engine, ev.env, l0, descs, prog);
    } else {
      HostBoots(phys, s, ev, l0, descs, prog);
    }
  }

  lemma OneShape(phys: AddrMap, s: RunState, ev: Event)
    requires Allowed(phys, s.engine, ev) && ev.TickEv?
    ensures s.engine.sched != Unconfigured && Compatible(s.engine.proc, s.engine.sched) && Legal(phys, s.engine, ev.env)
    ensures RunOne(phys, s, ev).engine == Tick(phys, s.engine, ev.env)
  {
    hide Legal; hide Tick;
  }

  // ---- progress ----

  /** The reads of the current phase that have not been issued; one while the last are inside the DRAM. */
  function Unanswered(p: Portal, inDram: seq<DramReq>): nat {
    |p.pimReq| + if p.pimReq == [] && inDram != [] then 1 else 0
  }

  /** The ticks an armed controller needs at most, if the DRAM serves it. */
  function Rank(st: B.BootState, waits: nat, chunks: nat): nat {
    match st
    case AguSubmit => 13 + chunks
    case AguStall => 4 + chunks + waits
    case ReadInsts => 3 + chunks
    case ImemSubmit => 2 + chunks
    case ImemStall => 1 + waits
    case _ => 0
  }

  function RankOf(s: R.BootRun, chunks: nat): nat {
    Rank(s.boot.st, Unanswered(s.port, s.inDram), chunks)
  }

  predicate Armed(st: B.BootState) {
    st != B.Idle && st != B.Finished && st != B.Aborted
  }

  /** A tick of the controller moves on to its next state, unless reads of the phase are unanswered. */
  lemma ControllerMoves(s: R.BootRun, l0: B.Loaded, descs: seq<(u32, u32)>, prog: seq<CT.Inst>)
    requires Sound(s, l0, descs, prog) && Armed(s.boot.st)
    ensures descs != [] && Armed(R.RunOne(s, R.TickEv).boot.st) != (R.RunOne(s, R.TickEv).boot.st == B.Finished)
    ensures var s' := R.RunOne(s, R.TickEv);
            || RankOf(s', descs[0].1) < RankOf(s, descs[0].1)
            || (R.Waiting(s.boot) && s'.boot.st == s.boot.st && s'.port.pimReq == s.port.pimReq
                && s'.inDram == s.inDram && Unanswered(s.port, s.inDram) > 0)
  {
    hide R.Prepared; hide B.TakeAll; hide B.LoadAguTable; hide B.LoadProgram; hide B.ChunkReqs; hide R.TableBounded;
    hide R.PhaseOk; hide B.PhaseDone; hide B.SubmitChunks;
    PreparedParts(l0.mem, descs, prog);
    OneKeeps(s, R.TickEv, l0, descs, prog);
    match s.boot.st
    case AguSubmit => Submitted(s, 0, 8, B.AguStall);
    case ImemSubmit => Submitted(s, s.boot.base, s.boot.chunks, B.ImemStall);
    case AguStall => StallMoves(s);
    case ImemStall => StallMoves(s);
    case _ =>
  }

  lemma Submitted(s: R.BootRun, first: u32, count: u32, next: B.BootState)
    requires R.Quiet(s) && first + count <= B.PSEUDO_BANK_ENTRIES
    ensures var (b, p) := B.SubmitChunks(s.boot, s.port, first, count, next);
            b.st == next && |p.pimReq| == count
  {
  }

  lemma StallMoves(s: R.BootRun)
    requires R.Good(s) && R.Waiting(s.boot)
    ensures var (pending, port) := B.TakeAll(s.boot.pending, 0, s.port);
            && port.pimReq == s.port.pimReq
            && (Unanswered(s.port, s.inDram) == 0 ==> B.PhaseDone(pending, port))
            && (B.PhaseDone(pending, port) ==> Unanswered(s.port, s.inDram) == 0)
  {
    hide R.Bag; hide R.Lines; hide B.ChunkReqs; hide R.TableBounded; hide B.TakeAll; hide B.Reversed; hide R.NoMatch;
    hide R.PimReads; hide R.InBank; hide R.PhaseReqs;
    R.PhaseEnds(s);
    R.NothingBefore(s.boot.pending, s.port.pimResp);
    R.TakeAllBalances(s.boot.pending, 0, s.port);
    if s.port.pimReq == [] && s.inDram == [] {
      R.PhaseFinishes(s);
    }
  }

  function EngineRank(e: Engine, chunks: nat): nat
    requires e.proc.Cgo?
  {
    Rank(e.proc.boot.st, Unanswered(e.portal, EngineCpu.PimInside(e.dram)), chunks)
  }

  /** The DRAM serves the processor in this tick: it accepts a request if there is one, and completes all it
      holds. */
  ghost predicate Serves(phys: AddrMap, e: Engine, env: Env)
    requires Compatible(e.proc, e.sched)
  {
    && (e.sched == CgoOnly || e.sched == HostCgoShare) && e.mode == ServePim && env.quota > 0
    && multiset(env.completions) == Outstanding(phys, Offered(e, env).dram.pending)
  }

  predicate ControllerTicks(e: Engine) {
    (e.sched == CgoOnly || e.sched == HostCgoShare) && e.mode == ServePim
  }

  /** What the controller's part of the tick does to the rank. */
  lemma ProcRank(e: Engine, l0: B.Loaded, descs: seq<(u32, u32)>, prog: seq<CT.Inst>)
    requires Booting(e, l0, descs, prog) && Compatible(e.proc, e.sched) && Armed(e.proc.boot.st)
    ensures descs != []
    ensures var e1 := TickProc(e);
            && e1.proc.Cgo? && e1.dram == e.dram && Armed(e1.proc.boot.st) != e1.proc.cpu.started
            && EngineRank(e1, descs[0].1) <= EngineRank(e, descs[0].1)
            && (ControllerTicks(e) && EngineRank(e1, descs[0].1) == EngineRank(e, descs[0].1) ==>
                  (e1.proc.boot.st == B.AguStall || e1.proc.boot.st == B.ImemStall)
                  && Unanswered(e1.portal, EngineCpu.PimInside(e1.dram)) > 0)
  {
    hide Sound; hide B.BootTick; hide C.Tick; hide Rank; hide EngineCpu.PimInside; hide Unused;
    var issued, answered :|
      Sound(View(e.proc.boot, LoadedOf(e.proc.cpu), e.portal, e.dram, issued, answered), l0, descs, prog);
    var s := View(e.proc.boot, LoadedOf(e.proc.cpu), e.portal, e.dram, issued, answered);
    ControllerMoves(s, l0, descs, prog);
  }

  /** Issuing and answering only bring the end of a phase closer. */
  lemma DrainRank(p: Portal, d: Dram, clock: nat, quota: nat)
    requires Sides(p, d)
    ensures var (p', d') := DrainPort(p, d, clock, quota);
            && |p'.pimReq| <= |p.pimReq| && d'.pimMode == d.pimMode
            && (d.pimMode && quota > 0 && p.pimReq != [] ==> |p'.pimReq| < |p.pimReq|)
            && (p.pimReq == [] || !d.pimMode ==> EngineCpu.PimInside(d') == EngineCpu.PimInside(d))
            && (!d.pimMode ==> p'.pimReq == p.pimReq)
  {
    hide DrainPort; hide NonePim; hide AllPim;
    DrainKeepsSides(p, d, clock, quota);
    if d.pimMode {
      EngineHandshake.DrainShrinks(p, d, clock, quota);
      if p.pimReq == [] {
        EngineWaiting.DrainNothing(p, d, clock, quota);
      }
    } else {
      EngineCpu.DrainHostSide(p, d, clock, quota);
    }
  }

  lemma CollectRank(phys: AddrMap, e: Engine, cs: seq<Completion>)
    requires multiset(cs) <= Outstanding(phys, e.dram.pending) && Sides(e.portal, e.dram) && ProcInBank(e.proc)
    ensures var e' := Collect(phys, e, cs);
            && (e.dram.pending == [] ==> e'.dram.pending == [])
            && (multiset(cs) == Outstanding(phys, e.dram.pending) ==> e'.dram.pending == [])
  {
    hide Outstanding; hide CompleteAll; hide ProcInBank; hide NonePim; hide AllPim;
    EngineHandshake.CollectPending(phys, e, cs);
    PanicsExactly(phys, e.dram.pending, cs);
    var (done, left) := Complete(phys, e.dram.pending, cs).value;
    assert |e.dram.pending| == |multiset(done) + multiset(left)|;
  }

  lemma RankFalls(p: Portal, i: seq<DramReq>, p': Portal, i': seq<DramReq>, pim: bool, serves: bool)
    requires |p'.pimReq| <= |p.pimReq| && (p.pimReq == [] && i == [] ==> i' == [])
    requires serves && p.pimReq != [] ==> |p'.pimReq| < |p.pimReq|
    requires serves ==> i' == []
    requires !pim ==> p'.pimReq == p.pimReq && i' == []
    ensures Unanswered(p', i') <= Unanswered(p, i)
    ensures serves && Unanswered(p, i) > 0 ==> Unanswered(p', i') < Unanswered(p, i)
  {
  }

  /** Every tick of an engine whose controller is armed brings the start closer if the DRAM serves it, and never
      moves it away. */
  lemma RankTick(phys: AddrMap, e: Engine, env: Env, l0: B.Loaded, descs: seq<(u32, u32)>, prog: seq<CT.Inst>)
    requires Booting(e, l0, descs, prog) && Exclusive(e) && e.sched != Unconfigured && Legal(phys, e, env)
    requires Armed(e.proc.boot.st)
    ensures descs != []
    ensures var e' := Tick(phys, e, env);
            && e'.proc.Cgo?
            && (!e'.proc.cpu.started ==>
                  && Armed(e'.proc.boot.st)
                  && EngineRank(e', descs[0].1) + (if Serves(phys, e, env) then 1 else 0) <= EngineRank(e, descs[0].1))
  {
    hide Boots; hide Unused; hide Outstanding; hide ProcInBank; hide NonePim; hide AllPim; hide TickProc;
    hide ProcessCmds; hide Collect; hide Schedule; hide DrainPort; hide AnswersAre; hide Rank; hide Unanswered;
    ProcRank(e, l0, descs, prog);
    ProcTick(e);
    var e0 := TickProc(e);
    PortKeepsSides(e.portal, e0.portal, e.dram);
    CommandsDo(e0);
    CmdsTouch(e0);
    OfferedKeeps(e, env);
    DrainRank(e0.portal, e0.dram, e.clock, env.quota);
    var e1 := Offered(e, env);
    CollectKeeps(phys, e1, env.completions);
    CollectRank(phys, e1, env.completions);
    var e2 := Collect(phys, e1, env.completions);
    ScheduleLeaves(e2, env.idle);
    ScheduleKeeps(e2, env.idle);
    var e3 := Schedule(e2, env.idle);
    RankFalls(e0.portal, EngineCpu.PimInside(e0.dram), e3.portal, EngineCpu.PimInside(e3.dram), e0.dram.pimMode,
              Serves(phys, e, env));
    WaitsLess(e0.proc.boot.st, Unanswered(e0.portal, EngineCpu.PimInside(e0.dram)),
              Unanswered(e3.portal, EngineCpu.PimInside(e3.dram)), descs[0].1);
  }

  lemma WaitsLess(st: B.BootState, waits: nat, waits': nat, chunks: nat)
    requires waits' <= waits
    ensures Rank(st, waits', chunks) <= Rank(st, waits, chunks)
    ensures (st == B.AguStall || st == B.ImemStall) && waits' < waits ==>
              Rank(st, waits', chunks) < Rank(st, waits, chunks)
  {
  }

  // ---- whole starts ----

  /** The event is a tick in which the DRAM serves the processor. */
  ghost predicate ServesNow(phys: AddrMap, e: Engine, ev: Event) {
    ev.TickEv? && Compatible(e.proc, e.sched) && Serves(phys, e, ev.env)
  }

  ghost function ServingTicks(phys: AddrMap, r: Trace, n: nat, m: nat): nat
    requires |r.states| == |r.evs| + 1 && n <= m <= |r.evs|
  {
    if n == m then 0
    else ServingTicks(phys, r, n, m - 1) + if ServesNow(phys, r.states[m - 1].engine, r.evs[m - 1]) then 1 else 0
  }

  lemma HostRank(phys: AddrMap, s: RunState, ev: Event, chunks: nat)
    requires Exclusive(s.engine) && Allowed(phys, s.engine, ev) && !ev.TickEv? && s.engine.proc.Cgo?
    ensures var e' := RunOne(phys, s, ev).engine;
            e'.proc.Cgo? && e'.proc.boot == s.engine.proc.boot && EngineRank(e', chunks) == EngineRank(s.engine, chunks)
  {
    hide Legal; hide ProcInBank; hide Rank; hide Unanswered; hide NonePim; hide AllPim;
    var e, e' := s.engine, RunOne(phys, s, ev).engine;
    assert Unanswered(e'.portal, EngineCpu.PimInside(e'.dram)) == Unanswered(e.portal, EngineCpu.PimInside(e.dram)) by {
      SameWait(e.portal, EngineCpu.PimInside(e.dram), e'.portal, EngineCpu.PimInside(e'.dram));
    }
  }

  lemma SameWait(p: Portal, i: seq<DramReq>, p': Portal, i': seq<DramReq>)
    requires p'.pimReq == p.pimReq && i' == i
    ensures Unanswered(p', i') == Unanswered(p, i)
  {
  }

  lemma OneRank(phys: AddrMap, s: RunState, ev: Event, l0: B.Loaded, descs: seq<(u32, u32)>, prog: seq<CT.Inst>)
    requires EngineRuns.Good(s) && Allowed(phys, s.engine, ev) && Booting(s.engine, l0, descs, prog)
    requires Armed(s.engine.proc.boot.st)
    ensures descs != []
    ensures var e, e' := s.engine, RunOne(phys, s, ev).engine;
            && e'.proc.Cgo?
            && (!e'.proc.cpu.started ==>
                  && Armed(e'.proc.boot.st)
                  && EngineRank(e', descs[0].1) + (if ServesNow(phys, e, ev) then 1 else 0)
                     <= EngineRank(e, descs[0].1))
  {
    hide Boots; hide Exclusive; hide Unnumbered; hide EngineConservation.InEngine; hide Legal; hide Numbered;
    hide Tick; hide Unused; hide Allowed; hide RunOne; hide Serves; hide Armed; hide EngineRank;
    HasTable(s.engine, l0, descs, prog);
    if ev.TickEv? {
      OneShape(phys, s, ev);
      RankTick(phys, s.engine, ev.env, l0, descs, prog);
    } else {
      HostRank(phys, s, ev, descs[0].1);
    }
  }

  lemma HasTable(e: Engine, l0: B.Loaded, descs: seq<(u32, u32)>, prog: seq<CT.Inst>)
    requires Booting(e, l0, descs, prog)
    ensures descs != []
  {
    hide R.Good; hide R.StageOk; hide I.IsImage; hide I.AllEncodable; hide R.TableBytes; hide Unused;
  }

  lemma {:induction false} RunRank(phys: AddrMap, r: Trace, m0: FM.Mem, descs: seq<(u32, u32)>, prog: seq<CT.Inst>,
                                   n: nat, m: nat)
    requires IsRun(phys, r, Prepared(m0)) && R.Prepared(m0, descs, prog) && n <= m <= |r.evs|
    requires r.states[n].engine.proc.Cgo? && Armed(r.states[n].engine.proc.boot.st)
    requires r.states[m].engine.proc.Cgo? && !r.states[m].engine.proc.cpu.started
    ensures descs != [] && Armed(r.states[m].engine.proc.boot.st)
    ensures EngineRank(r.states[m].engine, descs[0].1) + ServingTicks(phys, r, n, m)
            <= EngineRank(r.states[n].engine, descs[0].1)
  {
    hide Booting; hide R.Prepared; hide RunOne; hide Allowed; hide EngineRuns.Good; hide ProcInBank; hide NewEngine;
    hide Prepared; hide Armed; hide EngineRank; hide ServesNow;
    RunBoots(phys, r, m0, descs, prog, m);
    HasTable(r.states[m].engine, LoadedFrom(m0), descs, prog);
    if n < m {
      var s, ev := r.states[m - 1], r.evs[m - 1];
      assert Linked(phys, r, m - 1);
      EngineIsSound(phys, r, Prepared(m0), m - 1);
      KindStays(phys, r, Prepared(m0), m - 1);
      IsCgo(m0);
      if s.engine.proc.cpu.started {
        StartedStays(phys, s, ev);
        assert false;
      }
      RunRank(phys, r, m0, descs, prog, n, m - 1);
      RunBoots(phys, r, m0, descs, prog, m - 1);
      OneRank(phys, s, ev, LoadedFrom(m0), descs, prog);
    }
  }

  /** Starting a CPU. In any run of an engine whose memory the host has prepared, and whatever else the host sends:
      the first tick that finds a start command arms the boot controller unless the engine is reserved for the
      host; and once the DRAM has then served the processor in 13 ticks and one for every chunk of the program,
      the CPU has started, and did so at its reset state, with the host's program, buffers and data, meeting
      the invariants of the CPU theorems and with nothing of the controller left in flight. */
  lemma StartStarts(phys: AddrMap, r: Trace, m0: FM.Mem, descs: seq<(u32, u32)>, prog: seq<CT.Inst>, n: nat, m: nat)
    returns (k: nat)
    requires IsRun(phys, r, Prepared(m0)) && R.Prepared(m0, descs, prog) && n < m <= |r.evs| && r.evs[n].TickEv?
    requires var e := r.states[n].engine;
             && e.proc.Cgo? && !e.proc.cpu.started && e.proc.boot.st == B.Idle
             && HasStart(e.cmdQueue) && e.sched != HostOnly
    requires |descs| == 16 && |prog| <= 8 * (descs[0].1 as int)
    requires ServingTicks(phys, r, n + 1, m) >= 13 + descs[0].1
    ensures n < k < m && r.states[k].engine.proc.Cgo? && !r.states[k].engine.proc.cpu.started
    ensures Handed(r.states[k + 1].engine, m0, descs, prog)
  {
    hide Booting; hide R.Prepared; hide RunOne; hide Allowed; hide EngineRuns.Good; hide ProcInBank; hide NewEngine;
    hide Prepared; hide EngineRank; hide ServesNow; hide Handed; hide ServingTicks;
    IsCgo(m0);
    assert Linked(phys, r, n);
    EngineIsSound(phys, r, Prepared(m0), n);
    ArmedAfter(phys, r.states[n], r.evs[n]);
    KindStays(phys, r, Prepared(m0), m);
    if !r.states[m].engine.proc.cpu.started {
      RunRank(phys, r, m0, descs, prog, n + 1, m);
      ArmedRank(r.states[n + 1].engine, r.states[m].engine, descs[0].1);
      assert false;
    }
    k := FirstStarted(phys, r, m0, n + 1, m);
    KindStays(phys, r, Prepared(m0), k);
    assert Linked(phys, r, k);
    EngineIsSound(phys, r, Prepared(m0), k);
    RunBoots(phys, r, m0, descs, prog, k);
    OneBoots(phys, r.states[k], r.evs[k], LoadedFrom(m0), descs, prog);
  }

  lemma ArmedAfter(phys: AddrMap, s: RunState, ev: Event)
    requires EngineRuns.Good(s) && Allowed(phys, s.engine, ev) && ev.TickEv? && s.engine.proc.Cgo?
    requires !s.engine.proc.cpu.started && s.engine.proc.boot.st == B.Idle
    ensures var e' := RunOne(phys, s, ev).engine;
            && e'.proc.Cgo? && !e'.proc.cpu.started
            && e'.proc.boot.st ==
                 if s.engine.sched != HostOnly && HasStart(s.engine.cmdQueue) then B.AguSubmit else B.Idle
  {
    hide Exclusive; hide Unnumbered; hide EngineConservation.InEngine; hide Legal; hide Numbered; hide Tick;
    hide HasStart;
    TickArms(phys, s.engine, ev.env);
  }

  lemma ArmedRank(e: Engine, e': Engine, chunks: nat)
    requires e.proc.Cgo? && e'.proc.Cgo? && e.proc.boot.st == B.AguSubmit && Armed(e'.proc.boot.st)
    ensures EngineRank(e, chunks) == 13 + chunks && EngineRank(e', chunks) >= 1
  {
  }

  lemma {:induction false} FirstStarted(phys: AddrMap, r: Trace, m0: FM.Mem, n: nat, m: nat) returns (k: nat)
    requires IsRun(phys, r, Prepared(m0)) && n < m <= |r.evs|
    requires r.states[n].engine.proc.Cgo? && !r.states[n].engine.proc.cpu.started
    requires r.states[m].engine.proc.Cgo? && r.states[m].engine.proc.cpu.started
    ensures n <= k < m
    ensures r.states[k].engine.proc.Cgo? && !r.states[k].engine.proc.cpu.started
    ensures r.states[k + 1].engine.proc.Cgo? && r.states[k + 1].engine.proc.cpu.started
  {
    hide RunOne; hide Allowed; hide ProcInBank; hide NewEngine; hide Prepared;
    KindStays(phys, r, Prepared(m0), m - 1);
    IsCgo(m0);
    if r.states[m - 1].engine.proc.cpu.started {
      k := FirstStarted(phys, r, m0, n, m - 1);
    } else {
      k := m - 1;
    }
  }

  /** Nothing but a start command starts a CPU, and in an engine reserved for the host none does. */
  lemma {:induction false} OnlyStartsStart(phys: AddrMap, r: Trace, proc: Processor, n: nat)
    requires IsRun(phys, r, proc) && n <= |r.evs|
    requires proc.Cgo? && !proc.cpu.started && proc.boot.st == B.Idle
    requires forall i: nat :: i < n && r.evs[i].TickEv? ==>
               !HasStart(r.states[i].engine.cmdQueue) || r.states[i].engine.sched == HostOnly
    ensures var e := r.states[n].engine;
            e.proc.Cgo? && !e.proc.cpu.started && e.proc.boot.st == B.Idle
  {
    hide RunOne; hide Allowed; hide ProcInBank; hide HasStart; hide EngineRuns.Good;
    if n > 0 {
      OnlyStartsStart(phys, r, proc, n - 1);
      assert Linked(phys, r, n - 1);
      EngineIsSound(phys, r, proc, n - 1);
      if r.evs[n - 1].TickEv? {
        ArmedAfter(phys, r.states[n - 1], r.evs[n - 1]);
      } else {
        HostKeepsProc(phys, r.states[n - 1], r.evs[n - 1]);
      }
    }
  }

  lemma HostKeepsProc(phys: AddrMap, s: RunState, ev: Event)
    requires Allowed(phys, s.engine, ev) && !ev.TickEv? && s.engine.proc.Cgo?
    ensures var e' := RunOne(phys, s, ev).engine;
            e'.proc.Cgo? && e'.proc.boot == s.engine.proc.boot && e'.proc.cpu.started == s.engine.proc.cpu.started
  {
    hide Legal;
  }
}
