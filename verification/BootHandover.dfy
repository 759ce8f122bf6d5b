/** From boot to execution: what the boot controller leaves is where the CPU theorems start. */
module BootHandover {
  import opened Words
  import opened CpuTypes
  import opened CpuStages
  import opened CpuPipeline
  import opened BootFsm
  import I = BootImage
  import R = BootRuns
  import CpuRefinement
  import CpuRuns
  import CpuBounds
  import CpuFinish
  import CpuPause
  import FetchMachine
  import Isa
  import E = EngineSpec
  import SimSpec

  /** The CPU of a new engine after its boot controller has finished. */
  function Handed(l: Loaded): Cpu {
    E.WithLoaded(SimSpec.NEW_CPU, l).(started := true)
  }

  /** A finished boot hands over a CPU that refines the sequential machine from its reset state, running
      the host's program padded with NOPs, whose accesses all stay in the pseudo bank; and none of the
      controller's own requests or responses is left behind. */
  lemma BootHandsOver(r: R.Trace, n: nat, descs: seq<(u32, u32)>, prog: seq<Inst>)
    requires R.IsRun(r) && n <= |r.evs| && R.Prepared(r.states[0].loaded.mem, descs, prog)
    requires r.states[n].boot.st == Finished
    ensures var l := r.states[n].loaded;
            var c := Handed(l);
            && CpuRefinement.Inv(c, []) && CpuRefinement.KeptApart(c, []) && CpuFinish.Prompt(c) && CpuPause.PauseOk(c)
            && CpuBounds.InBank(c) && R.Quiet(r.states[n])
            && c.prog.imem == I.Padded(prog, 8 * (descs[0].1 as int))
            && CpuRefinement.Abs(c, []) == FetchMachine.Spec(Isa.Arch(0, Isa.Data(
                 [ZERO4, ZERO4, ZERO4, ZERO4, ZERO4, ZERO4, ZERO4, ZERO4], INITIAL_PTRS, l.mem, [], Isa.Running)),
                       false, false)
  {
    R.BootRoundTrip(r, n, descs, prog);
    var l := r.states[n].loaded;
    HandedIsBooted(l);
    InitialPointers();
    CpuRuns.BootedIsGood(Program(l.imem, l.agu), l.f, l.mem);
    HandedInBank(l);
    HandedStarts(l);
    hide CpuFinish.Prompt; hide CpuPause.PauseOk; hide CpuRefinement.KeptApart;
    hide CpuRefinement.Inv; hide CpuRefinement.Abs; hide CpuBounds.InBank; hide R.Quiet; hide CpuRuns.Booted;
    hide R.TableIs;
    hide I.Padded;
  }

  lemma HandedIsBooted(l: Loaded)
    ensures Handed(l) == CpuRuns.Booted(Program(l.imem, l.agu), l.f, l.mem)
  {
  }

  lemma InitialPointers()
    ensures forall r: Reg :: INITIAL_PTRS[r].Some?
  {
  }

  lemma HandedStarts(l: Loaded)
    ensures CpuFinish.Prompt(Handed(l)) && CpuPause.PauseOk(Handed(l))
  {
  }

  lemma HandedInBank(l: Loaded)
    requires R.TableBounded(l.agu)
    ensures CpuBounds.InBank(Handed(l))
  {
  }
}
