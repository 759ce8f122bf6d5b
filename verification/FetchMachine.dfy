/** The sequential machine as the pipeline fetches for it. It differs from the instruction set in one
    point: two fetches after an exit test that is not taken, the program counter stays where it is. */
module FetchMachine {
  import opened Words
  import opened CpuStages
  import opened Isa

  /** `afterTest`: the instruction fetched last is an exit test; `held`: the one before it is, so the
      next fetch does not advance the program counter. */
  datatype Spec = Spec(arch: Arch, afterTest: bool, held: bool)

  /** A machine that has stopped fetches nothing: it has no program counter. */
  function SpecOf(pc: u16, d: Data, afterTest: bool, held: bool): Spec {
    if d.status == Running then Spec(Arch(pc, d), afterTest, held) else Spec(Arch(0, d), false, false)
  }

  function FetchStep(prog: Program, s: Spec): Spec {
    if s.arch.d.status != Running then s
    else
      var i := Fetch(prog.imem, s.arch.pc);
      SpecOf(JumpTarget(i, if s.held then s.arch.pc else (s.arch.pc + 1) % 0x1_0000),
             Exec(prog.agu, i, s.arch.d), i.EqualExit?, s.afterTest)
  }

  function FetchSteps(prog: Program, s: Spec, n: nat): Spec {
    if n == 0 then s else FetchStep(prog, FetchSteps(prog, s, n - 1))
  }

  /** A jump right behind an exit test that was not taken: both would write the program counter. */
  predicate Clashes(prog: Program, s: Spec) {
    s.arch.d.status == Running && s.afterTest && Fetch(prog.imem, s.arch.pc).JUMP?
  }

  /** The next instruction does not fault. It may be an exit test, taken or not. */
  predicate Allowed(prog: Program, s: Spec) {
    FetchStep(prog, s).arch.d.status != Faulted
  }

  /** It neither faults nor clashes nor ends the program. */
  predicate Covered(prog: Program, s: Spec) {
    FetchStep(prog, s).arch.d.status == Running && !Clashes(prog, s)
  }
}
