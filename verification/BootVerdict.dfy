/** When a boot is refused: the exact conditions on the descriptor table and the program, and what the processor is
    left with. */
module BootVerdict {
  import opened Words
  import opened FlatMemory
  import opened AguUnits
  import opened CpuTypes
  import opened CpuStages
  import opened BootFsm
  import opened BootRuns
  import I = BootImage

  /** The host has stored a descriptor table, whatever its contents. */
  ghost predicate HasTable(m: Mem, descs: seq<(u32, u32)>) {
    && |descs| == 16
    && forall a: u32 :: a < 8 ==> a in m && m[a] == Untyped(TableBytes(descs, a))
  }

  /** Every buffer ends inside the pseudo bank of 64 MiB, 0x40_0000 entries. */
  predicate Fits(descs: seq<(u32, u32)>) {
    forall id :: 0 <= id < |descs| ==> (descs[id].0 as int) + descs[id].1 <= 0x40_0000
  }

  /** What loading the table gives. */
  ghost predicate TableLoaded(l: Loaded, l1: Loaded, descs: seq<(u32, u32)>) {
    && TableIs(l1.agu, descs, 16) && l1.imem == l.imem
    && forall r: Reg :: l1.f[r] == Some(FatPtr(r, 0))
  }

  /** The table is accepted if and only if all sixteen buffers fit; otherwise nothing is installed. */
  lemma TableVerdict(l: Loaded, descs: seq<(u32, u32)>)
    requires HasTable(l.mem, descs)
    ensures var (ok, l1) := LoadAguTable(l);
            && ok == Fits(descs)
            && (if ok then TableLoaded(l, l1, descs) else l1.agu == l.agu && l1.f == l.f && l1.imem == l.imem)
  {
    hide TableBytes; hide ReadChunks; hide InstallTable; hide TableIs; hide Descriptor;
    TableRead(l.mem, descs, 8, 0);
    var words := ReadChunks(l.mem, 0, 8).0.value;
    DescriptorsRead(words, descs);
    Installed(l.agu, words, descs, 16);
    AllDescriptors(words, descs);
  }

  lemma AllDescriptors(words: seq<Vec4>, descs: seq<(u32, u32)>)
    requires |words| == 8 && |descs| == 16
    requires forall id :: 0 <= id < 16 ==> Descriptor(words, id) == descs[id]
    ensures TableOk(words) <==> Fits(descs)
  {
    hide Descriptor;
    if TableOk(words) {
      forall id | 0 <= id < 16 ensures (descs[id].0 as int) + descs[id].1 <= 0x40_0000 {
        assert DescriptorOk(Descriptor(words, id));
      }
    }
  }

  /** The program of buffer 0 has at most 512 chunks. */
  predicate Short(descs: seq<(u32, u32)>) {
    descs != [] && descs[0].1 <= 512
  }

  /** Where a boot can be, given what the host stored. */
  ghost predicate VerdictOk(s: BootRun, l0: Loaded, descs: seq<(u32, u32)>)
    requires |descs| == 16
  {
    var l1 := LoadAguTable(l0).1;
    match s.boot.st
    case Idle => s.loaded == l0
    case AguSubmit => s.loaded == l0
    case AguStall => s.loaded == l0
    case ReadInsts => Fits(descs) && s.loaded == l1
    case ImemSubmit => Fits(descs) && Short(descs) && s.loaded == l1 && (s.boot.base, s.boot.chunks) == descs[0]
    case ImemStall => Fits(descs) && Short(descs) && s.loaded == l1 && (s.boot.base, s.boot.chunks) == descs[0]
    case Finished =>
      Fits(descs) && Short(descs) && LoadProgram(l1, descs[0].0, descs[0].1) == (true, s.loaded)
    case Aborted =>
      if Fits(descs) && Short(descs) then LoadProgram(l1, descs[0].0, descs[0].1) == (false, s.loaded)
      else s.loaded == l1
  }

  lemma OneVerdict(s: BootRun, ev: Event, l0: Loaded, descs: seq<(u32, u32)>)
    requires HasTable(l0.mem, descs) && Good(s) && VerdictOk(s, l0, descs)
    ensures VerdictOk(RunOne(s, ev), l0, descs)
  {
    hide LoadAguTable; hide LoadProgram; hide TakeAll; hide ChunkReqs; hide TableBytes; hide Fits; hide PhaseOk;
    hide TableBounded; hide BootRuns.Quiet;
    TableVerdict(l0, descs);
    var l1 := LoadAguTable(l0).1;
    if Fits(descs) {
      FirstEntry(l1, descs);
      FirstFits(descs);
    }
  }

  lemma FirstEntry(l1: Loaded, descs: seq<(u32, u32)>)
    requires |descs| == 16 && TableIs(l1.agu, descs, 16)
    ensures GetEntry(l1.agu, 0) == Some(descs[0])
  {
  }

  lemma FirstFits(descs: seq<(u32, u32)>)
    requires |descs| == 16 && Fits(descs)
    ensures (descs[0].0 as int) + descs[0].1 < 0x1_0000_0000
  {
  }

  lemma {:induction false} VerdictAlways(r: Trace, n: nat, descs: seq<(u32, u32)>)
    requires IsRun(r) && n <= |r.evs| && HasTable(r.states[0].loaded.mem, descs)
    ensures VerdictOk(r.states[n], r.states[0].loaded, descs)
  {
    hide RunOne; hide VerdictOk; hide Good; hide HasTable;
    if n == 0 {
      StartVerdict(r.states[0], descs);
    } else {
      VerdictAlways(r, n - 1, descs);
      BootIsGood(r, n - 1);
      assert Linked(r, n - 1);
      OneVerdict(r.states[n - 1], r.evs[n - 1], r.states[0].loaded, descs);
    }
  }

  lemma StartVerdict(s: BootRun, descs: seq<(u32, u32)>)
    requires s.boot == NEW_BOOT && HasTable(s.loaded.mem, descs)
    ensures |descs| == 16 && VerdictOk(s, s.loaded, descs)
  {
  }

  /** The boot has not gone past the table, or not to the program. */
  predicate AtTable(st: BootState) {
    st == Idle || st == AguSubmit || st == AguStall || st == Aborted
  }

  predicate BeforeProgram(st: BootState) {
    AtTable(st) || st == ReadInsts
  }

  ghost predicate Judged(s: BootRun, l0: Loaded, descs: seq<(u32, u32)>)
    requires |descs| == 16
  {
    && (!Fits(descs) ==>
          AtTable(s.boot.st) && s.loaded.agu == l0.agu && s.loaded.f == l0.f && s.loaded.imem == l0.imem)
    && (Fits(descs) && !Short(descs) ==> BeforeProgram(s.boot.st) && s.loaded.imem == l0.imem)
    && (s.boot.st == Aborted && Fits(descs) && Short(descs) ==>
          !LoadProgram(LoadAguTable(l0).1, descs[0].0, descs[0].1).0)
    && (s.boot.st == Finished ==>
          && Fits(descs) && Short(descs) && TableIs(s.loaded.agu, descs, 16)
          && forall r: Reg :: s.loaded.f[r] == Some(FatPtr(r, 0)))
  }

  lemma VerdictMeans(s: BootRun, l0: Loaded, descs: seq<(u32, u32)>)
    requires HasTable(l0.mem, descs) && VerdictOk(s, l0, descs)
    ensures Judged(s, l0, descs)
  {
    hide LoadAguTable; hide LoadProgram; hide Fits; hide Short; hide TableIs; hide TableBytes;
    TableVerdict(l0, descs);
    ProgramKeepsTable(LoadAguTable(l0).1, descs[0].0, descs[0].1);
  }

  /** The verdict on a boot, for every table the host may have stored and every run. It goes past the table only if all
      sixteen buffers fit into the pseudo bank, and to the program only if that has at most 512 chunks. If a buffer
      does not fit, table, pointers and program stay as they were. A boot with a good table and a short program
      fails only on the program, and one that finishes holds the host's table and a pointer to the start of each
      of the first eight buffers. */
  lemma Verdict(r: Trace, n: nat, descs: seq<(u32, u32)>)
    requires IsRun(r) && n <= |r.evs| && HasTable(r.states[0].loaded.mem, descs)
    ensures Judged(r.states[n], r.states[0].loaded, descs)
  {
    hide HasTable; hide Judged; hide VerdictOk; hide RunOne;
    VerdictAlways(r, n, descs);
    VerdictMeans(r.states[n], r.states[0].loaded, descs);
  }

  // ---- what a booted table means ----

  /** With the host's table installed a pointer reaches exactly the entries of its buffer, without wrap-around, and
      moving it stays inside: an addition is refused at the end of the buffer, a subtraction below entry 1. */
  lemma BuffersReached(t: AguTable, descs: seq<(u32, u32)>, id: u8, offset: u32, x: Vec4, lane: u8)
    requires |descs| == 16 && Fits(descs) && TableIs(t, descs, 16) && id < 16 && offset < 0x1000_0000 && lane < 4
    ensures Translate(t, FatPtr(id, offset)) ==
            if offset < descs[id].1 then Some((descs[id].0 as int) + offset) else None
    ensures var d := [x.x0, x.x1, x.x2, x.x3][lane];
            offset + d < 0x1_0000_0000 ==>
              Addition(t, FatPtr(id, offset), x, lane) ==
                if offset + d < descs[id].1 then Some(FatPtr(id, offset + d)) else None
    ensures var d := [x.x0, x.x1, x.x2, x.x3][lane];
            Subtraction(t, FatPtr(id, offset), x, lane) ==
              if offset > d && offset - d < descs[id].1 then Some(FatPtr(id, offset - d)) else None
  {
    assert (descs[id].0 as int) + descs[id].1 <= 0x40_0000;
  }

  /** The program as it is fetched: the host's instructions, and NOPs behind them. */
  lemma ProgramFetched(prog: seq<Inst>, chunks: nat, pc: u16)
    requires |prog| <= 8 * chunks
    ensures Fetch(I.Padded(prog, 8 * chunks), pc) == if pc < |prog| then prog[pc] else NOP
  {
  }
}
