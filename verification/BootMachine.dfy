/** The boot controller as an object that works on the CPU it starts. */
module BootMachine {
  import opened Words
  import opened DramPortals
  import opened FlatMemory
  import opened AguUnits
  import opened CpuTypes
  import opened BootFsm
  import opened CpuMachine

  // ---- the functions the loops are proved against ----

  lemma {:induction false} ReadChunksFails(m: Mem, first: u32, k: nat, n: nat)
    requires k <= n && first + n <= 0x1_0000_0000 && ReadChunks(m, first, k).0 == None
    ensures ReadChunks(m, first, n) == ReadChunks(m, first, k)
  {
    if k < n {
      ReadChunksFails(m, first, k, n - 1);
    }
  }

  lemma {:induction false} DecodeAllFails(halves: seq<u16>, more: seq<u16>)
    requires DecodeAll(halves) == None
    ensures DecodeAll(halves + more) == None
  {
    if more == [] {
      assert halves + more == halves;
    } else {
      DecodeAllFails(halves, more[..|more| - 1]);
      assert (halves + more)[..|halves + more| - 1] == halves + more[..|more| - 1];
    }
  }

  lemma DecodeOneMore(halves: seq<u16>, h: u16)
    ensures DecodeAll(halves + [h]) ==
            if DecodeAll(halves) == None || DecodeInst(h) == None then None
            else Some(DecodeAll(halves).value + [DecodeInst(h).value])
  {
    assert (halves + [h])[..|halves + [h]| - 1] == halves;
  }

  class BootController {
    var st: BootState
    var pending: seq<DramReq>
    var programBase: u32
    var programChunks: u32

    function Value(): Boot
      reads this
    {
      Boot(st, pending, programBase, programChunks)
    }

    constructor ()
      ensures Value() == NEW_BOOT
    {
      st, pending, programBase, programChunks := Idle, [], 0, 0;
    }

    method SetOn() returns (accepted: bool)
      modifies this`st
      ensures (accepted, Value()) == BootFsm.SetOn(old(Value()))
    {
      accepted := st == Idle;
      if accepted {
        st := AguSubmit;
      }
    }

    /** Reverse submission to a stack preserves ascending issue order. */
    method SubmitChunkReads(first: u32, count: u32, port: DramPortal) returns (ok: bool)
      requires pending == []
      modifies this`pending, port
      ensures ok == (first + count < 0x1_0000_0000)
      ensures ok ==> pending == ChunkReqs(first, count)
      ensures ok ==> port.Value() == old(port.Value()).(pimReq := old(port.pimReq) + Reversed(pending))
      ensures !ok ==> pending == [] && port.Value() == old(port.Value())
    {
      if first + count >= 0x1_0000_0000 {
        return false;
      }
      var requests: seq<DramReq> := [];
      for k := 0 to count
        invariant requests == ChunkReqs(first, k)
      {
        requests := requests + [ChunkReq(first + k)];
      }
      ghost var p0 := port.Value();
      var i := |requests|;
      while i > 0
        invariant 0 <= i <= |requests|
        invariant port.Value() == p0.(pimReq := p0.pimReq + Reversed(requests[i..]))
      {
        i := i - 1;
        assert requests[i..][1..] == requests[i + 1..];
        assert p0.pimReq + Reversed(requests[i..]) == p0.pimReq + Reversed(requests[i + 1..]) + [requests[i]];
        assert requests[i] == ChunkReq(first + i);
        port.Submit(requests[i]);
      }
      assert requests[0..] == requests;
      pending := requests;
      ok := true;
    }

    /** Takes every response that has come and tells whether the phase is over. */
    method PhaseComplete(port: DramPortal) returns (done: bool)
      modifies this`pending, port
      ensures (pending, port.Value()) == TakeAll(old(pending), 0, old(port.Value()))
      ensures done == PhaseDone(pending, port.Value())
    {
      var idx := 0;
      while idx < |pending|
        invariant idx <= |pending|
        invariant TakeAll(pending, idx, port.Value()) == TakeAll(old(pending), 0, old(port.Value()))
        decreases |pending| - idx
      {
        var got := port.TakeCompleted(pending[idx]);
        if got.Some? {
          pending := SwapRemove(pending, idx);
        } else {
          idx := idx + 1;
        }
      }
      var drained := port.ReqDrainedForMode(PIM);
      done := drained && pending == [];
    }

    static method ReadAsData(fmem: FlatMem, first: u32, count: nat) returns (words: Option<seq<Vec4>>)
      requires first + count <= 0x1_0000_0000
      modifies fmem
      ensures (words, fmem.mem) == ReadChunks(old(fmem.mem), first, count)
    {
      ghost var m0 := fmem.mem;
      var read: seq<Vec4> := [];
      for k := 0 to count
        invariant (Some(read), fmem.mem) == ReadChunks(m0, first, k)
      {
        var w := fmem.MemReadData(first + k);
        if w == None {
          ReadChunksFails(m0, first, k + 1, count);
          return None;
        }
        read := read + [w.value];
      }
      words := Some(read);
    }

    /** Reads the descriptors, checks them all, and only then installs them. */
    method LoadAguTable(cpu: CpuUnit) returns (ok: bool)
      requires cpu.rf.Valid()
      modifies cpu.fmem, cpu.agu, cpu.rf.fregs
      ensures cpu.rf.Valid()
      ensures var (ok', l') := BootFsm.LoadAguTable(
                Loaded(old(cpu.fmem.mem), old(cpu.agu.table), cpu.imem, old(cpu.rf.fregs[..])));
              ok == ok' && l' == Loaded(cpu.fmem.mem, cpu.agu.table, cpu.imem, cpu.rf.fregs[..])
    {
      ghost var f0 := cpu.rf.fregs[..];
      var words := ReadAsData(cpu.fmem, 0, AGU_TABLE_CHUNKS);
      if words == None || |words.value| != AGU_TABLE_CHUNKS {
        return false;
      }
      var descriptors := words.value;
      ok := CheckTable(descriptors);
      if !ok {
        return;
      }
      InstallEntries(cpu.agu, descriptors);
      InitPointers(cpu.rf);
    }

    static method CheckTable(words: seq<Vec4>) returns (ok: bool)
      ensures ok == TableOk(words)
    {
      for id := 0 to DESCRIPTORS_PER_CHUNK * |words|
        invariant forall k :: 0 <= k < id ==> DescriptorOk(Descriptor(words, k))
      {
        var d := Descriptor(words, id);
        if d.0 + d.1 >= 0x1_0000_0000 || d.0 + d.1 > PSEUDO_BANK_ENTRIES {
          return false;
        }
      }
      return true;
    }

    static method InstallEntries(agu: AguUnit, words: seq<Vec4>)
      requires |words| == AGU_TABLE_CHUNKS && TableOk(words)
      modifies agu
      ensures agu.table == InstallTable(old(agu.table), words, AGU_ENTRY_COUNT)
    {
      for id := 0 to AGU_ENTRY_COUNT
        invariant agu.table == InstallTable(old(agu.table), words, id)
      {
        var d := Descriptor(words, id);
        assert DescriptorOk(d);
        agu.Insert(id, d.0, d.1);
      }
    }

    static method InitPointers(rf: RegisterFile)
      requires rf.Valid()
      modifies rf.fregs
      ensures rf.fregs[..] == INITIAL_PTRS
    {
      for id := 0 to 8
        invariant rf.fregs[..id] == INITIAL_PTRS[..id]
      {
        rf.WriteFregs(id, FatPtr(id, 0));
        assert INITIAL_PTRS[..id + 1] == INITIAL_PTRS[..id] + [Some(FatPtr(id, 0))];
      }
    }

    /** Decodes two instructions a word, low half first; one that is none is fatal. */
    static method DecodeWords(words: seq<Vec4>) returns (program: Option<seq<Inst>>)
      ensures program == DecodeAll(Halves(words))
    {
      hide DecodeAll; hide DecodeInst; hide ChunkHalves;
      NothingDecoded();
      var out: seq<Inst> := [];
      for c := 0 to |words|
        invariant Some(out) == DecodeAll(Halves(words[..c]))
      {
        var more := DecodeChunk(out, words, c);
        if more == None {
          return None;
        }
        out := more.value;
      }
      assert words[..|words|] == words;
      program := Some(out);
    }

    static lemma NothingDecoded()
      ensures DecodeAll([]) == Some([])
    {
    }

    static method DecodeChunk(start: seq<Inst>, words: seq<Vec4>, c: nat) returns (more: Option<seq<Inst>>)
      requires c < |words| && Some(start) == DecodeAll(Halves(words[..c]))
      ensures more.Some? ==> more == DecodeAll(Halves(words[..c + 1]))
      ensures more == None ==> DecodeAll(Halves(words)) == None
    {
      hide DecodeAll; hide DecodeInst; hide ChunkHalves;
      var out := start;
      ghost var before := Halves(words[..c]);
      var halves := ChunkHalves(words[c]);
      assert words[..c + 1][..c] == words[..c];
      assert before + halves[..0] == before;
      for h := 0 to |halves|
        invariant Some(out) == DecodeAll(before + halves[..h])
      {
        var i := DecodeInst(halves[h]);
        DecodeOneMore(before + halves[..h], halves[h]);
        assert before + halves[..h] + [halves[h]] == before + halves[..h + 1];
        if i == None {
          RestFails(words, c, h);
          return None;
        }
        out := out + [i.value];
      }
      assert before + halves[..|halves|] == Halves(words[..c + 1]);
      more := Some(out);
    }

    static lemma {:induction false} RestFails(words: seq<Vec4>, c: nat, h: nat)
      requires c < |words| && h < |ChunkHalves(words[c])|
      requires DecodeAll(Halves(words[..c]) + ChunkHalves(words[c])[..h + 1]) == None
      ensures DecodeAll(Halves(words)) == None
    {
      var halves := ChunkHalves(words[c]);
      DecodeAllFails(Halves(words[..c]) + halves[..h + 1], halves[h + 1..]);
      assert Halves(words[..c]) + halves[..h + 1] + halves[h + 1..] == Halves(words[..c]) + halves;
      assert words[..c + 1][..c] == words[..c];
      PrefixFails(words, c + 1);
    }

    static lemma {:induction false} PrefixFails(words: seq<Vec4>, c: nat)
      requires c <= |words| && DecodeAll(Halves(words[..c])) == None
      ensures DecodeAll(Halves(words)) == None
    {
      if c == |words| {
        assert words[..c] == words;
      } else {
        assert words[..|words| - 1][..c] == words[..c];
        PrefixFails(words[..|words| - 1], c);
        DecodeAllFails(Halves(words[..|words| - 1]), ChunkHalves(words[|words| - 1]));
      }
    }

    method LoadProgram(cpu: CpuUnit) returns (ok: bool)
      modifies cpu.fmem, cpu`imem
      ensures var (ok', l') := BootFsm.LoadProgram(
                Loaded(old(cpu.fmem.mem), cpu.agu.table, old(cpu.imem), cpu.rf.fregs[..]), programBase, programChunks);
              ok == ok' && l' == Loaded(cpu.fmem.mem, cpu.agu.table, cpu.imem, cpu.rf.fregs[..])
      requires cpu.rf.Valid()
    {
      if programBase + programChunks >= 0x1_0000_0000 {
        return false;
      }
      var words := ReadAsData(cpu.fmem, programBase, programChunks);
      if words == None {
        return false;
      }
      var program := DecodeWords(words.value);
      if program == None {
        return false;
      }
      cpu.imem := program.value;
      ok := true;
    }

    /** One clock tick, proved to be the function that the boot theorems are about. */
    method Tick(cpu: CpuUnit, port: DramPortal)
      requires cpu.rf.Valid()
      requires st == AguSubmit || st == ImemSubmit ==> pending == []
      modifies this, cpu.fmem, cpu.agu, cpu.rf.fregs, cpu`imem, port
      ensures cpu.rf.Valid()
      ensures (Value(), Loaded(cpu.fmem.mem, cpu.agu.table, cpu.imem, cpu.rf.fregs[..]), port.Value()) ==
              BootTick(old(Value()), old(Loaded(cpu.fmem.mem, cpu.agu.table, cpu.imem, cpu.rf.fregs[..])),
                    old(port.Value()))
    {
      hide TakeAll; hide BootFsm.LoadAguTable; hide BootFsm.LoadProgram; hide ChunkReqs; hide Reversed;
      match st {
        case Idle =>
        case Finished =>
        case Aborted =>
        case AguSubmit =>
          var ok := SubmitChunkReads(0, AGU_TABLE_CHUNKS, port);
          st := if ok then AguStall else Aborted;
        case AguStall =>
          var done := PhaseComplete(port);
          if done {
            var ok := LoadAguTable(cpu);
            st := if ok then ReadInsts else Aborted;
          }
        case ReadInsts =>
          var e := GetEntry(cpu.agu.table, 0);
          if e == None || e.value.1 > MAX_PROGRAM_CHUNKS {
            st := Aborted;
          } else {
            programBase, programChunks, st := e.value.0, e.value.1, ImemSubmit;
          }
        case ImemSubmit =>
          var ok := SubmitChunkReads(programBase, programChunks, port);
          st := if ok then ImemStall else Aborted;
        case ImemStall =>
          var done := PhaseComplete(port);
          if done {
            var ok := LoadProgram(cpu);
            st := if ok then Finished else Aborted;
          }
      }
    }
  }
}
