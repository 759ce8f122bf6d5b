/** Whole boots: any order of responses, any refusals by the DRAM. */
module BootRuns {
  import opened Words
  import opened DramPortals
  import opened FlatMemory
  import opened AguUnits
  import opened CpuTypes
  import opened BootFsm
  import opened BootImage

  // ---- addresses of requests ----

  function Lines(s: seq<DramReq>): (r: seq<u64>)
    ensures |r| == |s|
  {
    seq(|s|, i requires 0 <= i < |s| => s[i].addr)
  }

  ghost function Bag(s: seq<DramReq>): multiset<u64> {
    multiset(Lines(s))
  }

  lemma BagSum(s: seq<DramReq>, t: seq<DramReq>)
    ensures Bag(s + t) == Bag(s) + Bag(t)
  {
    assert Lines(s + t) == Lines(s) + Lines(t);
  }

  lemma BagOne(q: DramReq)
    ensures Bag([q]) == multiset{q.addr}
  {
    assert Lines([q]) == [q.addr];
  }

  lemma BagEmpty(s: seq<DramReq>)
    ensures Bag(s) == multiset{} <==> s == []
  {
    if s != [] {
      assert Lines(s)[0] in Bag(s);
    }
  }

  lemma BagWithout(s: seq<DramReq>, i: nat)
    requires i < |s|
    ensures Bag(s) == Bag(s[..i] + s[i + 1..]) + multiset{s[i].addr}
  {
    assert s == s[..i] + [s[i]] + s[i + 1..];
    BagSum(s[..i] + [s[i]], s[i + 1..]);
    BagSum(s[..i], [s[i]]);
    BagSum(s[..i], s[i + 1..]);
    BagOne(s[i]);
  }

  lemma BagSwapRemove(s: seq<DramReq>, i: nat)
    requires i < |s|
    ensures Bag(s) == Bag(SwapRemove(s, i)) + multiset{s[i].addr}
  {
    hide Bag;
    var n := |s| - 1;
    BagWithout(s, i);
    if i < n {
      var front, back := s[..i], s[i + 1..n];
      assert SwapRemove(s, i) == front + ([s[n]] + back);
      assert s[..i] + s[i + 1..] == front + (back + [s[n]]);
      BagSum(front, [s[n]] + back);
      BagSum(front, back + [s[n]]);
      BagSum([s[n]], back);
      BagSum(back, [s[n]]);
    } else {
      assert s[..i] + s[i + 1..] == s[..n];
    }
  }

  lemma BagReversed(s: seq<DramReq>)
    ensures Bag(Reversed(s)) == Bag(s)
  {
    if s != [] {
      BagReversed(s[1..]);
      BagSum(Reversed(s[1..]), [s[0]]);
      BagOne(s[0]);
      assert s == [s[0]] + s[1..];
      BagSum([s[0]], s[1..]);
    }
  }

  // ---- the loop that takes responses ----

  predicate PimReads(s: seq<DramReq>) {
    forall q :: q in s ==> q.isRead && q.isPim
  }

  ghost predicate NoMatch(pending: seq<DramReq>, n: nat, resp: seq<DramReq>)
    requires n <= |pending|
  {
    forall i, j :: 0 <= i < n && 0 <= j < |resp| ==> !pending[i].Matches(resp[j])
  }

  /** One response answers one request with its address. */
  lemma TakeOneBalances(q: DramReq, port: Portal)
    requires q.isPim
    ensures var (done, port') := port.TakeCompleted(q);
            && port' == port.(pimResp := port'.pimResp)
            && (if done.Some? then Bag(port.pimResp) == Bag(port'.pimResp) + multiset{q.addr}
                else port' == port && (forall j :: 0 <= j < |port.pimResp| ==> !q.Matches(port.pimResp[j])))
            && (forall r :: r in port'.pimResp ==> r in port.pimResp)
  {
    hide Bag;
    var k := FirstMatch(port.pimResp, q);
    if k < |port.pimResp| {
      BagWithout(port.pimResp, k);
    }
  }

  lemma StillNoMatch(pending: seq<DramReq>, idx: nat, resp: seq<DramReq>, resp': seq<DramReq>)
    requires idx < |pending| && NoMatch(pending, idx, resp) && forall r :: r in resp' ==> r in resp
    ensures NoMatch(SwapRemove(pending, idx), idx, resp')
    ensures PimReads(pending) ==> PimReads(SwapRemove(pending, idx))
    ensures InBank(pending) ==> InBank(SwapRemove(pending, idx))
  {
    var rest := SwapRemove(pending, idx);
    forall i | 0 <= i < |rest| ensures rest[i] in pending && (i < idx ==> rest[i] == pending[i]) {
    }
    forall i, j | 0 <= i < idx && 0 <= j < |resp'| ensures !rest[i].Matches(resp'[j]) {
      assert resp'[j] in resp;
    }
  }

  /** For every address the loop removes as many pending requests as it consumes responses, and it
      leaves no request that a remaining response could answer. */
  lemma {:induction false} TakeAllBalances(pending: seq<DramReq>, idx: nat, port: Portal)
    requires idx <= |pending| && PimReads(pending) && NoMatch(pending, idx, port.pimResp)
    ensures var (pending', port') := TakeAll(pending, idx, port);
            && Bag(pending) + Bag(port'.pimResp) == Bag(pending') + Bag(port.pimResp)
            && port' == port.(pimResp := port'.pimResp) && PimReads(pending')
            && (InBank(pending) ==> InBank(pending'))
            && (forall q :: q in port'.pimResp ==> q in port.pimResp)
            && NoMatch(pending', |pending'|, port'.pimResp)
    decreases |pending| - idx
  {
    hide Bag; hide SwapRemove; hide NoMatch; hide FirstMatch; hide PimReads; hide InBank;
    if idx < |pending| {
      IsPimRead(pending, idx);
      var (done, port1) := port.TakeCompleted(pending[idx]);
      TakeOneBalances(pending[idx], port);
      if done.Some? {
        BagSwapRemove(pending, idx);
        StillNoMatch(pending, idx, port.pimResp, port1.pimResp);
        var rest := SwapRemove(pending, idx);
        TakeAllBalances(rest, idx, port1);
        var (pending', port') := TakeAll(rest, idx, port1);
        Balance(Bag(pending), Bag(rest), Bag(pending'), Bag(port.pimResp), Bag(port1.pimResp), Bag(port'.pimResp),
                pending[idx].addr);
      } else {
        OneMoreNoMatch(pending, idx, port.pimResp);
        TakeAllBalances(pending, idx + 1, port);
      }
    }
  }

  lemma Balance(p: multiset<u64>, rest: multiset<u64>, q: multiset<u64>, r: multiset<u64>, r1: multiset<u64>,
                r2: multiset<u64>, a: u64)
    requires p == rest + multiset{a} && r == r1 + multiset{a} && rest + r2 == q + r1
    ensures p + r2 == q + r
  {
    assert p + r2 == (rest + r2) + multiset{a};
    assert q + r == (q + r1) + multiset{a};
  }

  lemma Cancel(p: multiset<u64>, q: multiset<u64>, a: multiset<u64>, b: multiset<u64>, r: multiset<u64>,
               r2: multiset<u64>)
    requires p == a + b + r && p + r2 == q + r
    ensures q == a + b + r2
  {
    forall x: u64 ensures q[x] == (a + b + r2)[x] {
      assert (p + r2)[x] == (q + r)[x];
    }
  }

  lemma IsPimRead(s: seq<DramReq>, i: nat)
    requires i < |s| && PimReads(s)
    ensures s[i].isPim && s[i].isRead
  {
  }

  lemma OneMoreNoMatch(pending: seq<DramReq>, idx: nat, resp: seq<DramReq>)
    requires idx < |pending| && NoMatch(pending, idx, resp)
    requires forall j :: 0 <= j < |resp| ==> !pending[idx].Matches(resp[j])
    ensures NoMatch(pending, idx + 1, resp)
  {
  }

  // ---- runs ----

  /** The boot controller, the DRAM behind it, and what happened in the current phase: the lines issued
      to the DRAM in order and the number of answers. */
  datatype BootRun = BootRun(
    boot: Boot, loaded: Loaded, port: Portal, inDram: seq<DramReq>, issued: seq<u64>, answered: nat)

  datatype Event =
    | Start                        // the host asks to start
    | TickEv                       // the controller's clock
    | Issue(id: nat, time: nat)    // the engine hands the top request to a DRAM that accepts it
    | Refused                      // ... or that does not
    | Answer(i: nat)               // the DRAM completes any request it holds

  function RunOne(s: BootRun, ev: Event): BootRun {
    match ev
    case Start => s.(boot := SetOn(s.boot).1)
    case TickEv =>
      var (b, l, p) := BootTick(s.boot, s.loaded, s.port);
      var submits := s.boot.st == AguSubmit || s.boot.st == ImemSubmit;
      BootRun(b, l, p, s.inDram, if submits then [] else s.issued, if submits then 0 else s.answered)
    case Issue(id, time) =>
      if s.port.mode != PIM || s.port.pimReq == [] then s
      else
        var (q, p) := s.port.GetOne();
        s.(port := p, inDram := s.inDram + [q.value.(id := Some(id), issueTime := Some(time))],
           issued := s.issued + [q.value.addr])
    case Refused =>
      if s.port.mode != PIM || s.port.pimReq == [] then s
      else
        var (q, p) := s.port.GetOne();
        s.(port := p.Submit(q.value))
    case Answer(i) =>
      if i >= |s.inDram| then s
      else
        s.(port := s.port.Complete(s.inDram[i]), inDram := s.inDram[..i] + s.inDram[i + 1..],
           answered := s.answered + 1)
  }

  datatype Trace = Trace(evs: seq<Event>, states: seq<BootRun>)

  ghost predicate Linked(r: Trace, i: nat)
    requires i < |r.evs| && |r.states| == |r.evs| + 1
  {
    r.states[i + 1] == RunOne(r.states[i], r.evs[i])
  }

  /** Boot starts on a processor nobody has used, with nothing on the PIM side of the portal. */
  ghost predicate IsRun(r: Trace) {
    && |r.states| == |r.evs| + 1
    && r.states[0].boot == NEW_BOOT && r.states[0].loaded.agu == map[]
    && r.states[0].port.pimReq == [] && r.states[0].port.pimResp == [] && r.states[0].inDram == []
    && r.states[0].issued == [] && r.states[0].answered == 0
    && forall i: nat :: i < |r.evs| ==> Linked(r, i)
  }

  // ---- the invariant ----

  predicate Waiting(b: Boot) {
    b.st == AguStall || b.st == ImemStall
  }

  /** The requests of the current phase. */
  function PhaseReqs(b: Boot): seq<DramReq>
    requires b.base + b.chunks < 0x1_0000_0000
  {
    if b.st == AguStall then ChunkReqs(0, AGU_TABLE_CHUNKS) else ChunkReqs(b.base, b.chunks)
  }

  predicate RangeOk(b: Boot) {
    b.base + b.chunks <= PSEUDO_BANK_ENTRIES && b.chunks <= MAX_PROGRAM_CHUNKS
  }

  ghost predicate PhaseOk(s: BootRun)
    requires RangeOk(s.boot)
  {
    && PimReads(s.boot.pending) && PimReads(s.port.pimReq) && PimReads(s.inDram) && PimReads(s.port.pimResp)
    && s.issued + Lines(Reversed(s.port.pimReq)) == Lines(PhaseReqs(s.boot))
    && Bag(s.boot.pending) == Bag(s.port.pimReq) + Bag(s.inDram) + Bag(s.port.pimResp)
    && |s.issued| == |s.inDram| + s.answered
    && InBank(s.boot.pending)
  }

  /** Every request lies in the processor's pseudo bank. */
  predicate InBank(s: seq<DramReq>) {
    forall q :: q in s ==> q.addr < PSEUDO_BANK_CACHELINES
  }

  predicate Quiet(s: BootRun) {
    s.boot.pending == [] && s.port.pimReq == [] && s.port.pimResp == [] && s.inDram == []
  }

  ghost predicate TableBounded(t: AguTable) {
    forall id :: id in t ==> t[id].Ent? && t[id].base + t[id].bound <= PSEUDO_BANK_ENTRIES
  }

  ghost predicate Good(s: BootRun) {
    && RangeOk(s.boot) && TableBounded(s.loaded.agu)
    && (if Waiting(s.boot) then PhaseOk(s) else Quiet(s))
  }

  // ---- steps ----

  lemma {:induction false} ReversedTop<T>(s: seq<T>)
    requires s != []
    ensures Reversed(s) == [s[|s| - 1]] + Reversed(s[..|s| - 1])
  {
    var n := |s| - 1;
    var t := [s[n]] + Reversed(s[..n]);
    forall i | 0 <= i <= n ensures Reversed(s)[i] == t[i] {
    }
  }

  lemma ReversedTwice<T>(s: seq<T>)
    ensures Reversed(Reversed(s)) == s
  {
  }

  lemma SubmitKeeps(s: BootRun, first: u32, count: u32, next: BootState)
    requires Quiet(s) && RangeOk(s.boot) && TableBounded(s.loaded.agu) && first + count < 0x1_0000_0000
    requires (next == AguStall && first == 0 && count == AGU_TABLE_CHUNKS) ||
             (next == ImemStall && first == s.boot.base && count == s.boot.chunks)
    ensures var (b, p) := SubmitChunks(s.boot, s.port, first, count, next);
            Good(BootRun(b, s.loaded, p, [], [], 0))
  {
    hide Bag; hide Reversed; hide TableBounded;
    var reqs := ChunkReqs(first, count);
    ReversedTwice(reqs);
    BagReversed(reqs);
    assert s.port.pimReq + Reversed(reqs) == Reversed(reqs);
    BagEmpty([]);
    ChunksAreReads(first, count);
    ReversedReads(reqs);
    assert [] + Lines(reqs) == Lines(reqs);
  }

  lemma ChunksAreReads(first: u32, count: u32)
    requires first + count < 0x1_0000_0000
    ensures PimReads(ChunkReqs(first, count))
    ensures first + count <= PSEUDO_BANK_ENTRIES ==> InBank(ChunkReqs(first, count))
  {
    forall q | q in ChunkReqs(first, count)
      ensures q.isRead && q.isPim && (first + count <= PSEUDO_BANK_ENTRIES ==> q.addr < PSEUDO_BANK_CACHELINES)
    {
      var i :| 0 <= i < count && ChunkReqs(first, count)[i] == q;
      assert q == ChunkReq(first + i);
    }
  }

  lemma ReversedReads(s: seq<DramReq>)
    requires PimReads(s)
    ensures PimReads(Reversed(s))
  {
    forall q | q in Reversed(s) ensures q in s {
      var i :| 0 <= i < |s| && Reversed(s)[i] == q;
      assert s[|s| - 1 - i] == q;
    }
  }

  lemma IssueKeeps(s: BootRun, id: nat, time: nat)
    requires Good(s)
    ensures Good(RunOne(s, Issue(id, time)))
  {
    if s.port.mode == PIM && s.port.pimReq != [] {
      assert Waiting(s.boot);
      var n := |s.port.pimReq| - 1;
      var q := s.port.pimReq[n];
      var sent := q.(id := Some(id), issueTime := Some(time));
      ReversedTop(s.port.pimReq);
      assert Lines(Reversed(s.port.pimReq)) == [q.addr] + Lines(Reversed(s.port.pimReq[..n]));
      assert s.port.pimReq == s.port.pimReq[..n] + [q];
      BagSum(s.port.pimReq[..n], [q]);
      BagSum(s.inDram, [sent]);
      BagOne(q);
      BagOne(sent);
      var s' := RunOne(s, Issue(id, time));
      assert s'.issued + Lines(Reversed(s'.port.pimReq)) == s.issued + Lines(Reversed(s.port.pimReq));
    }
  }

  /** A refused request goes back where it came from. */
  lemma RefusedKeeps(s: BootRun)
    requires Good(s)
    ensures RunOne(s, Refused) == s
  {
    if s.port.mode == PIM && s.port.pimReq != [] {
      var n := |s.port.pimReq| - 1;
      assert s.port.pimReq[n] in s.port.pimReq;
      assert s.port.pimReq[..n] + [s.port.pimReq[n]] == s.port.pimReq;
    }
  }

  lemma AnswerKeeps(s: BootRun, i: nat)
    requires Good(s)
    ensures Good(RunOne(s, Answer(i)))
  {
    if i < |s.inDram| {
      assert Waiting(s.boot) && s.inDram[i] in s.inDram;
      BagWithout(s.inDram, i);
      BagSum(s.port.pimResp, [s.inDram[i]]);
      BagOne(s.inDram[i]);
    }
  }

  /** Every descriptor that is installed has passed the bounds check. */
  lemma {:induction false} InstalledBounded(t: AguTable, words: seq<Vec4>, n: nat)
    requires TableBounded(t) && TableOk(words) && n <= DESCRIPTORS_PER_CHUNK * |words| && n <= 0x100
    ensures TableBounded(InstallTable(t, words, n))
    ensures forall id: u8 :: id < n ==> id in InstallTable(t, words, n)
    ensures n > 0 ==> InstallTable(t, words, n)[0] == Ent(Descriptor(words, 0).0, Descriptor(words, 0).1)
  {
    if n > 0 {
      InstalledBounded(t, words, n - 1);
      assert DescriptorOk(Descriptor(words, n - 1));
    }
  }

  /** What a completed phase proves: every read was issued, in order, and every one was answered. */
  lemma PhaseEnds(s: BootRun)
    requires Good(s) && Waiting(s.boot)
    ensures var (pending, port) := TakeAll(s.boot.pending, 0, s.port);
            && PhaseDone(pending, port) ==>
                 && s.issued == Lines(PhaseReqs(s.boot)) && s.answered == |PhaseReqs(s.boot)|
                 && s.inDram == [] && port.pimResp == [] && port.pimReq == []
    ensures var (pending, port) := TakeAll(s.boot.pending, 0, s.port);
            Good(s.(boot := s.boot.(pending := pending), port := port))
  {
    hide Bag; hide Lines; hide ChunkReqs; hide TableBounded; hide TakeAll; hide Reversed; hide NoMatch;
    var (pending, port) := TakeAll(s.boot.pending, 0, s.port);
    NothingBefore(s.boot.pending, s.port.pimResp);
    TakeAllBalances(s.boot.pending, 0, s.port);
    Cancel(Bag(s.boot.pending), Bag(pending), Bag(s.port.pimReq), Bag(s.inDram), Bag(s.port.pimResp),
           Bag(port.pimResp));
    if PhaseDone(pending, port) {
      BagEmpty(pending);
      BagEmpty(s.port.pimReq);
      BagEmpty(s.inDram);
      BagEmpty(port.pimResp);
      assert s.port.pimReq == [];
      assert Bag(s.inDram) <= Bag(pending) && Bag(port.pimResp) <= Bag(pending);
      assert s.issued + [] == s.issued;
    }
  }

  /** And a phase whose reads have all been issued and answered does complete: every response finds its read. */
  lemma PhaseFinishes(s: BootRun)
    requires Good(s) && Waiting(s.boot) && s.port.pimReq == [] && s.inDram == []
    ensures var (pending, port) := TakeAll(s.boot.pending, 0, s.port);
            PhaseDone(pending, port)
  {
    hide Bag; hide Lines; hide ChunkReqs; hide TableBounded; hide TakeAll; hide Reversed; hide NoMatch; hide PimReads;
    var (pending, port) := TakeAll(s.boot.pending, 0, s.port);
    NothingBefore(s.boot.pending, s.port.pimResp);
    TakeAllBalances(s.boot.pending, 0, s.port);
    BagEmpty([]);
    Cancel(Bag(s.boot.pending), Bag(pending), Bag([]), Bag([]), Bag(s.port.pimResp), Bag(port.pimResp));
    assert Bag(pending) == Bag(port.pimResp);
    if pending != [] {
      AnswersMatch(pending, port.pimResp, s.port.pimResp);
    }
  }

  lemma AnswersMatch(pending: seq<DramReq>, resp: seq<DramReq>, all: seq<DramReq>)
    requires pending != [] && Bag(pending) == Bag(resp) && PimReads(pending) && PimReads(all)
    requires forall q :: q in resp ==> q in all
    ensures !NoMatch(pending, |pending|, resp)
  {
    assert Lines(pending)[0] in Bag(pending);
    assert pending[0].addr in Bag(resp);
    var j :| 0 <= j < |resp| && Lines(resp)[j] == pending[0].addr;
    assert resp[j] in all && pending[0] in pending;
    assert pending[0].Matches(resp[j]);
  }

  lemma NothingBefore(pending: seq<DramReq>, resp: seq<DramReq>)
    ensures NoMatch(pending, 0, resp)
  {
  }

  lemma TickKeeps(s: BootRun)
    requires Good(s)
    ensures Good(RunOne(s, TickEv))
  {
    hide Bag; hide Lines; hide ChunkReqs; hide TakeAll; hide Reversed; hide LoadProgram; hide InstallTable;
    hide ReadChunks;
    hide SubmitChunks;
    match s.boot.st
    case AguSubmit =>
      NoOverflow(s.boot, s.port, 0, AGU_TABLE_CHUNKS, AguStall);
      SubmitKeeps(s, 0, AGU_TABLE_CHUNKS, AguStall);
    case ImemSubmit =>
      NoOverflow(s.boot, s.port, s.boot.base, s.boot.chunks, ImemStall);
      SubmitKeeps(s, s.boot.base, s.boot.chunks, ImemStall);
    case AguStall =>
      PhaseEnds(s);
      TableLoads(s.loaded);
    case ImemStall =>
      PhaseEnds(s);
      ProgramKeepsTable(s.loaded, s.boot.base, s.boot.chunks);
    case _ =>
  }

  lemma NoOverflow(b: Boot, port: Portal, first: u32, count: u32, next: BootState)
    requires first + count <= PSEUDO_BANK_ENTRIES
    ensures SubmitChunks(b, port, first, count, next).0 == b.(st := next, pending := ChunkReqs(first, count))
  {
  }

  lemma TableLoads(l: Loaded)
    requires TableBounded(l.agu)
    ensures var (ok, l') := LoadAguTable(l);
            && TableBounded(l'.agu) && l'.imem == l.imem
            && (!ok ==> l'.agu == l.agu && l'.f == l.f)
            && (ok ==> l'.f == INITIAL_PTRS && forall id: u8 :: id < AGU_ENTRY_COUNT ==> id in l'.agu)
  {
    hide TableBounded; hide InstallTable; hide ReadChunks;
    var words := ReadChunks(l.mem, 0, AGU_TABLE_CHUNKS).0;
    if words.Some? && |words.value| == AGU_TABLE_CHUNKS && TableOk(words.value) {
      InstalledBounded(l.agu, words.value, AGU_ENTRY_COUNT);
    }
  }

  lemma ProgramKeepsTable(l: Loaded, first: u32, count: u32)
    ensures var (ok, l') := LoadProgram(l, first, count);
            l'.agu == l.agu && l'.f == l.f && (!ok ==> l'.imem == l.imem)
  {
  }

  lemma {:induction false} BootIsGood(r: Trace, n: nat)
    requires IsRun(r) && n <= |r.evs|
    ensures Good(r.states[n])
  {
    hide Good; hide RunOne;
    if n == 0 {
      StartIsGood(r.states[0]);
    } else {
      BootIsGood(r, n - 1);
      assert Linked(r, n - 1);
      match r.evs[n - 1]
      case TickEv => TickKeeps(r.states[n - 1]);
      case Start => StartKeeps(r.states[n - 1]);
      case Issue(id, time) => IssueKeeps(r.states[n - 1], id, time);
      case Refused => RefusedKeeps(r.states[n - 1]);
      case Answer(i) => AnswerKeeps(r.states[n - 1], i);
    }
  }

  lemma StartIsGood(s: BootRun)
    requires s.boot == NEW_BOOT && s.loaded.agu == map[] && Quiet(s)
    ensures Good(s)
  {
  }

  lemma StartKeeps(s: BootRun)
    requires Good(s)
    ensures Good(RunOne(s, Start))
  {
    hide PhaseOk; hide TableBounded;
  }

  // ---- the theorems ----

  /** Boot never loads early. The descriptor table and the pointer registers change only at a tick that
      finds all eight table reads issued in order and answered; the instruction memory changes only at
      one that finds every chunk of the program issued in order and answered. Afterwards nothing is
      left in the DRAM or among the responses. */
  lemma NeverLoadsEarly(r: Trace, n: nat)
    requires IsRun(r) && n < |r.evs|
    ensures var s, s' := r.states[n], r.states[n + 1];
            && (s'.loaded.agu != s.loaded.agu || s'.loaded.f != s.loaded.f ==>
                  && s.boot.st == AguStall && s.issued == Lines(ChunkReqs(0, AGU_TABLE_CHUNKS))
                  && s.answered == AGU_TABLE_CHUNKS && Quiet(s'))
            && (s'.loaded.imem != s.loaded.imem ==>
                  && s.boot.st == ImemStall && s.boot.base + s.boot.chunks < 0x1_0000_0000
                  && s.issued == Lines(ChunkReqs(s.boot.base, s.boot.chunks))
                  && s.answered == s.boot.chunks && Quiet(s'))
  {
    hide IsRun;
    BootIsGood(r, n);
    RunLinked(r, n);
    LoadsLate(r.states[n], r.evs[n]);
  }

  lemma RunLinked(r: Trace, n: nat)
    requires IsRun(r) && n < |r.evs|
    ensures |r.states| == |r.evs| + 1 && r.states[n + 1] == RunOne(r.states[n], r.evs[n])
  {
    assert Linked(r, n);
  }

  lemma LoadsLate(s: BootRun, ev: Event)
    requires Good(s)
    ensures var s' := RunOne(s, ev);
            && (s'.loaded.agu != s.loaded.agu || s'.loaded.f != s.loaded.f ==>
                  && s.boot.st == AguStall && s.issued == Lines(ChunkReqs(0, AGU_TABLE_CHUNKS))
                  && s.answered == AGU_TABLE_CHUNKS && Quiet(s'))
            && (s'.loaded.imem != s.loaded.imem ==>
                  && s.boot.st == ImemStall && s.issued == Lines(ChunkReqs(s.boot.base, s.boot.chunks))
                  && s.answered == s.boot.chunks && Quiet(s'))
  {
    hide Bag; hide Lines; hide TakeAll; hide Reversed; hide LoadProgram; hide InstallTable; hide ReadChunks;
    hide SubmitChunks; hide PhaseOk; hide LoadAguTable; hide TableBounded;
    if ev == TickEv && Waiting(s.boot) {
      PhaseEnds(s);
      TableLoads(s.loaded);
      ProgramKeepsTable(s.loaded, s.boot.base, s.boot.chunks);
    }
  }

  /** While a phase runs, the lines issued to the DRAM are the first lines of its chunk range, in
      ascending order, however often the DRAM refused. */
  lemma IssueOrder(r: Trace, n: nat, i: nat, j: nat)
    requires IsRun(r) && n <= |r.evs| && Waiting(r.states[n].boot) && i <= j < |r.states[n].issued|
    ensures r.states[n].issued[i] <= r.states[n].issued[j]
    ensures var b := r.states[n].boot;
            && b.base + b.chunks < 0x1_0000_0000 && j < |PhaseReqs(b)|
            && r.states[n].issued[j] == PhaseReqs(b)[j].addr
            && r.states[n].issued[j] == (if b.st == AguStall then j else b.base + j) / 4
  {
    BootIsGood(r, n);
    var s := r.states[n];
    hide Bag; hide Reversed; hide TableBounded; hide IsRun;
    assert s.issued[j] == Lines(PhaseReqs(s.boot))[j];
    assert s.issued[i] == Lines(PhaseReqs(s.boot))[i];
    var first := if s.boot.st == AguStall then 0 else s.boot.base;
    assert PhaseReqs(s.boot)[i] == ChunkReq(first + i) && PhaseReqs(s.boot)[j] == ChunkReq(first + j);
  }

  /** Every read the boot controller makes lies in the pseudo bank, so the wrapper accepts its address. */
  lemma BootStaysInBank(r: Trace, n: nat)
    requires IsRun(r) && n <= |r.evs|
    ensures InBank(r.states[n].port.pimReq) && InBank(r.states[n].inDram)
  {
    BootIsGood(r, n);
    hide IsRun;
    var s := r.states[n];
    if Waiting(s.boot) {
      BagInBank(s.port.pimReq, s.boot.pending);
      BagInBank(s.inDram, s.boot.pending);
    }
  }

  lemma BagInBank(s: seq<DramReq>, t: seq<DramReq>)
    requires InBank(t) && Bag(s) <= Bag(t)
    ensures InBank(s)
  {
    forall q | q in s ensures q.addr < PSEUDO_BANK_CACHELINES {
      var i :| 0 <= i < |s| && s[i] == q;
      assert Lines(s)[i] in Bag(s);
      assert q.addr in Bag(t);
      var j :| 0 <= j < |t| && Lines(t)[j] == q.addr;
      assert t[j] in t;
    }
  }

  // ---- the whole boot of a packed image ----

  /** The descriptor table as the host stores it: two descriptors an entry. */
  function Pair(d: (u32, u32)): u64 {
    d.0 + 0x1_0000_0000 * d.1
  }

  function TableBytes(descs: seq<(u32, u32)>, chunk: nat): Bytes16
    requires 2 * chunk + 1 < |descs|
  {
    LeBytes(Pair(descs[2 * chunk]), 8) + LeBytes(Pair(descs[2 * chunk + 1]), 8)
  }

  /** The memory the host prepared: the table in the first eight entries, the image at its base. */
  ghost predicate Prepared(m: Mem, descs: seq<(u32, u32)>, prog: seq<Inst>) {
    && |descs| == AGU_ENTRY_COUNT && (forall i :: 0 <= i < |descs| ==> DescriptorOk(descs[i]))
    && (forall a: u32 :: a < AGU_TABLE_CHUNKS ==> a in m && m[a] == Untyped(TableBytes(descs, a)))
    && AllEncodable(prog) && |prog| <= 8 * (descs[0].1 as int) && descs[0].1 <= MAX_PROGRAM_CHUNKS
    && AGU_TABLE_CHUNKS <= descs[0].0 && IsImage(m, descs[0].0, prog, descs[0].1)
  }

  lemma TableEntry(descs: seq<(u32, u32)>, chunk: nat)
    requires 2 * chunk + 1 < |descs|
    ensures DecodeCpuData(TableBytes(descs, chunk)) ==
            Vec4(descs[2 * chunk].0, descs[2 * chunk].1, descs[2 * chunk + 1].0, descs[2 * chunk + 1].1)
  {
    hide LeBytes; hide Le32;
    LowWord(Pair(descs[2 * chunk]));
    LowWord(Pair(descs[2 * chunk + 1]));
  }

  lemma {:induction false} TableRead(m: Mem, descs: seq<(u32, u32)>, n: nat, a: u32)
    requires |descs| == AGU_ENTRY_COUNT && n <= AGU_TABLE_CHUNKS
    requires forall b: u32 :: b < AGU_TABLE_CHUNKS ==> b in m && m[b] == Untyped(TableBytes(descs, b))
    ensures var (words, m') := ReadChunks(m, 0, n);
            && words.Some? && |words.value| == n
            && (forall k :: 0 <= k < n ==>
                  words.value[k] == Vec4(descs[2 * k].0, descs[2 * k].1, descs[2 * k + 1].0, descs[2 * k + 1].1))
            && (a >= n ==> (a in m' <==> a in m) && (a in m ==> m'[a] == m[a]))
  {
    hide TableBytes; hide DecodeCpuData;
    if n > 0 {
      TableRead(m, descs, n - 1, a);
      TableRead(m, descs, n - 1, n - 1);
      TableEntry(descs, n - 1);
    }
  }

  ghost predicate TableIs(t: AguTable, descs: seq<(u32, u32)>, n: nat) {
    forall id: u8 :: id < n && id < |descs| ==> id in t && t[id] == Ent(descs[id].0, descs[id].1)
  }

  lemma {:induction false} Installed(t: AguTable, words: seq<Vec4>, descs: seq<(u32, u32)>, n: nat)
    requires |words| == AGU_TABLE_CHUNKS && |descs| == AGU_ENTRY_COUNT && n <= AGU_ENTRY_COUNT
    requires forall id :: 0 <= id < AGU_ENTRY_COUNT ==> Descriptor(words, id) == descs[id]
    ensures TableIs(InstallTable(t, words, n), descs, n)
  {
    hide Descriptor;
    if n > 0 {
      Installed(t, words, descs, n - 1);
    }
  }

  /** Loading the table succeeds, installs the host's descriptors and leaves the image alone. */
  lemma PreparedTable(l: Loaded, descs: seq<(u32, u32)>, prog: seq<Inst>)
    requires Prepared(l.mem, descs, prog)
    ensures var (ok, l') := LoadAguTable(l);
            && ok && TableIs(l'.agu, descs, AGU_ENTRY_COUNT) && l'.f == INITIAL_PTRS
            && IsImage(l'.mem, descs[0].0, prog, descs[0].1)
  {
    hide TableBytes; hide ReadChunks; hide InstallTable; hide ChunkBytes; hide Encodable; hide TableIs;
    hide Descriptor; hide DescriptorOk; hide AllEncodable;
    var (words, m') := ReadChunks(l.mem, 0, AGU_TABLE_CHUNKS);
    TableRead(l.mem, descs, AGU_TABLE_CHUNKS, 0);
    DescriptorsRead(words.value, descs);
    Installed(l.agu, words.value, descs, AGU_ENTRY_COUNT);
    forall a: u32 | descs[0].0 <= a < (descs[0].0 as int) + descs[0].1
      ensures a in m' && m'[a] == Untyped(ChunkBytes(prog, a - descs[0].0))
    {
      TableRead(l.mem, descs, AGU_TABLE_CHUNKS, a);
    }
  }

  lemma DescriptorsRead(words: seq<Vec4>, descs: seq<(u32, u32)>)
    requires |words| == AGU_TABLE_CHUNKS && |descs| == AGU_ENTRY_COUNT
    requires forall k :: 0 <= k < AGU_TABLE_CHUNKS ==>
               words[k] == Vec4(descs[2 * k].0, descs[2 * k].1, descs[2 * k + 1].0, descs[2 * k + 1].1)
    ensures forall id :: 0 <= id < AGU_ENTRY_COUNT ==> Descriptor(words, id) == descs[id]
  {
    forall id | 0 <= id < AGU_ENTRY_COUNT ensures Descriptor(words, id) == descs[id] {
      assert id == 2 * (id / 2) + id % 2;
    }
  }

  /** What has been loaded at each stage, given what the host prepared. */
  ghost predicate StageOk(s: BootRun, l0: Loaded, descs: seq<(u32, u32)>)
    requires |descs| == AGU_ENTRY_COUNT && (descs[0].0 as int) + descs[0].1 < 0x1_0000_0000
  {
    var l1 := LoadAguTable(l0).1;
    match s.boot.st
    case Idle => s.loaded == l0
    case AguSubmit => s.loaded == l0
    case AguStall => s.loaded == l0
    case ReadInsts => s.loaded == l1
    case ImemSubmit => s.loaded == l1 && (s.boot.base, s.boot.chunks) == descs[0]
    case ImemStall => s.loaded == l1 && (s.boot.base, s.boot.chunks) == descs[0]
    case Finished => s.loaded == LoadProgram(l1, descs[0].0, descs[0].1).1
    case Aborted => false
  }

  /** Loading what the host prepared succeeds, table and program. */
  lemma PreparedLoads(l0: Loaded, descs: seq<(u32, u32)>, prog: seq<Inst>)
    requires Prepared(l0.mem, descs, prog)
    ensures |descs| == AGU_ENTRY_COUNT && (descs[0].0 as int) + descs[0].1 < 0x1_0000_0000
    ensures descs[0].1 <= MAX_PROGRAM_CHUNKS
    ensures var (ok, l1) := LoadAguTable(l0);
            ok && GetEntry(l1.agu, 0) == Some(descs[0]) && LoadProgram(l1, descs[0].0, descs[0].1).0
  {
    hide LoadAguTable; hide LoadProgram; hide IsImage; hide TableBytes; hide Padded; hide Encodable;
    PreparedTable(l0, descs, prog);
    ImageLoads(LoadAguTable(l0).1, descs[0].0, prog, descs[0].1);
  }

  lemma StageKeeps(s: BootRun, ev: Event, l0: Loaded, descs: seq<(u32, u32)>, prog: seq<Inst>)
    requires Prepared(l0.mem, descs, prog) && StageOk(s, l0, descs)
    ensures StageOk(RunOne(s, ev), l0, descs)
  {
    hide Prepared; hide LoadAguTable; hide LoadProgram; hide TakeAll; hide ChunkReqs; hide FirstMatch; hide GetEntry;
    hide PhaseDone; hide Reversed;
    PreparedLoads(l0, descs, prog);
  }

  lemma {:induction false} StagesOk(r: Trace, n: nat, descs: seq<(u32, u32)>, prog: seq<Inst>)
    requires IsRun(r) && n <= |r.evs| && Prepared(r.states[0].loaded.mem, descs, prog)
    ensures StageOk(r.states[n], r.states[0].loaded, descs)
  {
    hide RunOne; hide StageOk;
    if n == 0 {
      FirstStage(r.states[0], descs);
    } else {
      StagesOk(r, n - 1, descs, prog);
      assert Linked(r, n - 1);
      StageKeeps(r.states[n - 1], r.evs[n - 1], r.states[0].loaded, descs, prog);
    }
  }

  lemma FirstStage(s: BootRun, descs: seq<(u32, u32)>)
    requires s.boot == NEW_BOOT && |descs| == AGU_ENTRY_COUNT && (descs[0].0 as int) + descs[0].1 < 0x1_0000_0000
    ensures StageOk(s, s.loaded, descs)
  {
  }

  /** Boot round trip. Whatever program the host packed, and whatever the DRAM did in between: boot never
      aborts, and once it has finished the instruction memory is the program followed by NOPs, the table
      holds the host's descriptors, every pointer register is initialised, and the PIM side of the portal
      is empty. */
  lemma BootRoundTrip(r: Trace, n: nat, descs: seq<(u32, u32)>, prog: seq<Inst>)
    requires IsRun(r) && n <= |r.evs| && Prepared(r.states[0].loaded.mem, descs, prog)
    ensures var s := r.states[n];
            && s.boot.st != Aborted
            && (s.boot.st == Finished ==>
                  && s.loaded.imem == Padded(prog, 8 * (descs[0].1 as int))
                  && TableIs(s.loaded.agu, descs, AGU_ENTRY_COUNT)
                  && s.loaded.f == INITIAL_PTRS && Quiet(s) && TableBounded(s.loaded.agu))
  {
    hide IsImage; hide TableIs; hide LoadProgram; hide LoadAguTable; hide Padded; hide PhaseOk; hide RunOne;
    StagesOk(r, n, descs, prog);
    BootIsGood(r, n);
    var l0 := r.states[0].loaded;
    PreparedTable(l0, descs, prog);
    ImageLoads(LoadAguTable(l0).1, descs[0].0, prog, descs[0].1);
  }

  // ---- storing table and image ----

  function TableLine(descs: seq<(u32, u32)>, line: nat): Payload
    requires 8 * line + 8 <= |descs|
  {
    [Pair(descs[8 * line]), Pair(descs[8 * line + 1]), Pair(descs[8 * line + 2]), Pair(descs[8 * line + 3]),
     Pair(descs[8 * line + 4]), Pair(descs[8 * line + 5]), Pair(descs[8 * line + 6]), Pair(descs[8 * line + 7])]
  }

  /** A fresh memory after the host stored the table and then `lines` lines of the image. */
  function HostStores(descs: seq<(u32, u32)>, prog: seq<Inst>, lines: nat): Mem
    requires |descs| == AGU_ENTRY_COUNT && AllEncodable(prog) && descs[0].0 + 4 * lines <= 0x1_0000_0000
  {
    var table := MirrorLine(MirrorLine(map[], 0, TableLine(descs, 0)), 4, TableLine(descs, 1));
    StoreImage(table, descs[0].0, prog, lines)
  }

  lemma TableStored(descs: seq<(u32, u32)>, a: u32)
    requires |descs| == AGU_ENTRY_COUNT
    ensures var m := MirrorLine(MirrorLine(map[], 0, TableLine(descs, 0)), 4, TableLine(descs, 1));
            if a < 8 then a in m && m[a] == Untyped(TableBytes(descs, a)) else a !in m
  {
    hide LeBytes;
    hide Pair;
    var m1 := MirrorLine(map[], 0, TableLine(descs, 0));
    FourMirrored(map[], 0, TableLine(descs, 0), a);
    FourMirrored(map[], 0, TableLine(descs, 0), 4);
    FourMirrored(map[], 0, TableLine(descs, 0), 5);
    FourMirrored(map[], 0, TableLine(descs, 0), 6);
    FourMirrored(map[], 0, TableLine(descs, 0), 7);
    FourMirrored(m1, 4, TableLine(descs, 1), a);
  }

  lemma FourMirrored(m: Mem, first: u32, payload: Payload, a: u32)
    requires first + 4 <= 0x1_0000_0000 && first !in m && first + 1 !in m && first + 2 !in m && first + 3 !in m
    ensures var m' := MirrorLine(m, first, payload);
            if first <= a < first + 4 then a in m' && m'[a] == Untyped(LineBytes(payload, a - first))
            else (a in m' <==> a in m) && (a in m ==> m'[a] == m[a])
  {
    hide LineBytes;
    assert MirrorEntries(m, first, payload, 1) == Mirror(m, first, LineBytes(payload, 0));
    assert MirrorEntries(m, first, payload, 2)
          == Mirror(MirrorEntries(m, first, payload, 1), first + 1, LineBytes(payload, 1));
    assert MirrorEntries(m, first, payload, 3)
          == Mirror(MirrorEntries(m, first, payload, 2), first + 2, LineBytes(payload, 2));
  }

  /** Host stores through the mirror prepare the memory. */
  lemma HostPrepares(descs: seq<(u32, u32)>, prog: seq<Inst>, lines: nat)
    requires |descs| == AGU_ENTRY_COUNT && (forall i :: 0 <= i < |descs| ==> DescriptorOk(descs[i]))
    requires AllEncodable(prog) && |prog| <= 8 * (descs[0].1 as int) && descs[0].1 <= MAX_PROGRAM_CHUNKS
    requires AGU_TABLE_CHUNKS <= descs[0].0 && descs[0].1 <= 4 * lines && descs[0].0 + 4 * lines <= 0x1_0000_0000
    ensures Prepared(HostStores(descs, prog, lines), descs, prog)
  {
    hide TableBytes; hide ChunkBytes; hide StoreImage; hide MirrorLine; hide TableLine; hide Encodable;
    var table := MirrorLine(MirrorLine(map[], 0, TableLine(descs, 0)), 4, TableLine(descs, 1));
    forall a: u32 ensures if a < 8 then a in table && table[a] == Untyped(TableBytes(descs, a)) else a !in table {
      TableStored(descs, a);
    }
    StoredIsImage(table, descs[0].0, prog, lines, descs[0].1);
    forall a: u32 | a < AGU_TABLE_CHUNKS
      ensures a in HostStores(descs, prog, lines) && HostStores(descs, prog, lines)[a] == Untyped(TableBytes(descs, a))
    {
      ImageStored(table, descs[0].0, prog, lines, a);
    }
  }
}
