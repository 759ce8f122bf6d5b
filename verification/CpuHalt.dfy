/** A CPU that is asked to pause while a taken exit drains: it finishes without acknowledging if and only if
    one of its accesses still has to make its DRAM request, and acknowledges otherwise. */
module CpuHalt {
  import opened Words
  import opened DramPortals
  import opened Scoreboard
  import opened CpuStages
  import opened CpuPipeline
  import opened Isa
  import opened CpuDrain
  import opened CpuForwarding
  import opened CpuSteps
  import opened CpuRefinement
  import opened CpuPause
  import opened CpuExitStep
  import opened CpuExit
  import opened CpuFinish

  // ---- the blocks an exit leaves behind ----

  /** The memory blocks that will be live when the exit's signal has left. */
  function Remaining(c: Cpu): ActiveMap {
    AddBlock(BlocksOf(c.active), EvalMEM(c.core.agumem, c.core.mem).0.req)
  }

  /** Each has been released or has yet to submit its request; at most one has been released. */
  ghost predicate Remains(b: ActiveMap) {
    && (forall k :: k in b ==>
          k.reason.MemBlock? && b[k].fsm.MemFsm? && (b[k].fsm.st == Release || b[k].fsm.st == Submit))
    && (forall j, k :: j in b && k in b && b[j].fsm.st == Release && b[k].fsm.st == Release ==> j == k)
  }

  predicate Unsent(b: ActiveMap) {
    exists k :: k in b && b[k].fsm.MemFsm? && b[k].fsm.st == Submit
  }

  predicate Released(b: ActiveMap) {
    exists k :: k in b && b[k].fsm.MemFsm? && b[k].fsm.st == Release
  }

  /** One of the accesses still has to make its request. */
  predicate Late(c: Cpu) {
    Unsent(Remaining(c))
  }

  /** One of the three phases of a pipeline behind a taken exit. */
  ghost predicate Draining(c: Cpu, log: seq<Access>, requested: bool) {
    || (Leaving(c, MemDrain, requested) && c.core.exagu == TEST_EXAGU && AfterMem(c.core, true, log).status == Running)
    || (Leaving(c, AguDrain, requested) && !c.core.exagu.valid && c.core.agumem == TEST_AGUMEM
        && AfterMem(c.core, true, log).status == Running)
    || Lasting(c, requested)
  }

  /** A pipeline behind a taken exit, with the blocks the exit left behind. */
  ghost predicate Ending(c: Cpu, log: seq<Access>, requested: bool) {
    Draining(c, log, requested) && c.progEndSeen && !c.finished && Remains(Remaining(c))
  }

  function Phases(c: Cpu): nat {
    if EXIT_KEY !in c.active then 0 else if c.active[EXIT_KEY].fsm == ExitFsm(MemDrain) then 2 else 1
  }

  /** A pause is asserted while the exit drains; the countdown has not begun as long as anything is left. */
  ghost predicate Halting(c: Cpu, log: seq<Access>, delay: nat) {
    && Ending(c, log, true) && Asking(c.pause, delay)
    && (Phases(c) > 0 || Remaining(c) != map[] ==> !c.pause.delayStarted)
    && (c.pause.ready ==> c.pause.delayStarted)
  }

  /** The ticks left until the CPU reports ready, if no request is late. */
  function HaltRank(c: Cpu): nat {
    Phases(c) + Bit(Released(Remaining(c)))
    + if c.pause.ready then 0 else 1 + if c.pause.delayStarted then c.pause.remaining else c.pause.pauseDelay
  }

  lemma BubbleBlocks(c: Cpu)
    requires c.core.agumem == TEST_AGUMEM || !c.core.agumem.valid
    ensures Remaining(c) == BlocksOf(c.active)
  {
    hide BlocksOf;
    TestPasses(c.core.mem);
  }

  lemma RemainingOf(c: Cpu)
    ensures Remaining(c) == AddBlock(BlocksOf(c.active), EvalMEM(c.core.agumem, c.core.mem).0.req)
  {
    hide AddBlock; hide BlocksOf; hide EvalMEM;
  }

  /** The first two phases: the exit's signal wins. */
  lemma DrainTick(c: Cpu, log: seq<Access>, port: Portal, requested: bool)
    requires Ending(c, log, requested) && EXIT_KEY in c.active
    ensures var (c', port') := Tick(c, port);
            && port' == port && Ending(c', log, requested) && Steady(c', requested)
            && c'.pause == UpdateReady(c.pause, Some(ProgEnd))
            && Remaining(c') == Remaining(c) && Phases(c') < Phases(c)
  {
    hide EvalMEM; hide Closing; hide AfterMem; hide AfterWb; hide Tick; hide BlocksOf; hide AddBlock; hide NoRaw;
    hide CoreOk; hide Remains; hide Remaining;
    var c' := Tick(c, port).0;
    RemainingOf(c);
    if c.active[EXIT_KEY].fsm == ExitFsm(MemDrain) {
      LeavingTick(c, port, log, MemDrain, requested);
      TestInMem(c'.core, log);
      BubbleBlocks(c');
    } else {
      LeavingTick(c, port, log, AguDrain, requested);
      BubbleBlocks(c);
      BubbleBlocks(c');
    }
  }

  /** A block that was released leaves the others as they are. */
  lemma NoneUnsent(b: ActiveMap, w: Key)
    requires Remains(b) && w in b && b[w].fsm.st == Release
    ensures Remains(b - {w}) && Unsent(b - {w}) == Unsent(b) && Released(b) && !Released(b - {w})
  {
    if k :| k in b && b[k].fsm.MemFsm? && b[k].fsm.st == Submit {
      assert k in b - {w};
    }
  }

  lemma NothingLeft(b: ActiveMap)
    requires b == map[]
    ensures Remains(b) && !Unsent(b) && !Released(b)
  {
  }

  lemma OneUnsent(b: ActiveMap, w: Key)
    requires w in b && b[w].fsm.MemFsm? && b[w].fsm.st == Submit
    ensures Unsent(b)
  {
  }

  /** The last phase: the highest block wins, or else a pause that is asserted. */
  lemma LastPhaseTick(c: Cpu, log: seq<Access>, port: Portal, requested: bool)
    requires Ending(c, log, requested) && Lasting(c, requested)
    ensures var (c', port') := Tick(c, port);
            && Steady(c', requested) && Phases(c) == 0
            && (c'.finished ==> Unsent(Remaining(c)) || !requested)
            && (!c'.finished ==>
                  && port' == port && Ending(c', log, requested) && Phases(c') == 0
                  && Unsent(Remaining(c')) == Unsent(Remaining(c)))
            && (Remaining(c) == map[] ==>
                  && c'.finished == !requested
                  && (requested ==> Remaining(c') == map[] && c'.pause == UpdateReady(c.pause, Some(ExternalPause))))
            && (Remaining(c) != map[] ==>
                  && Winner(Remaining(c)).reason.MemBlock?
                  && c'.pause == UpdateReady(c.pause, Some(Winner(Remaining(c)).reason))
                  && (!c'.finished ==> Released(Remaining(c)) && !Released(Remaining(c'))))
  {
    hide EvalMEM; hide Closing; hide AfterMem; hide AfterWb; hide Tick; hide BlocksOf; hide AddBlock; hide NoRaw;
    hide CoreOk; hide Unsent; hide Released; hide Remaining; hide NewReqs; hide Draining;
    var c' := Tick(c, port).0;
    BubbleBlocks(c);
    BlocksIn(c.active);
    LastTick(c, port, requested);
    LastingDrains(c, log, requested);
    var b := BlocksOf(c.active);
    if b == map[] {
      NothingLeft(b);
    } else if c.active[Winner(b)].fsm.st == Release {
      NoneUnsent(b, Winner(b));
    } else {
      OneUnsent(b, Winner(b));
    }
    if !c'.finished {
      BubbleBlocks(c');
      LastingDrains(c', log, requested);
    }
  }

  lemma LastingDrains(c: Cpu, log: seq<Access>, requested: bool)
    requires Lasting(c, requested)
    ensures Draining(c, log, requested) && Phases(c) == 0
  {
  }

  lemma LeavesSignal(c: Cpu, log: seq<Access>, requested: bool)
    requires Draining(c, log, requested)
    ensures Lasting(c, requested) || EXIT_KEY in c.active
  {
    hide Closing; hide AfterMem; hide Lasting;
  }

  // ---- with a pause asserted ----

  /** What a tick does to a CPU that is asked to pause while an exit drains. */
  ghost predicate Halts(c: Cpu, log: seq<Access>, port: Portal, delay: nat, c': Cpu, port': Portal) {
    && (c'.finished ==>
          Late(c) && c'.pause.requested && !c'.pause.resumePending && !c'.pause.ready)
    && (!c'.finished ==>
          && Halting(c', log, delay) && Late(c') == Late(c) && port' == port
          && (c.pause.ready ==> c'.pause.ready && HaltRank(c') == HaltRank(c))
          && (!c.pause.ready ==> HaltRank(c') < HaltRank(c)))
  }

  /** One tick. It finishes the CPU only if a request is late, and then unacknowledged; otherwise it brings
      the acknowledgement closer, makes no request and leaves what was late so. */
  lemma HaltTick(c: Cpu, log: seq<Access>, port: Portal, delay: nat)
    requires Halting(c, log, delay)
    ensures var (c', port') := Tick(c, port);
            Halts(c, log, port, delay, c', port')
  {
    hide Tick; hide Remaining; hide Leaving; hide Lasting; hide Remains; hide Unsent; hide Released; hide Draining;
    hide Phases;
    LateIsLeft(Remaining(c));
    LeavesSignal(c, log, true);
    if EXIT_KEY in c.active {
      DrainTick(c, log, port, true);
    } else {
      LastPhaseTick(c, log, port, true);
    }
  }

  lemma LateNotReady(c: Cpu, log: seq<Access>, delay: nat)
    requires Halting(c, log, delay) && Late(c)
    ensures !c.pause.ready
  {
    hide Ending; hide Remaining;
    LateIsLeft(Remaining(c));
  }

  lemma LateIsLeft(b: ActiveMap)
    ensures b == map[] ==> !Unsent(b) && !Released(b)
  {
  }

  /** The tick that takes the exit; a request is late if and only if `LateAccess` says so. */
  lemma EndingStarts(c0: Cpu, log: seq<Access>, port: Portal)
    requires Inv(c0, log) && ExitNow(c0.core) && Prompt(c0) && Steady(c0, c0.pause.requested)
    ensures var (c1, port') := Tick(c0, port);
            && Ending(c1, log, c0.pause.requested) && Steady(c1, c0.pause.requested) && port' == port
            && (Late(c1) <==> LateAccess(c0)) && Phases(c1) == 2
            && c1.pause == UpdateReady(c0.pause, Some(ProgEnd))
  {
    hide Inv; hide ExitNow; hide Kept; hide EvalEX; hide EvalAGU; hide EvalMEM; hide Closing; hide AfterMem; hide Tick;
    hide NextOf; hide BlocksOf; hide AddBlock; hide NoRaw; hide CoreOk; hide LateAccess; hide Stale;
    hide Remaining; hide LeftBehind; hide Remains; hide Unsent; hide Released; hide Prompt;
    var c1 := Tick(c0, port).0;
    ExitLeaving(c0, log, port);
    StaleBlocks(c0, log);
    RemainingStale(c0, c1);
    AtExit(c0, log);
    KeptRuns(c0.prog, c0.core, log);
    AfterMemApart(c1.core, log);
    LeftRemains(c0.active, Stale(c0));
    ExitSeen(c0, log, port);
  }

  lemma RemainingStale(c0: Cpu, c1: Cpu)
    requires c1.core.agumem == EvalAGU(c0.prog, c0.core).next
    requires c1.core.mem == NextOf(c0.prog, c0.core, c0.pause.requested, EXIT_OPS).mem
    requires BlocksOf(c1.active) == AddBlock(BlocksOf(c0.active), EvalMEM(c0.core.agumem, c0.core.mem).0.req)
    ensures Remaining(c1) == Stale(c0)
  {
    hide EvalAGU; hide EvalMEM; hide NextOf; hide BlocksOf; hide AddBlock;
  }

  lemma LeftRemains(m: ActiveMap, b: ActiveMap)
    requires LeftBehind(m, b)
    ensures Remains(b) && (Unsent(b) <==> exists k :: k in b && k !in m)
  {
  }

  lemma ExitSeen(c: Cpu, log: seq<Access>, port: Portal)
    requires Inv(c, log) && ExitNow(c.core)
    ensures Tick(c, port).0.progEndSeen
  {
    hide Inv; hide Tick; hide ExitNow; hide Abs; hide Kept; hide EvalAGU; hide AfterMem; hide NextOf;
    TakenExitKeepsOlder(c, log, port);
  }

  /** The same tick with a pause asserted. */
  lemma HaltStarts(c0: Cpu, log: seq<Access>, port: Portal, delay: nat)
    requires Inv(c0, log) && ExitNow(c0.core) && Prompt(c0) && PauseOk(c0) && Asking(c0.pause, delay)
    ensures var (c1, port') := Tick(c0, port);
            && Halting(c1, log, delay) && port' == port
            && (Late(c1) <==> LateAccess(c0)) && HaltRank(c1) <= 4 + delay && !c1.pause.ready
  {
    hide Inv; hide ExitNow; hide Tick; hide LateAccess; hide Ending; hide Prompt; hide Frozen; hide Late; hide Phases;
    hide Remaining; hide Released;
    EndingStarts(c0, log, port);
  }

  // ---- a pause that is requested while an exit drains ----

  lemma EndingTick(c: Cpu, log: seq<Access>, port: Portal)
    requires Ending(c, log, false)
    ensures var (c', port') := Tick(c, port);
            && Steady(c', false)
            && (!c'.finished ==> Ending(c', log, false) && Late(c') == Late(c) && port' == port)
  {
    hide Tick; hide Remaining; hide Leaving; hide Lasting; hide Remains; hide Unsent; hide Released; hide Draining;
    hide Phases;
    LeavesSignal(c, log, false);
    if EXIT_KEY in c.active {
      DrainTick(c, log, port, false);
    } else {
      LastPhaseTick(c, log, port, false);
    }
  }

  lemma HaltAsked(c: Cpu, log: seq<Access>)
    requires Ending(c, log, false)
    ensures var c1 := SignalPause(c);
            && Halting(c1, log, c1.pause.pauseDelay) && Late(c1) == Late(c) && HaltRank(c1) <= 4 + c1.pause.pauseDelay
  {
    hide EvalMEM; hide CoreOk; hide AfterMem; hide BlocksOf; hide AddBlock; hide Remains; hide NoRaw; hide Unsent;
    hide Released;
  }
}
