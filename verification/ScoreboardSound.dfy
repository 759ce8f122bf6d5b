/** Arbitration is sound: only the highest signal acts, no signal is lost or merged, and every signal but
    a pause leaves after a bounded number of wins. */
module ScoreboardSound {
  import opened Words
  import opened DramPortals
  import opened Scoreboard
  import opened SigResolvers

  /** Wins until the signal is gone; a pause stays until it is cleared. */
  function WinsLeft(f: Fsm): nat
    requires !f.PauseFsm?
  {
    match f
    case JumpFsm(flushed) => if flushed then 0 else 1
    case RawFsm(idle) => if idle then 0 else 1
    case MemFsm(st, _) =>
      (match st case Submit => 4 case Waiting => 3 case WriteBack => 2 case Release => 1 case Done => 0)
    case AguStopFsm(d) => (match d case WbDrain => 2 case MemDrain => 1 case AguDrain => 1 case Drained => 0)
    case ExitFsm(d) => (match d case WbDrain => 3 case MemDrain => 2 case AguDrain => 1 case Drained => 0)
  }

  /** A memory block that has submitted its request and finds no response. */
  ghost predicate WaitsForAnswer(f: Fsm, port: Portal) {
    f.MemFsm? && f.st == Waiting && f.req.Some? && port.TakeCompleted(f.req.value).0 == None
  }

  lemma WinCounts(f: Fsm, r: Reason, port: Portal)
    requires !f.PauseFsm?
    ensures var g := Advance(f, r, port).0;
            && !g.PauseFsm?
            && (WaitsForAnswer(f, port) ==> g == f)
            && (!WaitsForAnswer(f, port) && WinsLeft(f) > 0 ==> WinsLeft(g) < WinsLeft(f))
    ensures (WinsLeft(f) == 0) == (FsmAction(f) == Normal)
  {
    hide FirstMatch;
  }

  /** One decision. The operations are those of the maximal key; every other signal keeps its key and
      its state, except that a losing RAW signal leaves; the winner keeps its key or leaves, and it
      comes closer to leaving unless it is a pause or waits for the DRAM. */
  lemma DecisionIsSound(m: ActiveMap, port: Portal)
    requires Keyed(m) && m != map[]
    ensures var d := Decide(m, port);
            var w := Winner(m);
            && IsMax(m.Keys, w) && d.ops == OpsOf(m[w]) && d.winner == Some(m[w].reason) && Keyed(d.active)
            && (forall k :: k in m && k != w ==>
                  if m[k].fsm.RawFsm? then k !in d.active else k in d.active && d.active[k] == m[k])
            && (forall k :: k in d.active ==> k in m)
            && (w in d.active ==> d.active[w] == m[w].(fsm := d.active[w].fsm))
            && (!m[w].fsm.PauseFsm? ==>
                  if WaitsForAnswer(m[w].fsm, port) then w in d.active && d.active[w] == m[w]
                  else if WinsLeft(m[w].fsm) == 1 then w !in d.active
                  else w in d.active ==> WinsLeft(d.active[w].fsm) < WinsLeft(m[w].fsm))
  {
    hide Advance; hide OpsOf; hide IsMax; hide Priority; hide WaitsForAnswer; hide WinsLeft;
    var w := Winner(m);
    WinnerKnown(m);
    KeyForLife(m[w], port);
    if !m[w].fsm.PauseFsm? {
      WinCounts(m[w].fsm, m[w].reason, port);
      WinCounts(Advance(m[w].fsm, m[w].reason, port).0, m[w].reason, port);
    }
    forall k | k in m && k != w
      ensures if m[k].fsm.RawFsm? then k !in Decide(m, port).active
              else k in Decide(m, port).active && Decide(m, port).active[k] == m[k]
    {
      FinishedSignalsLeave(m, k);
    }
  }

  // ---- the order of precedence ----

  /** The rungs of the ladder: a jump gives way to a RAW hazard, that to a pause, that to a memory access, and all of
      them to an exception or the end of the program. */
  function Rung(r: Reason): nat {
    match r
    case NoReason => 0
    case JumpResolution => 1
    case RawResolution => 2
    case ExternalPause => 3
    case MemBlock(_, _) => 4
    case Exception => 5
    case ProgEnd => 5
  }

  /** Stage `s` comes after stage `t` in the pipeline. */
  predicate Behind(s: Stage, t: Stage) {
    match t
    case IF => s != IF
    case ID => s != IF && s != ID
    case EX => s == AGU || s == MEM || s == WB
    case AGU => s == MEM || s == WB
    case MEM => s == WB
    case WB => false
  }

  /** On the same rung the stage further back wins; in one stage the end of the program wins over an exception, and of
      two accesses the higher line, or the read of the same line. */
  predicate Outranks(a: Active, b: Active) {
    || Rung(a.reason) > Rung(b.reason)
    || (Rung(a.reason) == Rung(b.reason) && Behind(a.issuer, b.issuer))
    || (a.issuer == b.issuer && a.reason == ProgEnd && b.reason == Exception)
    || (a.issuer == b.issuer && a.reason.MemBlock? && b.reason.MemBlock?
        && (a.reason.addr > b.reason.addr || (a.reason.addr == b.reason.addr && a.reason.isRead && !b.reason.isRead)))
  }

  /** The machine behind the signal is the one registered for its reason. */
  predicate Registered(a: Active) {
    match a.reason
    case NoReason => false
    case JumpResolution => a.fsm.JumpFsm?
    case RawResolution => a.fsm.RawFsm?
    case MemBlock(_, _) => a.fsm.MemFsm?
    case ExternalPause => a.fsm.PauseFsm?
    case Exception => a.fsm.AguStopFsm?
    case ProgEnd => a.fsm.ExitFsm?
  }

  lemma GreaterOutranks(a: Active, b: Active)
    requires Registered(a) && Registered(b) && FsmAction(a.fsm) != Normal && FsmAction(b.fsm) != Normal
    requires KeyLess(KeyOf(b), KeyOf(a))
    ensures Outranks(a, b)
  {
  }

  /** The winner of a decision outranks every other live signal. */
  lemma WinnerOutranks(m: ActiveMap, k: Key)
    requires Keyed(m) && (forall j :: j in m ==> Registered(m[j])) && k in m && k != Winner(m)
    ensures Outranks(m[Winner(m)], m[k])
  {
    hide Registered; hide Outranks; hide KeyLess;
    WinnerKnown(m);
    GreaterOutranks(m[Winner(m)], m[k]);
  }

  /** The stages a signal is aimed at, as the stages raise it. */
  predicate Aimed(a: Active) {
    match a.reason
    case NoReason => false
    case JumpResolution => a.target == Some({IF})
    case RawResolution => a.target == Some({IF, ID, EX})
    case MemBlock(_, _) => a.target == Some({IF, ID, EX, AGU, MEM, WB})
    case ExternalPause => a.target == None
    case Exception => a.target == None || a.target == Some({IF, ID, EX})
    case ProgEnd => a.target == Some({IF, ID})
  }

  /** What the winner makes the pipeline do: a jump flushes the fetch, a RAW hazard holds the front up to EX, a pause
      holds all but IF, an exception flushes the front up to EX and an exit up to ID; a memory access holds all but WB
      until its answer is there, then publishes the result, then lets AGU and MEM move on. */
  ghost predicate Steers(a: Active, ops: Ops) {
    match a.reason
    case NoReason => false
    case JumpResolution => ops == Ops(Flush, Normal, Normal, Normal, Normal, Normal)
    case RawResolution => ops == Ops(Stall, Stall, Stall, Normal, Normal, Normal)
    case ExternalPause => ops == Ops(Normal, Stall, Stall, Stall, Stall, Stall)
    case Exception => ops == Ops(Flush, Flush, Flush, Normal, Normal, Normal)
    case ProgEnd => ops == Ops(Flush, Flush, Normal, Normal, Normal, Normal)
    case MemBlock(_, _) =>
      a.fsm.MemFsm? &&
      (match a.fsm.st
       case Submit => ops == Ops(Stall, Stall, Stall, Stall, Stall, Normal)
       case Waiting => ops == Ops(Stall, Stall, Stall, Stall, Stall, Normal)
       case WriteBack => ops == Ops(Stall, Stall, Stall, Stall, Normal, Normal)
       case Release => ops == Ops(Stall, Stall, Stall, Normal, Normal, Stall)
       case Done => ops == ALL_NORMAL)
  }

  lemma WinnerSteers(m: ActiveMap, port: Portal)
    requires Keyed(m) && m != map[] && (forall j :: j in m ==> Registered(m[j]) && Aimed(m[j]))
    ensures Steers(m[Winner(m)], Decide(m, port).ops)
  {
    hide Keyed; hide IsMax; hide Advance; hide Registered; hide Aimed; hide Steers; hide OpsOf;
    WinnerKnown(m);
    SteersExactly(m[Winner(m)]);
  }

  lemma SteersExactly(a: Active)
    requires Registered(a) && Aimed(a)
    ensures Steers(a, OpsOf(a))
  {
  }

  lemma WinnerKnown(m: ActiveMap)
    requires m != map[]
    ensures Winner(m) in m && IsMax(m.Keys, Winner(m))
  {
  }
}
