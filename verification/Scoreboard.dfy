/** Pipeline control: signals, their state machines and the priority arbitration between them. */
module Scoreboard {
  import opened Words
  import opened DramPortals

  datatype Stage = IF | ID | EX | AGU | MEM | WB
  datatype Action = Normal | Flush | Stall | END

  datatype Reason =
    | JumpResolution
    | RawResolution
    | MemBlock(addr: u64, isRead: bool)
    | ExternalPause
    | Exception
    | ProgEnd
    | NoReason

  datatype MemState = Submit | Waiting | WriteBack | Release | Done
  datatype DrainState = WbDrain | MemDrain | AguDrain | Drained

  /** The state machine behind an active signal. */
  datatype Fsm =
    | JumpFsm(flushed: bool)
    | RawFsm(idle: bool)
    | MemFsm(st: MemState, req: Option<DramReq>)
    | PauseFsm
    | AguStopFsm(drain: DrainState)
    | ExitFsm(drain: DrainState)

  datatype SignalReq = SignalReq(reason: Reason, issuer: Stage, target: Option<set<Stage>>)
  datatype Active = Active(issuer: Stage, fsm: Fsm, target: Option<set<Stage>>, reason: Reason)
  datatype Key = Key(prio: nat, stage: Stage, act: Action, reason: Reason)

  function StageRank(s: Stage): nat {
    match s case IF => 1 case ID => 2 case EX => 3 case AGU => 4 case MEM => 5 case WB => 6
  }

  function ActionRank(a: Action): nat {
    match a case Normal => 1 case Flush => 2 case Stall => 3 case END => 4
  }

  function Priority(r: Reason): nat {
    match r
    case NoReason => 0
    case JumpResolution => 10
    case RawResolution => 20
    case ExternalPause => 30
    case MemBlock(_, _) => 40
    case Exception => 50
    case ProgEnd => 50
  }

  /** Declaration order of the reasons, then the fields of a memory block. */
  function ReasonRank(r: Reason): nat {
    match r
    case JumpResolution => 0
    case RawResolution => 1
    case MemBlock(_, _) => 2
    case ExternalPause => 3
    case Exception => 4
    case ProgEnd => 5
    case NoReason => 6
  }

  function ReasonAddr(r: Reason): nat {
    if r.MemBlock? then 2 * r.addr + (if r.isRead then 1 else 0) else 0
  }

  /** The order of the active map: priority, issuing stage, action class, reason. */
  predicate KeyLess(a: Key, b: Key) {
    if a.prio != b.prio then a.prio < b.prio
    else if a.stage != b.stage then StageRank(a.stage) < StageRank(b.stage)
    else if a.act != b.act then ActionRank(a.act) < ActionRank(b.act)
    else if ReasonRank(a.reason) != ReasonRank(b.reason) then ReasonRank(a.reason) < ReasonRank(b.reason)
    else ReasonAddr(a.reason) < ReasonAddr(b.reason)
  }

  // ---- the state machines ----

  /** A new signal starts from the template registered for its kind of reason. */
  function Template(r: Reason): Fsm
    requires r != NoReason
  {
    match r
    case JumpResolution => JumpFsm(false)
    case RawResolution => RawFsm(false)
    case MemBlock(_, _) => MemFsm(Submit, None)
    case ExternalPause => PauseFsm
    case Exception => AguStopFsm(WbDrain)
    case ProgEnd => ExitFsm(WbDrain)
  }

  /** The arbitration class; `Normal` means that the machine has finished. */
  function FsmAction(f: Fsm): Action {
    match f
    case JumpFsm(flushed) => if flushed then Normal else Flush
    case RawFsm(idle) => if idle then Normal else Stall
    case MemFsm(st, _) => if st == Done then Normal else Stall
    case PauseFsm => Stall
    case AguStopFsm(d) => if d == Drained then Normal else Flush
    case ExitFsm(d) => if d == Drained then Normal else Flush
  }

  /** What the machine asks of a stage; a stage it does not mention runs normally. */
  function FsmOp(f: Fsm, s: Stage): Action {
    match f
    case JumpFsm(_) => if s == IF then Flush else Normal
    case RawFsm(_) => if s == IF || s == ID || s == EX || s == WB then Stall else Normal
    case MemFsm(st, _) =>
      (match st
       case Submit => if s == WB then Normal else Stall
       case Waiting => if s == WB then Normal else Stall
       case WriteBack => if s == WB || s == MEM then Normal else Stall
       case Release => if s == AGU || s == MEM then Normal else Stall
       case Done => Normal)
    case PauseFsm => if s == IF then Normal else Stall
    case AguStopFsm(_) => if s == IF || s == ID || s == EX then Flush else Normal
    case ExitFsm(_) => if s == IF || s == ID then Flush else Normal
  }

  /** The winner's step; only a memory block touches the portal. */
  function Advance(f: Fsm, r: Reason, port: Portal): (Fsm, Portal) {
    match f
    case JumpFsm(_) => (JumpFsm(true), port)
    case RawFsm(_) => (RawFsm(true), port)
    case PauseFsm => (f, port)
    case AguStopFsm(d) =>
      (AguStopFsm(match d case WbDrain => MemDrain case MemDrain => Drained case _ => Drained), port)
    case ExitFsm(d) =>
      (ExitFsm(match d case WbDrain => MemDrain case MemDrain => AguDrain case _ => Drained), port)
    case MemFsm(st, req) =>
      (match st
       case Submit =>
         if r.MemBlock? then
           var q := NewReq(r.addr, r.isRead, true);
           (MemFsm(Waiting, Some(q)), port.Submit(q))
         else (MemFsm(WriteBack, req), port)
       case Waiting =>
         if req.Some? then
           var (done, port') := port.TakeCompleted(req.value);
           (MemFsm(if done.Some? then WriteBack else Waiting, req), port')
         else (MemFsm(WriteBack, req), port)
       case WriteBack => (MemFsm(Release, req), port)
       case Release => (MemFsm(Done, req), port)
       case Done => (f, port))
  }

  /** A RAW signal that loses gives up; every other signal waits. */
  function Blocked(f: Fsm): Fsm {
    if f.RawFsm? then RawFsm(true) else f
  }

  // ---- arbitration ----

  type ActiveMap = map<Key, Active>

  function KeyOf(a: Active): Key {
    Key(Priority(a.reason), a.issuer, FsmAction(a.fsm), a.reason)
  }

  /** Every signal is stored under its own key and has not finished. */
  ghost predicate Keyed(m: ActiveMap) {
    forall k :: k in m ==> k == KeyOf(m[k]) && k.act != Normal
  }

  function SubmitSignal(m: ActiveMap, q: SignalReq): ActiveMap {
    if q.reason == NoReason then m
    else
      var a := Active(q.issuer, Template(q.reason), q.target, q.reason);
      if KeyOf(a) in m then m else m[KeyOf(a) := a]
  }

  predicate IsMax(s: set<Key>, w: Key) {
    w in s && forall k :: k in s && k != w ==> KeyLess(k, w)
  }

  lemma KeyOrderTransitive(a: Key, b: Key, c: Key)
    requires KeyLess(a, b) && KeyLess(b, c)
    ensures KeyLess(a, c)
  {
  }

  lemma MaxExists(s: set<Key>)
    requires s != {}
    ensures exists w :: IsMax(s, w)
  {
    var k :| k in s;
    if s == {k} {
      assert IsMax(s, k);
    } else {
      MaxExists(s - {k});
      var w :| IsMax(s - {k}, w);
      if KeyLess(w, k) {
        forall j | j in s && j != k ensures KeyLess(j, k) {
          if j != w {
            KeyOrderTransitive(j, w, k);
          }
        }
        assert IsMax(s, k);
      } else {
        assert IsMax(s, w);
      }
    }
  }

  lemma MaxUnique(s: set<Key>, v: Key, w: Key)
    requires IsMax(s, v) && IsMax(s, w)
    ensures v == w
  {
  }

  function Winner(m: ActiveMap): (w: Key)
    requires m != map[]
    ensures IsMax(m.Keys, w)
  {
    assert m.Keys != {};
    MaxExists(m.Keys);
    assert forall v, w :: IsMax(m.Keys, v) && IsMax(m.Keys, w) ==> v == w by {
      forall v, w | IsMax(m.Keys, v) && IsMax(m.Keys, w) ensures v == w {
        MaxUnique(m.Keys, v, w);
      }
    }
    var w :| w in m.Keys && IsMax(m.Keys, w);
    w
  }

  function OpOf(a: Active, s: Stage): Action {
    if a.target.Some? && s !in a.target.value then Normal else FsmOp(a.fsm, s)
  }

  /** What the six stages are told to do in one tick. */
  datatype Ops = Ops(iF: Action, id: Action, ex: Action, agu: Action, mem: Action, wb: Action)

  const ALL_NORMAL: Ops := Ops(Normal, Normal, Normal, Normal, Normal, Normal)

  function OpsOf(a: Active): Ops {
    Ops(OpOf(a, IF), OpOf(a, ID), OpOf(a, EX), OpOf(a, AGU), OpOf(a, MEM), OpOf(a, WB))
  }

  datatype Decision = Decision(ops: Ops, active: ActiveMap, winner: Option<Reason>, port: Portal)

  /** The winner advances, the others are told that they lost, finished signals leave. */
  function AfterWin(m: ActiveMap, w: Key, fsm: Fsm): ActiveMap
    requires w in m
  {
    map k | k in m ::
      if k == w then m[k].(fsm := fsm) else m[k].(fsm := Blocked(m[k].fsm))
  }

  function Live(m: ActiveMap): ActiveMap {
    map k | k in m && FsmAction(m[k].fsm) != Normal :: m[k]
  }

  function Decide(m: ActiveMap, port: Portal): Decision {
    if m == map[] then Decision(ALL_NORMAL, m, None, port)
    else
      var w := Winner(m);
      var (fsm, port') := Advance(m[w].fsm, m[w].reason, port);
      Decision(OpsOf(m[w]), Live(AfterWin(m, w, fsm)), Some(m[w].reason), port')
  }

  function SameKind(a: Reason, b: Reason): bool {
    a == b || (a.MemBlock? && b.MemBlock?)
  }

  function ClearActive(m: ActiveMap, r: Reason): ActiveMap {
    map k | k in m && !SameKind(m[k].reason, r) :: m[k]
  }
}
