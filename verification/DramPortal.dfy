/** The request and response queues shared by a processor, the boot controller and the engine. */
module DramPortals {
  import opened Words

  type Payload = s: seq<u64> | |s| == 8 witness [0, 0, 0, 0, 0, 0, 0, 0]

  datatype DramReq = DramReq(
    addr: u64, payload: Payload, id: Option<nat>, issueTime: Option<nat>, isRead: bool, isPim: bool)
  {
    /** Responses are matched on address, direction and origin only. */
    predicate Matches(other: DramReq) {
      addr == other.addr && isRead == other.isRead && isPim == other.isPim
    }
  }

  function NewReq(addr: u64, isRead: bool, isPim: bool): DramReq {
    DramReq(addr, [0, 0, 0, 0, 0, 0, 0, 0], None, None, isRead, isPim)
  }

  datatype PortalMode = PIM | HOST

  /** The contents of a portal. Requests are stacks (pushed and popped at the end). */
  datatype Portal = Portal(
    pimReq: seq<DramReq>, hostReq: seq<DramReq>, pimResp: seq<DramReq>, hostResp: seq<DramReq>,
    mode: PortalMode)
  {
    function Submit(req: DramReq): Portal {
      if req.isPim then this.(pimReq := pimReq + [req]) else this.(hostReq := hostReq + [req])
    }

    predicate Drained(m: PortalMode) {
      if m == PIM then pimReq == [] else hostReq == []
    }

    /** The request on top of the stack of the current mode, and the portal without it. */
    function GetOne(): (Option<DramReq>, Portal) {
      if mode == PIM then
        if pimReq == [] then (None, this)
        else (Some(pimReq[|pimReq| - 1]), this.(pimReq := pimReq[..|pimReq| - 1]))
      else
        if hostReq == [] then (None, this)
        else (Some(hostReq[|hostReq| - 1]), this.(hostReq := hostReq[..|hostReq| - 1]))
    }

    function Complete(req: DramReq): Portal {
      if req.isPim then this.(pimResp := pimResp + [req]) else this.(hostResp := hostResp + [req])
    }

    /** The oldest response matching `req`, removed from its list. */
    function TakeCompleted(req: DramReq): (Option<DramReq>, Portal) {
      var resp := if req.isPim then pimResp else hostResp;
      var i := FirstMatch(resp, req);
      if i == |resp| then (None, this)
      else if req.isPim then (Some(resp[i]), this.(pimResp := resp[..i] + resp[i + 1..]))
      else (Some(resp[i]), this.(hostResp := resp[..i] + resp[i + 1..]))
    }

    function TakeHostCompleted(): (Option<DramReq>, Portal) {
      if hostResp == [] then (None, this)
      else (Some(hostResp[|hostResp| - 1]), this.(hostResp := hostResp[..|hostResp| - 1]))
    }
  }

  const EMPTY_PORTAL: Portal := Portal([], [], [], [], PIM)

  /** The index of the first response matching `req`; the length when there is none. */
  function FirstMatch(resp: seq<DramReq>, req: DramReq): (i: nat)
    ensures i <= |resp|
    ensures i < |resp| ==> req.Matches(resp[i])
    ensures forall j :: 0 <= j < i ==> !req.Matches(resp[j])
  {
    if resp == [] then 0
    else if req.Matches(resp[0]) then 0
    else
      var i := FirstMatch(resp[1..], req);
      assert forall j :: 0 < j < i + 1 ==> resp[j] == resp[1..][j - 1];
      1 + i
  }

  /** The host takes the newest response first. */
  lemma HostTakesNewest(p: Portal, q: DramReq)
    requires !q.isPim
    ensures p.Complete(q).TakeHostCompleted() == (Some(q), p)
    ensures p.TakeHostCompleted().0 == None <==> p.hostResp == []
  {
    assert (p.hostResp + [q])[..|p.hostResp|] == p.hostResp;
  }

  /** A response with the request's address and direction, of its side. */
  predicate Answers(q: DramReq, r: DramReq) {
    r.addr == q.addr && r.isRead == q.isRead && r.isPim == q.isPim
  }

  /** What is taken answers the request, is the oldest response that does, and leaves the others in order; nothing is
      taken only if no response on the request's side answers it. */
  lemma TakesOldestAnswer(p: Portal, q: DramReq)
    ensures var (done, p') := p.TakeCompleted(q);
            var resp := if q.isPim then p.pimResp else p.hostResp;
            if done == None then p' == p && forall r :: r in resp ==> !Answers(q, r)
            else
              exists i: nat ::
                && i < |resp| && done.value == resp[i] && Answers(q, resp[i])
                && (forall j :: 0 <= j < i ==> !Answers(q, resp[j]))
                && p' == if q.isPim then p.(pimResp := resp[..i] + resp[i + 1..])
                         else p.(hostResp := resp[..i] + resp[i + 1..])
  {
    var resp := if q.isPim then p.pimResp else p.hostResp;
    var i := FirstMatch(resp, q);
    if i == |resp| {
      forall r | r in resp ensures !Answers(q, r) {
        var j :| 0 <= j < |resp| && resp[j] == r;
        assert !q.Matches(resp[j]);
      }
    } else {
      assert forall j :: 0 <= j < i ==> !q.Matches(resp[j]);
    }
  }

  class DramPortal {
    var pimReq: seq<DramReq>
    var hostReq: seq<DramReq>
    var pimResp: seq<DramReq>
    var hostResp: seq<DramReq>
    var mode: PortalMode

    ghost function Value(): Portal
      reads this
    {
      Portal(pimReq, hostReq, pimResp, hostResp, mode)
    }

    constructor ()
      ensures Value() == EMPTY_PORTAL
    {
      pimReq, hostReq, pimResp, hostResp, mode := [], [], [], [], PIM;
    }

    method ReqDrainedForMode(m: PortalMode) returns (drained: bool)
      ensures drained == Value().Drained(m)
    {
      match m
      case PIM => drained := pimReq == [];
      case HOST => drained := hostReq == [];
    }

    method Submit(req: DramReq)
      modifies this
      ensures Value() == old(Value()).Submit(req)
    {
      if req.isPim {
        pimReq := pimReq + [req];
      } else {
        hostReq := hostReq + [req];
      }
    }

    method GetOneReq() returns (req: Option<DramReq>)
      modifies this
      ensures (req, Value()) == old(Value()).GetOne()
    {
      req := None;
      if mode == PIM {
        if pimReq != [] {
          req, pimReq := Some(pimReq[|pimReq| - 1]), pimReq[..|pimReq| - 1];
        }
      } else if hostReq != [] {
        req, hostReq := Some(hostReq[|hostReq| - 1]), hostReq[..|hostReq| - 1];
      }
    }

    method Complete(req: DramReq)
      modifies this
      ensures Value() == old(Value()).Complete(req)
    {
      if req.isPim {
        pimResp := pimResp + [req];
      } else {
        hostResp := hostResp + [req];
      }
    }

    method TakeCompleted(req: DramReq) returns (done: Option<DramReq>)
      modifies this
      ensures (done, Value()) == old(Value()).TakeCompleted(req)
    {
      var resp := if req.isPim then pimResp else hostResp;
      var i := 0;
      while i < |resp| && !req.Matches(resp[i])
        invariant i <= |resp|
        invariant forall j :: 0 <= j < i ==> !req.Matches(resp[j])
      {
        i := i + 1;
      }
      if i == |resp| {
        done := None;
        return;
      }
      done := Some(resp[i]);
      if req.isPim {
        pimResp := resp[..i] + resp[i + 1..];
      } else {
        hostResp := resp[..i] + resp[i + 1..];
      }
    }

    method TakeHostCompleted() returns (done: Option<DramReq>)
      modifies this
      ensures (done, Value()) == old(Value()).TakeHostCompleted()
    {
      done := None;
      if hostResp != [] {
        done, hostResp := Some(hostResp[|hostResp| - 1]), hostResp[..|hostResp| - 1];
      }
    }
  }
}
