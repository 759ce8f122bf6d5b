/** The wrapper around the DRAM model: which accepted requests are still outstanding, and how a
    completion finds the request it belongs to. */
module DramWrappers {
  import opened Words
  import opened DramPortals

  /** The global address of a pseudo-bank line, as the DRAM library computes it. */
  type AddrMap = u64 -> u64

  function RealAddr(phys: AddrMap, q: DramReq): u64 {
    if q.isPim then phys(q.addr) else q.addr
  }

  /** What the DRAM reports when a transaction completes. */
  datatype Completion = Completion(addr: u64, isWrite: bool)

  function KeyOf(phys: AddrMap, q: DramReq): Completion {
    Completion(RealAddr(phys, q), !q.isRead)
  }

  /** The accepted requests that have not completed, oldest first. */
  datatype Dram = Dram(pending: seq<DramReq>, nextId: nat, pimMode: bool)

  const NEW_DRAM: Dram := Dram([], 0, true)

  /** A request entering the DRAM gets the next number and the time. */
  function Stamped(q: DramReq, id: nat, time: nat): DramReq {
    q.(id := Some(id), issueTime := Some(time))
  }

  function FirstWith(phys: AddrMap, pending: seq<DramReq>, c: Completion): (i: nat)
    ensures i <= |pending|
    ensures i < |pending| ==> KeyOf(phys, pending[i]) == c
    ensures forall j :: 0 <= j < i ==> KeyOf(phys, pending[j]) != c
  {
    if pending == [] then 0
    else if KeyOf(phys, pending[0]) == c then 0
    else
      var i := FirstWith(phys, pending[1..], c);
      assert forall j :: 0 < j < i + 1 ==> pending[j] == pending[1..][j - 1];
      1 + i
  }

  /** The oldest request with this address and direction; a completion without one is a panic. */
  function PopCompleted(phys: AddrMap, pending: seq<DramReq>, c: Completion): Option<(DramReq, seq<DramReq>)> {
    var i := FirstWith(phys, pending, c);
    if i == |pending| then None else Some((pending[i], pending[..i] + pending[i + 1..]))
  }

  /** The request a completion is about: its direction, and its address in the whole memory, which for a processor's
      request is where the pseudo bank has that line. */
  predicate IsAbout(phys: AddrMap, c: Completion, q: DramReq) {
    c.isWrite != q.isRead && c.addr == if q.isPim then phys(q.addr) else q.addr
  }

  /** A completion takes the oldest outstanding request it is about; it is a panic exactly if there is none. */
  lemma PopsOldest(phys: AddrMap, pending: seq<DramReq>, c: Completion)
    ensures var r := PopCompleted(phys, pending, c);
            if r == None then forall q :: q in pending ==> !IsAbout(phys, c, q)
            else
              exists i: nat ::
                && i < |pending| && r.value == (pending[i], pending[..i] + pending[i + 1..])
                && IsAbout(phys, c, pending[i]) && forall j :: 0 <= j < i ==> !IsAbout(phys, c, pending[j])
  {
    var i := FirstWith(phys, pending, c);
    if i == |pending| {
      forall q | q in pending ensures !IsAbout(phys, c, q) {
        var j :| 0 <= j < |pending| && pending[j] == q;
        assert KeyOf(phys, pending[j]) != c;
      }
    } else {
      assert forall j :: 0 <= j < i ==> KeyOf(phys, pending[j]) != c;
    }
  }

  /** All completions of a clock tick; None stands for the panic. */
  function Complete(phys: AddrMap, pending: seq<DramReq>, cs: seq<Completion>): Option<(seq<DramReq>, seq<DramReq>)> {
    if cs == [] then Some(([], pending))
    else
      var one := PopCompleted(phys, pending, cs[0]);
      if one == None then None
      else
        var rest := Complete(phys, one.value.1, cs[1..]);
        if rest == None then None else Some(([one.value.0] + rest.value.0, rest.value.1))
  }

  // ---- a DRAM that only completes what it has accepted never makes the wrapper panic ----

  function Keys(phys: AddrMap, s: seq<DramReq>): (r: seq<Completion>)
    ensures |r| == |s|
  {
    seq(|s|, i requires 0 <= i < |s| => KeyOf(phys, s[i]))
  }

  /** The transactions the DRAM has accepted and not completed. */
  ghost function Outstanding(phys: AddrMap, s: seq<DramReq>): multiset<Completion> {
    multiset(Keys(phys, s))
  }

  lemma OutstandingSum(phys: AddrMap, s: seq<DramReq>, t: seq<DramReq>)
    ensures Outstanding(phys, s + t) == Outstanding(phys, s) + Outstanding(phys, t)
  {
    assert Keys(phys, s + t) == Keys(phys, s) + Keys(phys, t);
  }

  lemma OutstandingWithout(phys: AddrMap, s: seq<DramReq>, i: nat)
    requires i < |s|
    ensures Outstanding(phys, s) == Outstanding(phys, s[..i] + s[i + 1..]) + multiset{KeyOf(phys, s[i])}
  {
    assert s == s[..i] + [s[i]] + s[i + 1..];
    OutstandingSum(phys, s[..i] + [s[i]], s[i + 1..]);
    OutstandingSum(phys, s[..i], [s[i]]);
    OutstandingSum(phys, s[..i], s[i + 1..]);
    assert Keys(phys, [s[i]]) == [KeyOf(phys, s[i])];
  }

  /** The wrapper panics on a batch of completions exactly when it names a transaction that is not
      outstanding; otherwise what stays outstanding is what was not completed. */
  lemma {:induction false} PanicsExactly(phys: AddrMap, s: seq<DramReq>, cs: seq<Completion>)
    ensures Complete(phys, s, cs) == None <==> !(multiset(cs) <= Outstanding(phys, s))
    ensures Complete(phys, s, cs).Some? ==>
              var (done, left) := Complete(phys, s, cs).value;
              && Outstanding(phys, left) + multiset(cs) == Outstanding(phys, s)
              && multiset(done) + multiset(left) == multiset(s) && |done| == |cs|
  {
    hide Outstanding; hide FirstWith;
    if cs != [] {
      var i := FirstWith(phys, s, cs[0]);
      assert cs == [cs[0]] + cs[1..];
      if i < |s| {
        var left := s[..i] + s[i + 1..];
        OutstandingWithout(phys, s, i);
        PanicsExactly(phys, left, cs[1..]);
        assert s == s[..i] + [s[i]] + s[i + 1..];
        assert multiset(s) == multiset(left) + multiset{s[i]};
        OneLess(Outstanding(phys, left), cs[0], multiset(cs[1..]));
      } else {
        NotOutstanding(phys, s, cs[0]);
        assert cs[0] in multiset(cs);
      }
    }
  }

  lemma OneLess(o: multiset<Completion>, c: Completion, rest: multiset<Completion>)
    ensures rest <= o <==> multiset{c} + rest <= o + multiset{c}
  {
    if multiset{c} + rest <= o + multiset{c} {
      forall x ensures rest[x] <= o[x] {
        assert (multiset{c} + rest)[x] <= (o + multiset{c})[x];
      }
    }
  }

  lemma NotOutstanding(phys: AddrMap, s: seq<DramReq>, c: Completion)
    requires FirstWith(phys, s, c) == |s|
    ensures Outstanding(phys, s)[c] == 0
  {
    forall j | 0 <= j < |s| ensures Keys(phys, s)[j] != c {
    }
  }

  // ---- the wrapper's own form: a queue of requests for every address and direction ----

  function Matching(phys: AddrMap, s: seq<DramReq>, c: Completion): seq<DramReq> {
    if s == [] then []
    else if KeyOf(phys, s[0]) == c then [s[0]] + Matching(phys, s[1..], c)
    else Matching(phys, s[1..], c)
  }

  type Queues = map<u64, seq<DramReq>>

  /** One queue for each address with outstanding requests, no empty queues. */
  ghost predicate Represents(m: Queues, phys: AddrMap, s: seq<DramReq>, isWrite: bool) {
    forall a: u64 ::
      var q := Matching(phys, s, Completion(a, isWrite));
      (a in m <==> q != []) && (a in m ==> m[a] == q)
  }

  lemma {:induction false} MatchingSum(phys: AddrMap, s: seq<DramReq>, t: seq<DramReq>, c: Completion)
    ensures Matching(phys, s + t, c) == Matching(phys, s, c) + Matching(phys, t, c)
  {
    if s == [] {
      assert s + t == t;
    } else {
      MatchingSum(phys, s[1..], t, c);
      assert (s + t)[1..] == s[1..] + t;
    }
  }

  /** The front of the queue is the oldest match, and the queue without it matches the rest. */
  lemma {:induction false} QueueFront(phys: AddrMap, s: seq<DramReq>, c: Completion, other: Completion)
    ensures var i := FirstWith(phys, s, c);
            var q := Matching(phys, s, c);
            if i == |s| then q == []
            else q != [] && q[0] == s[i]
                 && Matching(phys, s[..i] + s[i + 1..], other) ==
                    (if other == c then q[1..] else Matching(phys, s, other))
  {
    hide FirstWith;
    FirstWithStep(phys, s, c);
    if s != [] && KeyOf(phys, s[0]) != c {
      QueueFront(phys, s[1..], c, other);
      var i := FirstWith(phys, s, c);
      if i < |s| {
        assert s[..i] + s[i + 1..] == [s[0]] + (s[1..][..i - 1] + s[1..][i..]);
        assert (s[..i] + s[i + 1..])[1..] == s[1..][..i - 1] + s[1..][i..];
      }
    } else if s != [] {
      assert s[..0] + s[1..] == s[1..];
    }
  }

  lemma FirstWithStep(phys: AddrMap, s: seq<DramReq>, c: Completion)
    ensures s == [] ==> FirstWith(phys, s, c) == 0
    ensures s != [] ==> FirstWith(phys, s, c) ==
                        if KeyOf(phys, s[0]) == c then 0 else 1 + FirstWith(phys, s[1..], c)
  {
  }

  /** A queue loses its front and leaves the map when it becomes empty. */
  function PopQueue(m: Queues, addr: u64): Queues
    requires addr in m && m[addr] != []
  {
    if |m[addr]| == 1 then m - {addr} else m[addr := m[addr][1..]]
  }

  lemma PopKeeps(m: Queues, phys: AddrMap, s: seq<DramReq>, isWrite: bool, c: Completion)
    requires Represents(m, phys, s, isWrite) && FirstWith(phys, s, c) < |s|
    ensures c.isWrite == isWrite ==> c.addr in m && m[c.addr] != [] && m[c.addr][0] == s[FirstWith(phys, s, c)]
    ensures var i := FirstWith(phys, s, c);
            var left := s[..i] + s[i + 1..];
            Represents(if c.isWrite == isWrite then PopQueue(m, c.addr) else m, phys, left, isWrite)
  {
    hide FirstWith; hide Matching;
    var i := FirstWith(phys, s, c);
    var left := s[..i] + s[i + 1..];
    QueueFront(phys, s, c, c);
    assert c == Completion(c.addr, c.isWrite);
    var m' := if c.isWrite == isWrite then PopQueue(m, c.addr) else m;
    forall a: u64 ensures var q := Matching(phys, left, Completion(a, isWrite));
                          (a in m' <==> q != []) && (a in m' ==> m'[a] == q)
    {
      QueueFront(phys, s, c, Completion(a, isWrite));
    }
  }

  /** The queue of its address and direction gains the new request at its end. */
  function PushQueue(m: Queues, addr: u64, q: DramReq): Queues {
    m[addr := (if addr in m then m[addr] else []) + [q]]
  }

  lemma PushKeeps(m: Queues, phys: AddrMap, s: seq<DramReq>, isWrite: bool, q: DramReq)
    requires Represents(m, phys, s, isWrite)
    ensures Represents(if q.isRead != isWrite then PushQueue(m, RealAddr(phys, q), q) else m, phys, s + [q], isWrite)
  {
    hide Matching; hide RealAddr;
    var m' := if q.isRead != isWrite then PushQueue(m, RealAddr(phys, q), q) else m;
    forall a: u64 ensures var r := Matching(phys, s + [q], Completion(a, isWrite));
                          (a in m' <==> r != []) && (a in m' ==> m'[a] == r)
    {
      MatchingSum(phys, s, [q], Completion(a, isWrite));
      MatchingOne(phys, q, Completion(a, isWrite));
    }
  }

  lemma MatchingOne(phys: AddrMap, q: DramReq, c: Completion)
    ensures Matching(phys, [q], c) == if KeyOf(phys, q) == c then [q] else []
  {
    assert [q][1..] == [];
  }

  class DramWrapper {
    const phys: AddrMap
    const lines: nat
    var pendRead: Queues
    var pendWrite: Queues
    var reqId: nat
    var pimMode: bool
    /** All outstanding requests in order of acceptance; what the two maps represent. */
    ghost var pending: seq<DramReq>

    ghost predicate Valid()
      reads this
    {
      Represents(pendRead, phys, pending, false) && Represents(pendWrite, phys, pending, true)
    }

    ghost function Value(): Dram
      reads this
    {
      Dram(pending, reqId, pimMode)
    }

    constructor (phys: AddrMap, lines: nat)
      ensures Valid() && Value() == NEW_DRAM && this.phys == phys && this.lines == lines
    {
      this.phys, this.lines := phys, lines;
      pendRead, pendWrite, reqId, pimMode, pending := map[], map[], 0, true, [];
    }

    method GetReqId() returns (id: nat)
      modifies this`reqId
      ensures id == old(reqId) && reqId == id + 1
    {
      id := reqId;
      reqId := reqId + 1;
    }

    /** A processor address outside the pseudo bank would be fatal; a request without number or time
        would panic. */
    method AddTransactionReq(q: DramReq)
      requires Valid() && q.id.Some? && q.issueTime.Some? && (q.isPim ==> q.addr < lines)
      modifies this`pendRead, this`pendWrite, this`pending
      ensures Valid() && Value() == old(Value()).(pending := old(pending) + [q])
    {
      hide Represents; hide PushQueue; hide RealAddr;
      var addr := RealAddr(phys, q);
      PushKeeps(pendRead, phys, pending, false, q);
      PushKeeps(pendWrite, phys, pending, true, q);
      if q.isRead {
        pendRead := PushQueue(pendRead, addr, q);
      } else {
        pendWrite := PushQueue(pendWrite, addr, q);
      }
      pending := pending + [q];
    }

    /** The completion must name an outstanding transaction; the wrapper panics otherwise. */
    method PopOne(c: Completion) returns (q: DramReq)
      requires Valid() && PopCompleted(phys, pending, c).Some?
      modifies this`pendRead, this`pendWrite, this`pending
      ensures Valid() && Value() == old(Value()).(pending := pending)
      ensures PopCompleted(phys, old(pending), c) == Some((q, pending))
    {
      hide Represents; hide FirstWith; hide PopQueue;
      ghost var i := FirstWith(phys, pending, c);
      ghost var left := pending[..i] + pending[i + 1..];
      PopKeeps(pendRead, phys, pending, false, c);
      PopKeeps(pendWrite, phys, pending, true, c);
      if c.isWrite {
        q := pendWrite[c.addr][0];
        pendWrite := PopQueue(pendWrite, c.addr);
      } else {
        q := pendRead[c.addr][0];
        pendRead := PopQueue(pendRead, c.addr);
      }
      pending := left;
    }

    method ClockTick(cs: seq<Completion>) returns (done: seq<DramReq>)
      requires Valid() && Complete(phys, pending, cs).Some?
      modifies this`pendRead, this`pendWrite, this`pending
      ensures Valid() && Value() == old(Value()).(pending := pending)
      ensures Complete(phys, old(pending), cs) == Some((done, pending))
    {
      done := [];
      hide Represents; hide PopCompleted;
      assert cs[0..] == cs;
      for k := 0 to |cs|
        invariant Valid() && Value() == old(Value()).(pending := pending)
        invariant Complete(phys, pending, cs[k..]).Some?
        invariant var all, rest := Complete(phys, old(pending), cs).value, Complete(phys, pending, cs[k..]).value;
                  all.0 == done + rest.0 && all.1 == rest.1
      {
        assert cs[k..][1..] == cs[k + 1..] && cs[k..][0] == cs[k];
        var q := PopOne(cs[k]);
        done := done + [q];
      }
      assert cs[|cs|..] == [];
      assert Complete(phys, pending, cs[|cs|..]) == Some(([], pending));
      assert done + [] == done;
    }

    method IsDrained(idle: bool) returns (drained: bool)
      requires Valid()
      ensures drained == (pending == [] && idle)
    {
      if pending != [] {
        var q := pending[0];
        assert Matching(phys, pending, Completion(RealAddr(phys, q), !q.isRead)) != [];
      }
      drained := pendRead == map[] && pendWrite == map[] && idle;
    }
  }
}
