/** Where the simulator sends memory requests, and the engines an allocation creates. */
module SimRouting {
  import opened Words
  import opened DramPortals
  import opened DramWrappers
  import opened RequestRouter
  import opened SimSpec
  import opened SimRuns
  import E = EngineSpec
  import B = BootFsm
  import SimDelivery

  /** The request the simulator makes of a host access. */
  lemma RequestIs(addr: u64, payload: Payload, isWrite: bool)
    ensures var q := HostReq(addr, payload, isWrite);
            HostMade(q) && q.addr == addr && q.payload == payload && q.isRead != isWrite
  {
  }

  /** The engine that owns an address: the CPU's engine of its bank, or else the PE's. */
  ghost predicate Owns(s: Sim, g: Geometry, addr: u64, c: Cfg) {
    && c in s.engines && g(addr) == Some(c.at)
    && (c.FgoCfg? ==> CgoCfg(c.at) !in s.engines)
  }

  lemma OwnerIs(s: Sim, g: Geometry, addr: u64, c: Cfg)
    ensures CfgOf(s.engines, g, addr) == Some(c) <==> Owns(s, g, addr, c)
  {
  }

  /** Its owner serves its processor only. */
  ghost predicate ShutOut(s: Sim, g: Geometry, addr: u64, c: Cfg) {
    Owns(s, g, addr, c) && (s.engines[c].sched == E.CgoOnly || s.engines[c].sched == E.Unconfigured)
  }

  lemma DroppedExactly(s: Sim, w: World, q: DramReq, size: nat)
    requires KindOf(q.addr) == Memory
    ensures SimDelivery.AtOnce(s, w, q, size) <==> exists c :: ShutOut(s, w.g, q.addr, c)
  {
    hide KindOf; hide Owns;
    var o := CfgOf(s.engines, w.g, q.addr);
    OwnerExists(s.engines, w.g, q.addr);
    if SimDelivery.AtOnce(s, w, q, size) {
      OwnerIs(s, w.g, q.addr, o.value);
      assert ShutOut(s, w.g, q.addr, o.value);
    }
    forall c | ShutOut(s, w.g, q.addr, c) ensures o == Some(c) {
      OwnerIs(s, w.g, q.addr, c);
    }
  }

  /** A memory request goes to the plain DRAM, numbered, and to the engine that owns its address, behind the requests
      that wait there; it goes nowhere exactly if that engine serves its processor only. */
  lemma MemoryGoes(s: Sim, w: World, q: DramReq, size: nat, granted: seq<Cfg>, sched: E.Sched, c: Cfg)
    requires KindOf(q.addr) == Memory && c in s.engines
    ensures var s' := Enqueue(s, w.g, w.ops, q, size, granted, sched);
            var dropped := exists o :: ShutOut(s, w.g, q.addr, o);
            && s'.engines.Keys == s.engines.Keys
            && s'.engines[c] == (if Owns(s, w.g, q.addr, c) && !dropped
                                 then s.engines[c].(hostPool := s.engines[c].hostPool + [q]) else s.engines[c])
            && s'.mono.pending == s.mono.pending +
                 if dropped then [] else [q.(id := Some(s.mono.nextId), issueTime := Some(s.clock))]
  {
    hide KindOf; hide Owns; hide CfgOf; hide ShutOut;
    OwnerIs(s, w.g, q.addr, c);
    OwnerExists(s.engines, w.g, q.addr);
    DroppedExactly(s, w, q, size);
  }

  /** A new engine: idle, with an unused processor of the kind that was asked for. */
  ghost predicate IsNew(c: Cfg, e: E.Engine, cgoSched: E.Sched) {
    && e.hostPool == [] && e.hostDone == [] && e.cmdQueue == [] && e.cmdDone == [] && e.portal == EMPTY_PORTAL
    && e.dram == Dram([], 0, true) && e.clock == 0 && e.mode == E.ServePim && e.next == E.ServePim && !e.firstSwitch
    && e.delay == 0 && e.pauseCycles == 0 && e.resumeCycles == 0 && e.pimWatermark == 0 && e.memWatermark == 0
    && e.pimRec == 0 && e.memRec == 0
    && (c.CgoCfg? ==>
          && e.sched == cgoSched && e.proc.Cgo? && e.proc.boot.st == B.Idle && !e.proc.cpu.started
          && !e.proc.cpu.finished && e.proc.cpu.pause.ready && !e.proc.cpu.pause.requested
          && e.proc.cpu.active == map[] && e.proc.cpu.core.mem == map[] && e.proc.cpu.core.rf.pc == 0)
    && (c.FgoCfg? ==>
          && e.sched == E.HostFgoShare && e.proc.Fgo? && e.proc.pe.imem == [] && e.proc.pe.completed == []
          && !e.proc.pe.latch.valid && !e.proc.pe.allowed && !e.proc.pe.finished && e.proc.pe.st.mem == map[]
          && e.fgoState == E.FgoState.Idle && e.fgoNext == E.ServePim)
  }

  lemma NewIsNew(c: Cfg, cgoSched: E.Sched)
    requires cgoSched == E.CgoOnly || cgoSched == E.HostCgoShare
    ensures IsNew(c, NewFor(c, cgoSched), cgoSched)
  {
  }

  lemma {:induction false} AddedAre(m: Engines, more: seq<Cfg>, cgoSched: E.Sched, c: Cfg)
    requires cgoSched == E.CgoOnly || cgoSched == E.HostCgoShare
    ensures var m' := AddEngines(m, more, cgoSched);
            && (c in m' <==> c in m || c in more)
            && (c in m ==> m'[c] == m[c])
            && (c in more && c !in m ==> IsNew(c, m'[c], cgoSched))
  {
    hide NewFor; hide IsNew;
    if more != [] {
      var n := |more| - 1;
      AddedAre(m, more[..n], cgoSched, c);
      NewIsNew(more[n], cgoSched);
      assert more == more[..n] + [more[n]];
    }
  }

  /** An allocation creates the engines it was granted that do not exist yet, and changes no other. */
  lemma AllocationCreates(s: Sim, w: World, q: DramReq, granted: seq<Cfg>, cgoSched: E.Sched, c: Cfg)
    requires (KindOf(q.addr) == CgoAlloc || KindOf(q.addr) == FgoAlloc) && !q.isRead
    requires cgoSched == E.CgoOnly || cgoSched == E.HostCgoShare
    ensures var s' := Enqueue(s, w.g, w.ops, q, 8, granted, cgoSched);
            && (c in s'.engines <==> c in s.engines || c in granted)
            && (c in s.engines ==> s'.engines[c] == s.engines[c])
            && (c in granted && c !in s.engines ==> IsNew(c, s'.engines[c], cgoSched))
  {
    hide KindOf; hide AddEngines; hide IsNew;
    AddedAre(s.engines, granted, cgoSched, c);
  }
}
