/** The client agent's gate itself: the table of gates as an array probed and written in place, the
    session list, the two ring queues and the packet counters, with the loops of the C code. Every
    method is proved to take exactly the step the state machine of module Gate takes. */
module GateAgent {
  import opened Basics
  import opened ProbeTable
  import opened JobRing
  import opened Gate
  import opened GateInvariant

  class Agent {
    const cfg: Config
    const flows: array<Cell<GateFlow>>
    const jobs: Ring<nat>
    const decisions: Ring<nat>
    var sessions: seq<Session>
    var quarantined: bool
    var stopping: bool
    var copied: nat
    var accepted: nat
    var dropped: nat
    var failed: nat
    var lastScan: nat
    ghost var gens: seq<GenItem>
    ghost var outcomes: seq<Outcome>

    ghost predicate Shape()
      reads this, jobs, jobs.data, decisions, decisions.data
    {
      && flows.Length == FLOW_CAPACITY
      && jobs.Valid() && jobs.data.Length == QUEUE_CAPACITY
      && decisions.Valid() && decisions.data.Length == QUEUE_CAPACITY
      && jobs != decisions && jobs.data != decisions.data
      && flows as object != jobs.data && flows as object != decisions.data
    }

    ghost function Abs(): State
      reads this, flows, jobs, jobs.data, decisions, decisions.data
      requires Shape()
    {
      State(flows[..], sessions, jobs.Contents(), decisions.Contents(), quarantined, stopping,
            copied, accepted, dropped, failed, lastScan, gens, outcomes)
    }

    ghost predicate Valid()
      reads this, flows, jobs, jobs.data, decisions, decisions.data
    {
      Shape() && Inv(cfg, Abs())
    }

    constructor (cfg: Config)
      ensures Valid() && this.cfg == cfg && Abs() == Init()
      ensures fresh(flows) && fresh(jobs) && fresh(jobs.data) && fresh(decisions) && fresh(decisions.data)
    {
      this.cfg := cfg;
      flows := new Cell<GateFlow>[FLOW_CAPACITY](_ => Vacant);
      jobs := new Ring<nat>(QUEUE_CAPACITY, 0);
      decisions := new Ring<nat>(QUEUE_CAPACITY, 0);
      sessions, quarantined, stopping := [], false, false;
      copied, accepted, dropped, failed, lastScan := 0, 0, 0, 0, 0;
      gens, outcomes := [], [];
      new;
      assert flows[..] == Init().flows;
      InitOk(cfg);
    }

    /** gate_flow_find. */
    method GateFlowFind(flow: Flow) returns (r: Option<nat>)
      requires Valid()
      ensures r == FindGate(Abs(), flow)
    {
      CoveredBySameHome(flows[..], GateHome(cfg), cfg.flowHash(flow), HasFlow(flow));
      r := ProbeFirst(flows, cfg.flowHash(flow), HasFlow(flow));
      if r.Some? {
        GateIsUnique(cfg, flows[..], flow, r.value);
      }
    }

    /** gate_flow_slot. */
    method GateFlowSlot(flow: Flow) returns (r: Option<nat>)
      requires Valid()
      ensures r == SlotFor(cfg, Abs(), flow)
    {
      CoveredBySameHome(flows[..], GateHome(cfg), cfg.flowHash(flow), HasFlow(flow));
      var found;
      found, r := ProbeMatchOrFree(flows, cfg.flowHash(flow), HasFlow(flow));
      if found {
        GateIsUnique(cfg, flows[..], flow, r.value);
      }
    }

    method QuarantineEndpoint()
      requires Shape()
      modifies `quarantined, `gens
      ensures Shape() && Abs() == Quarantined(old(Abs()))
    {
      if !quarantined {
        quarantined := true;
        gens := gens + [Quarantine];
      }
    }

    /** The loop of finish_held: a verdict that cannot be set is not counted as given. */
    method JudgeHeld(held: seq<nat>, accept: bool, sent: nat -> bool)
      modifies `accepted, `dropped, `failed
      ensures accepted == old(accepted) + if accept then CountSent(held, sent) else 0
      ensures dropped == old(dropped) + if accept then 0 else CountSent(held, sent)
      ensures failed == old(failed) + (|held| - CountSent(held, sent))
    {
      var index := 0;
      while index < |held|
        invariant 0 <= index <= |held|
        invariant accepted == old(accepted) + if accept then CountSent(held[..index], sent) else 0
        invariant dropped == old(dropped) + if accept then 0 else CountSent(held[..index], sent)
        invariant failed == old(failed) + (index - CountSent(held[..index], sent))
      {
        assert held[..index + 1][..index] == held[..index];
        if !sent(held[index]) {
          failed := failed + 1;
        } else if accept {
          accepted := accepted + 1;
        } else {
          dropped := dropped + 1;
        }
        index := index + 1;
      }
      assert held[..index] == held;
    }

    /** finish_held. */
    method FinishHeldAt(i: nat, accept: bool, sent: nat -> bool)
      requires Shape() && i < flows.Length && flows[i].Live?
      modifies flows, `accepted, `dropped, `failed, `outcomes
      ensures Shape() && Abs() == FinishHeld(old(Abs()), i, accept, sent)
    {
      hide jobs.Contents, decisions.Contents, Judgements, CountSent;
      var gate := flows[i].entry;
      JudgeHeld(gate.held, accept, sent);
      outcomes := outcomes + Judgements(gate.held, gate.key, accept, sent, |gens|);
      flows[i] := Live(gate.(held := []));
      assert flows[..] == old(flows[..])[i := Live(gate.(held := []))];
    }

    /** The guard in front of every finish_held that drops. */
    method DropHeld(i: nat, sent: nat -> bool)
      requires Shape() && i < flows.Length
      modifies flows, `accepted, `dropped, `failed, `outcomes
      ensures Shape() && Abs() == DropHeldAt(old(Abs()), i, sent)
    {
      if flows[i].Live? && flows[i].entry.held != [] {
        FinishHeldAt(i, false, sent);
      }
    }

    /** drop_all_held. */
    method DropAllHeld(sent: nat -> bool)
      requires Valid()
      modifies flows, `accepted, `dropped, `failed, `outcomes
      ensures Valid() && Abs() == DropAllFrom(old(Abs()), 0, sent)
    {
      DropAllKeeps(cfg, Abs(), 0, sent);
      var index := 0;
      while index < flows.Length
        invariant 0 <= index <= flows.Length && Shape()
        invariant DropAllFrom(Abs(), index, sent) == DropAllFrom(old(Abs()), 0, sent)
      {
        DropHeld(index, sent);
        index := index + 1;
      }
    }

    /** reset_gate_flow. */
    method ResetGateFlow(i: nat, flow: Flow, k: Kernel)
      requires Shape() && i < flows.Length
      modifies flows, `accepted, `dropped, `failed, `outcomes, `gens
      ensures Shape() && Abs() == ResetGate(cfg, old(Abs()), i, flow, k)
    {
      DropHeld(i, k.sent);
      ghost var t := Abs();
      flows[i] := Live(FreshGate(cfg, flow, k.now));
      gens := gens + [Reset(flow)];
      assert flows[..] == t.flows[i := Live(FreshGate(cfg, flow, k.now))];
    }

    method CloseGateAt(i: nat)
      requires Shape() && i < flows.Length && flows[i].Live?
      modifies flows, `gens
      ensures Shape() && Abs() == CloseGate(old(Abs()), i)
    {
      gens := gens + [Closed(flows[i].entry.key)];
      flows[i] := Tombstone;
      assert flows[..] == old(flows[..])[i := Tombstone];
    }

    method WriteGate(i: nat, g: GateFlow)
      requires Shape() && i < flows.Length
      modifies flows
      ensures Shape() && Abs() == SetGate(old(Abs()), i, g)
    {
      flows[i] := Live(g);
      assert flows[..] == old(flows[..])[i := Live(g)];
    }

    /** find_generation: the session list is searched newest first. */
    method FindGeneration(flow: Flow, key: Key) returns (r: Option<nat>)
      ensures r == FindSession(sessions, flow, key, |sessions|)
    {
      var n := |sessions|;
      while n > 0
        invariant 0 <= n <= |sessions|
        invariant FindSession(sessions, flow, key, |sessions|) == FindSession(sessions, flow, key, n)
      {
        if IsGeneration(sessions[n - 1], flow, key) {
          return Some(n - 1);
        }
        n := n - 1;
      }
      return None;
    }

    /** client_observe_hello. */
    method ClientObserveHello(flow: Flow, key: Key) returns (ok: bool)
      requires Shape()
      modifies `sessions, jobs, jobs.data
      ensures Shape() && (Abs(), ok) == ObserveHello(cfg, old(Abs()), flow, key)
    {
      hide FindSession, jobs.Contents;
      var found := FindGeneration(flow, key);
      if found.Some? {
        return true;
      }
      if |sessions| >= cfg.expected {
        return false;
      }
      sessions := sessions + [NewSession(flow, key)];
      ok := QueueJob(|sessions| - 1);
    }

    /** enqueue_job. */
    method QueueJob(id: nat) returns (ok: bool)
      requires Shape()
      modifies jobs, jobs.data
      ensures Shape() && ok == (!stopping && |old(Abs()).jobs| < QUEUE_CAPACITY)
      ensures Abs() == if ok then old(Abs()).(jobs := old(Abs()).jobs + [id]) else old(Abs())
    {
      hide jobs.Contents;
      ok := false;
      if !stopping {
        ok := jobs.Push(id);
      }
    }

    /** client_observe_server_key. */
    method ClientObserveServerKey(flow: Flow, lookupKey: Key, reportKey: Key)
      requires Shape()
      modifies `sessions
      ensures Shape() && Abs() == ObserveServerKey(old(Abs()), flow, lookupKey, reportKey)
    {
      var found := FindGeneration(flow, lookupKey);
      if found.Some? && !sessions[found.value].hasServerHello {
        sessions := sessions[found.value := sessions[found.value].(localKey := reportKey, hasServerHello := true)];
      }
    }

    method OnSyn(p: Packet, k: Kernel) returns (action: Action)
      requires Valid()
      modifies flows, `accepted, `dropped, `failed, `outcomes, `gens, `quarantined
      ensures Shape() && (Abs(), action) == HandleSyn(cfg, old(Abs()), p, k)
    {
      if k.synCookie.None? {
        QuarantineEndpoint();
        return Drop;
      }
      var slot := GateFlowSlot(p.flow);
      if slot.None? {
        QuarantineEndpoint();
        return Drop;
      }
      ResetGateFlow(slot.value, p.flow, k);
      WriteGate(slot.value, flows[slot.value].entry.(cookie := k.synCookie.value));
      return Accept;
    }

    method OnClose(p: Packet, k: Kernel) returns (action: Action)
      requires Valid()
      modifies flows, `accepted, `dropped, `failed, `outcomes, `gens
      ensures Shape() && (Abs(), action) == HandleClose(old(Abs()), p, k)
    {
      var closing := GateFlowFind(p.flow);
      if closing.Some? {
        DropHeld(closing.value, k.sent);
        CloseGateAt(closing.value);
      }
      return Accept;
    }

    method OnClientHello(p: Packet, key: Key, k: Kernel) returns (action: Action)
      requires Valid()
      modifies flows, `accepted, `dropped, `failed, `outcomes, `gens, `quarantined, `sessions, jobs, jobs.data
      ensures Shape() && (Abs(), action) == HandleClientHello(cfg, old(Abs()), p, key, k)
    {
      hide NewGeneration, Inv;
      if k.cookie.None? {
        QuarantineEndpoint();
        return Drop;
      }
      var slot := GateFlowSlot(p.flow);
      if slot.None? {
        QuarantineEndpoint();
        return Drop;
      }
      var i := slot.value;
      if !flows[i].Live? || !flows[i].entry.helloSeen || flows[i].entry.cookie != k.cookie.value
         || flows[i].entry.lookupKey != key {
        var observed := StartGeneration(i, p.flow, key, k);
        return if observed then Accept else Drop;
      }
      return Accept;
    }

    method StartGeneration(i: nat, flow: Flow, key: Key, k: Kernel) returns (ok: bool)
      requires Shape() && i < flows.Length && k.cookie.Some?
      modifies flows, `accepted, `dropped, `failed, `outcomes, `gens, `sessions, jobs, jobs.data
      ensures Shape() && (Abs(), ok) == NewGeneration(cfg, old(Abs()), i, flow, key, k)
    {
      ResetGateFlow(i, flow, k);
      WriteGate(i, flows[i].entry.(cookie := k.cookie.value, helloSeen := true, lookupKey := key));
      ok := ClientObserveHello(flow, key);
    }

    method OnServerHello(p: Packet, key: Key, k: Kernel) returns (action: Action)
      requires Valid()
      modifies flows, `sessions
      ensures Shape() && (Abs(), action) == HandleServerHello(old(Abs()), p, key, k)
    {
      var found := GateFlowFind(p.flow);
      if found.None? || !flows[found.value].entry.helloSeen {
        return Drop;
      }
      var gate := flows[found.value].entry;
      if !gate.serverSeen {
        WriteGate(found.value, gate.(serverSeen := true, phase := ServerHello, stateNs := k.now, reportKey := key));
        ClientObserveServerKey(p.flow, gate.lookupKey, key);
      }
      return Accept;
    }

    method OnData(p: Packet, k: Kernel) returns (action: Action)
      requires Valid()
      modifies flows, `quarantined, `gens, `outcomes
      ensures Shape() && (Abs(), action) == HandleData(old(Abs()), p, k)
    {
      var found := GateFlowFind(p.flow);
      if found.None? {
        return if p.payload == 0 || !p.toServer then Accept else Drop;
      }
      var gate := flows[found.value].entry;
      if gate.phase == Admitted {
        if !p.toServer {
          return Accept;
        }
        if k.cookie != Some(gate.cookie) {
          QuarantineEndpoint();
          return Drop;
        }
        return Authorize;
      }
      if gate.phase == Denied {
        return Drop;
      }
      if p.payload == 0 || !p.toServer {
        return Accept;
      }
      if |gate.held| >= MAX_HELD {
        QuarantineEndpoint();
        return Drop;
      }
      WriteGate(found.value, gate.(held := gate.held + [p.id]));
      outcomes := outcomes + [Took(p, |gens|)];
      return Hold;
    }

    /** handle_client_packet. */
    method HandleClientPacket(p: Packet, k: Kernel) returns (action: Action)
      requires Valid()
      modifies flows, `accepted, `dropped, `failed, `outcomes, `gens, `quarantined, `sessions, jobs, jobs.data
      ensures Shape() && (Abs(), action) == HandlePacket(cfg, old(Abs()), p, k)
    {
      if !p.protected {
        return Accept;
      }
      if quarantined {
        return Drop;
      }
      if p.toServer && p.syn && !p.ack {
        action := OnSyn(p, k);
      } else if cfg.selector && p.toServer && p.payload == 0 && p.finOrRst {
        action := OnClose(p, k);
      } else if p.toServer && p.payload > 0 && p.clientHello.Some? {
        action := OnClientHello(p, p.clientHello.value, k);
      } else if !p.toServer && p.payload > 0 && p.serverHello.Some? {
        action := OnServerHello(p, p.serverHello.value, k);
      } else {
        action := OnData(p, k);
      }
    }

    /** nfqueue_callback. */
    method NfqueueCallback(p: Packet, k: Kernel) returns (action: Action)
      requires Valid() && k.now > 0
      modifies flows, `copied, `accepted, `dropped, `failed, `outcomes, `gens, `quarantined, `sessions, jobs, jobs.data
      ensures Valid() && (Abs(), action) == Callback(cfg, old(Abs()), p, k)
    {
      hide HandlePacket, jobs.Contents, decisions.Contents;
      ghost var s := Abs();
      CallbackKeeps(cfg, s, p, k);
      action := Drop;
      if p.parsed {
        action := HandleClientPacket(p, k);
      }
      CountPacket(p, action);
      assert Abs() == Callback(cfg, s, p, k).0;
    }

    method CountPacket(p: Packet, action: Action)
      requires Shape()
      modifies `copied, `accepted, `dropped, `outcomes
      ensures Shape() && Abs() == Counted(old(Abs()), p, action)
    {
      hide jobs.Contents, decisions.Contents;
      copied := copied + 1;
      if action == Drop {
        dropped := dropped + 1;
      } else if action != Hold {
        accepted := accepted + 1;
        outcomes := outcomes + [Passed(p, |gens|)];
      }
    }

    /** The end of apply_decision_impl for a gate the decision applies to. */
    method Conclude(i: nat, allow: bool, session: Session, k: Kernel)
      requires Shape() && i < flows.Length && flows[i].Live?
      modifies flows, `accepted, `dropped, `failed, `outcomes, `gens, `quarantined
      ensures Shape() && Abs() == Concluded(old(Abs()), i, session, allow, k)
    {
      var gate := flows[i].entry;
      if !allow {
        QuarantineEndpoint();
      }
      gens := gens + [if allow then AdmitItem(gate, session) else Deny(gate.key)];
      FinishHeldAt(i, allow, k.sent);
      WriteGate(i, gate.(held := [], phase := if allow then Admitted else Denied, stateNs := k.now, deadlineNs := 0));
    }

    /** The conditions of an admission, in the order they are asked. */
    method Admits(session: Session, gate: GateFlow, k: Kernel) returns (allow: bool)
      requires Shape()
      ensures allow == Allows(cfg, Abs(), session, gate, k)
    {
      allow := !quarantined && session.reportVerified && (!cfg.mutual || session.clientReportAccepted)
        && gate.serverSeen && gate.reportKey == session.localKey;
      if allow && cfg.selector {
        allow := k.cookie == Some(gate.cookie);
      }
      if allow && cfg.selector {
        allow := k.deleted;
      }
    }

    /** apply_decision_impl, once the session's gate has been looked up. */
    method Settle(id: nat, found: Option<nat>, k: Kernel)
      requires Shape() && id < |sessions| && found == FindGate(Abs(), sessions[id].flow)
      modifies flows, `accepted, `dropped, `failed, `outcomes, `gens, `quarantined, `sessions
      ensures Shape() && Abs() == ApplyDecision(cfg, old(Abs()), id, k)
    {
      var session := sessions[id];
      var allow := false;
      if found.Some? && flows[found.value].entry.helloSeen && flows[found.value].entry.lookupKey == session.lookupKey {
        allow := Admits(session, flows[found.value].entry, k);
        Conclude(found.value, allow, session, k);
      } else {
        QuarantineEndpoint();
      }
      SetSession(id, session.(gateAllowed := allow, decisionApplied := true));
    }

    method SetSession(id: nat, session: Session)
      requires Shape() && id < |sessions|
      modifies `sessions
      ensures Shape() && Abs() == old(Abs()).(sessions := old(sessions)[id := session])
    {
      sessions := sessions[id := session];
    }

    /** apply_decision_impl. */
    method ApplyDecisionTo(id: nat, k: Kernel)
      requires Valid() && id < |sessions|
      modifies flows, `accepted, `dropped, `failed, `outcomes, `gens, `quarantined, `sessions
      ensures Shape() && Abs() == ApplyDecision(cfg, old(Abs()), id, k)
    {
      var found := GateFlowFind(sessions[id].flow);
      Settle(id, found, k);
    }

    /** drain_decisions, one turn of its loop. */
    method DrainDecision(k: Kernel)
      requires Valid()
      modifies flows, `accepted, `dropped, `failed, `outcomes, `gens, `quarantined, `sessions, decisions
      ensures Valid() && Abs() == DrainOne(cfg, old(Abs()), k)
    {
      ghost var s := Abs();
      StepKeeps(cfg, s, Decided(k));
      var next := decisions.Pop();
      if next.Some? {
        SessionsOnly(cfg, s, s.(decisions := s.decisions[1..]));
        if next.value < |sessions| {
          ApplyDecisionTo(next.value, k);
        }
      }
    }

    /** The body of expire_gate_flows' loop. */
    method ExpireSlot(i: nat, now: nat, sent: nat -> bool)
      requires Shape() && i < flows.Length
      modifies flows, `accepted, `dropped, `failed, `outcomes, `gens, `quarantined
      ensures Shape() && Abs() == ExpireOne(old(Abs()), i, now, sent)
    {
      if !flows[i].Live? {
        return;
      }
      var gate := flows[i].entry;
      if Overdue(gate, now) {
        FinishHeldAt(i, false, sent);
        WriteGate(i, gate.(held := [], phase := Denied, deadlineNs := 0, stateNs := now));
        gens := gens + [Deny(gate.key)];
        QuarantineEndpoint();
      } else if Retired(gate, now) {
        CloseGateAt(i);
      }
    }

    /** expire_gate_flows. */
    method ExpireGateFlows(now: nat, sent: nat -> bool)
      requires Valid()
      modifies flows, `accepted, `dropped, `failed, `outcomes, `gens, `quarantined, `lastScan
      ensures Valid() && Abs() == Expire(old(Abs()), now, sent)
    {
      StepKeeps(cfg, Abs(), Scanned(now, sent));
      if !ScanDue(lastScan, now) {
        return;
      }
      lastScan := now;
      ghost var s := Abs();
      var index := 0;
      while index < flows.Length
        invariant 0 <= index <= flows.Length && Shape()
        invariant ExpireFrom(Abs(), index, now, sent) == ExpireFrom(s, 0, now, sent)
      {
        ExpireSlot(index, now, sent);
        index := index + 1;
      }
    }
  }
}
