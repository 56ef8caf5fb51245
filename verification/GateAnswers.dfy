/** What the client's gate answers: for each packet and each event, in every state that keeps the
    invariant, the exact conditions of each answer and the change that goes with it, in terms of the
    gates, the packet and what the kernel says. A first admission shows that the answers fit
    together. */
module GateAnswers {
  import opened Basics
  import opened ProbeTable
  import opened Gate
  import opened GateInvariant
  import opened GateRuns

  predicate GateAt(s: State, i: nat, flow: Flow) {
    i < |s.flows| && s.flows[i].Live? && s.flows[i].entry.key == flow
  }

  predicate NoGate(s: State, flow: Flow) {
    forall i | 0 <= i < |s.flows| :: !GateAt(s, i, flow)
  }

  /** The flow's own slot, or a free one if it has none. */
  predicate PlaceAt(s: State, i: nat, flow: Flow) {
    GateAt(s, i, flow) || (NoGate(s, flow) && i < |s.flows| && !s.flows[i].Live?)
  }

  lemma FindsGate(cfg: Config, s: State, i: nat, flow: Flow)
    requires Inv(cfg, s) && GateAt(s, i, flow)
    ensures FindGate(s, flow) == Some(i) == SlotFor(cfg, s, flow)
  {
    GateIsUnique(cfg, s.flows, flow, i);
  }

  lemma FindsNoGate(s: State, flow: Flow)
    requires NoGate(s, flow)
    ensures FindGate(s, flow).None?
  {
    if FindGate(s, flow).Some? {
      assert GateAt(s, FindGate(s, flow).value, flow);
    }
  }

  /** A slot is found exactly if there is a place. */
  lemma SlotAnswer(cfg: Config, s: State, flow: Flow)
    requires Inv(cfg, s)
    ensures var slot := SlotFor(cfg, s, flow);
            && (slot.Some? <==> exists i :: PlaceAt(s, i, flow))
            && (slot.Some? ==> PlaceAt(s, slot.value, flow) && IsSlotFor(cfg, s.flows, slot.value, flow))
            && (slot.None? ==> FindGate(s, flow).None?)
  {
    hide TracksOk, GensOk, OutcomesOk, Conserved, SessionsOk, WellProbed;
    var slot := SlotFor(cfg, s, flow);
    if FindGate(s, flow).Some? {
      assert PlaceAt(s, slot.value, flow);
    } else {
      FullExactly(s.flows, cfg.flowHash(flow));
      assert NoGate(s, flow) by {
        forall i | 0 <= i < |s.flows| ensures !GateAt(s, i, flow) {
          assert !Matches(s.flows[i], HasFlow(flow));
        }
      }
      if slot.Some? {
        assert PlaceAt(s, slot.value, flow);
      } else {
        forall i ensures !PlaceAt(s, i, flow) {
        }
      }
    }
  }

  // ----- verdicts on held packets -----

  /** The verdicts on the packets with these ids, in order, as one block at the end of the history. */
  predicate Verdicts(s: State, t: State, ids: seq<nat>, flow: Flow, accept: bool, sent: nat -> bool, at: nat) {
    && |t.outcomes| == |s.outcomes| + |ids| && s.outcomes <= t.outcomes
    && (forall m | 0 <= m < |ids| ::
          t.outcomes[|s.outcomes| + m] == Judged(ids[m], flow, accept, sent(ids[m]), at))
    && var n := |Unsent(ids, sent)|;
       && t.failed == s.failed + n
       && (if accept then t.dropped == s.dropped && t.accepted == s.accepted + (|ids| - n)
           else t.accepted == s.accepted && t.dropped == s.dropped + (|ids| - n))
  }

  /** The positions of the packets whose verdict cannot be set. */
  function Unsent(ids: seq<nat>, sent: nat -> bool): set<nat> {
    set m | 0 <= m < |ids| && !sent(ids[m])
  }

  lemma {:induction false} CountedUnsent(ids: seq<nat>, sent: nat -> bool)
    ensures |Unsent(ids, sent)| + CountSent(ids, sent) == |ids|
  {
    if ids == [] {
      assert Unsent(ids, sent) == {};
    } else {
      var n := |ids| - 1;
      CountedUnsent(ids[..n], sent);
      UnsentNext(ids, sent);
    }
  }

  lemma UnsentNext(ids: seq<nat>, sent: nat -> bool)
    requires ids != []
    ensures var (n, before) := (|ids| - 1, Unsent(ids[..|ids| - 1], sent));
            n !in before && Unsent(ids, sent) == if sent(ids[n]) then before else before + {n}
  {
  }

  /** finish_held. */
  lemma FinishAnswer(s: State, i: nat, accept: bool, sent: nat -> bool)
    requires i < |s.flows| && s.flows[i].Live?
    ensures var (t, g) := (FinishHeld(s, i, accept, sent), s.flows[i].entry);
            && Verdicts(s, t, g.held, g.key, accept, sent, |s.gens|)
            && t == s.(flows := s.flows[i := Live(g.(held := []))], accepted := t.accepted, dropped := t.dropped,
                       failed := t.failed, outcomes := t.outcomes)
  {
    hide CountSent, Unsent, Judgements;
    CountedUnsent(s.flows[i].entry.held, sent);
  }

  // ----- the decision -----

  /** The session's decision is about the generation this gate is in. */
  predicate Meant(x: Session, g: GateFlow) {
    g.key == x.flow && g.helloSeen && g.lookupKey == x.lookupKey
  }

  /** All that an admission asks for. */
  predicate Ready(cfg: Config, s: State, x: Session, g: GateFlow, k: Kernel) {
    && Meant(x, g) && !s.quarantined && x.reportVerified && (!cfg.mutual || x.clientReportAccepted)
    && g.serverSeen && g.reportKey == x.localKey
    && (!cfg.selector || (k.cookie == Some(g.cookie) && k.deleted))
  }

  /** The gate is settled, its packets get their verdict, and a refusal quarantines the endpoint. */
  predicate Settled(s: State, t: State, i: nat, admit: bool, k: Kernel)
    requires i < |s.flows| && s.flows[i].Live?
  {
    var g := s.flows[i].entry;
    && t.flows == s.flows[i := Live(g.(held := [], phase := if admit then Admitted else Denied, stateNs := k.now,
                                       deadlineNs := 0))]
    && (t.quarantined <==> s.quarantined || !admit)
    && Verdicts(s, t, g.held, g.key, admit, k.sent, |t.gens|)
  }

  /** What becomes of the session and of the gate, if there is one, that the decision is about. */
  ghost predicate Decision(cfg: Config, s: State, t: State, id: nat, k: Kernel)
    requires id < |s.sessions|
  {
    var x := s.sessions[id];
    && t.jobs == s.jobs && t.stopping == s.stopping && |t.sessions| == |s.sessions|
    && t.sessions == s.sessions[id := x.(decisionApplied := true, gateAllowed := t.sessions[id].gateAllowed)]
    && (t.sessions[id].gateAllowed <==>
          exists i | 0 <= i < |s.flows| :: s.flows[i].Live? && Ready(cfg, s, x, s.flows[i].entry, k))
    && (forall i | 0 <= i < |s.flows| && s.flows[i].Live? && Meant(x, s.flows[i].entry) ::
          Settled(s, t, i, Ready(cfg, s, x, s.flows[i].entry, k), k))
    && ((forall i | 0 <= i < |s.flows| && s.flows[i].Live? :: !Meant(x, s.flows[i].entry)) ==>
          t.quarantined && t.flows == s.flows && t.outcomes == s.outcomes
          && t.accepted == s.accepted && t.dropped == s.dropped && t.failed == s.failed)
  }

  /** A decision admits exactly if every condition holds: the flow's live gate is in the session's
      generation, the endpoint is not quarantined, the report and in mutual mode the client report
      passed, the gate saw the session's ServerHello, and with a selector the socket is unchanged and
      the element is deleted. Otherwise the gate is denied; a decision that is about no gate
      only quarantines the endpoint. */
  lemma DecisionAnswer(cfg: Config, s: State, k: Kernel)
    requires Inv(cfg, s) && s.decisions != [] && s.decisions[0] < |s.sessions|
    ensures var t := Step(cfg, s, Decided(k));
            Decision(cfg, s, t, s.decisions[0], k) && t.decisions == s.decisions[1..]
  {
    hide ApplyDecision, Settled, Decision, Inv;
    InvSized(cfg, s);
    var u := s.(decisions := s.decisions[1..]);
    DecisionOn(cfg, s, s.decisions[0], k, u);
  }

  lemma InvSized(cfg: Config, s: State)
    requires Inv(cfg, s)
    ensures |s.flows| == FLOW_CAPACITY
  {
  }

  lemma DecisionOn(cfg: Config, s: State, id: nat, k: Kernel, u: State)
    requires Inv(cfg, s) && id < |s.sessions| && u == s.(decisions := u.decisions)
    ensures var t := ApplyDecision(cfg, u, id, k); Decision(cfg, s, t, id, k) && t.decisions == u.decisions
  {
    hide Inv, Decision, ApplyDecision;
    if i: nat :| i < |s.flows| && s.flows[i].Live? && Meant(s.sessions[id], s.flows[i].entry) {
      MeantDecision(cfg, s, id, k, u, i);
    } else {
      StrayDecision(cfg, s, id, k, u);
    }
  }

  lemma StrayDecision(cfg: Config, s: State, id: nat, k: Kernel, u: State)
    requires id < |s.sessions| && u == s.(decisions := u.decisions)
    requires forall i | 0 <= i < |s.flows| && s.flows[i].Live? :: !Meant(s.sessions[id], s.flows[i].entry)
    ensures var t := ApplyDecision(cfg, u, id, k); Decision(cfg, s, t, id, k) && t.decisions == u.decisions
  {
    hide FindMatch, Concluded, Settled;
    var found := FindGate(s, s.sessions[id].flow);
    assert found.Some? ==> !Meant(s.sessions[id], s.flows[found.value].entry);
  }

  lemma MeantDecision(cfg: Config, s: State, id: nat, k: Kernel, u: State, i: nat)
    requires Inv(cfg, s) && id < |s.sessions| && u == s.(decisions := u.decisions)
    requires i < |s.flows| && s.flows[i].Live? && Meant(s.sessions[id], s.flows[i].entry)
    ensures var t := ApplyDecision(cfg, u, id, k); Decision(cfg, s, t, id, k) && t.decisions == u.decisions
  {
    hide Inv, FindMatch, Concluded, Settled, Quarantined;
    var (x, t) := (s.sessions[id], ApplyDecision(cfg, u, id, k));
    var admit := Ready(cfg, s, x, s.flows[i].entry, k);
    FindsGate(cfg, s, i, x.flow);
    forall j | 0 <= j < |s.flows| && s.flows[j].Live? && Meant(x, s.flows[j].entry) ensures j == i {
      FindsGate(cfg, s, j, x.flow);
    }
    SettledBy(u, i, x, admit, k);
    SameSettled(s, u, Concluded(u, i, x, admit, k), t, i, admit, k);
  }

  lemma SameSettled(s: State, u: State, c: State, t: State, i: nat, admit: bool, k: Kernel)
    requires u == s.(decisions := u.decisions) && t == c.(sessions := t.sessions)
    requires i < |u.flows| && u.flows[i].Live? && Settled(u, c, i, admit, k)
    ensures Settled(s, t, i, admit, k)
  {
  }

  lemma SettledBy(s: State, i: nat, x: Session, admit: bool, k: Kernel)
    requires i < |s.flows| && s.flows[i].Live?
    ensures var t := Concluded(s, i, x, admit, k);
            && Settled(s, t, i, admit, k)
            && t.sessions == s.sessions && t.decisions == s.decisions && t.jobs == s.jobs && t.stopping == s.stopping
  {
    hide FinishHeld, Unsent;
    var g := s.flows[i].entry;
    var q := if admit then s else Quarantined(s);
    var d := q.(gens := q.gens + [if admit then AdmitItem(g, x) else Deny(g.key)]);
    FinishAnswer(d, i, admit, k.sent);
  }

  // ----- packets -----

  predicate Opens(p: Packet) { p.toServer && p.syn && !p.ack }

  predicate Closes(cfg: Config, p: Packet) {
    !Opens(p) && cfg.selector && p.toServer && p.payload == 0 && p.finOrRst
  }

  predicate BringsClientHello(p: Packet) {
    !Opens(p) && p.toServer && p.payload > 0 && p.clientHello.Some?
  }

  predicate BringsServerHello(p: Packet) {
    !p.toServer && p.payload > 0 && p.serverHello.Some?
  }

  /** Everything else of a protected connection. */
  predicate Plain(cfg: Config, p: Packet) {
    !Opens(p) && !Closes(cfg, p) && !BringsClientHello(p) && !BringsServerHello(p)
  }

  /** Nothing but the endpoint's quarantine changed. */
  predicate OnlyQuarantined(s: State, t: State) {
    t.quarantined && t == s.(quarantined := true, gens := t.gens)
  }

  /** Packets of other connections pass untouched, protected ones after the quarantine are dropped. */
  lemma OutsideAnswer(cfg: Config, s: State, p: Packet, k: Kernel)
    requires Inv(cfg, s)
    ensures !p.protected ==> HandlePacket(cfg, s, p, k) == (s, Accept)
    ensures p.protected && s.quarantined ==> HandlePacket(cfg, s, p, k) == (s, Drop)
  {
  }

  /** What is neither hello, opening nor closing. Without a gate only server packets and empty ones
      pass. With one: server packets and empty ones pass, save that on an admitted connection every
      client packet must come from the admitted socket; gated data waits while the gate is undecided
      and holds fewer than 512 packets. */
  lemma PlainAnswer(cfg: Config, s: State, p: Packet, k: Kernel)
    requires Inv(cfg, s) && p.protected && !s.quarantined && Plain(cfg, p)
    ensures var (t, a) := HandlePacket(cfg, s, p, k);
            && (NoGate(s, p.flow) ==> t == s && a == if p.toServer && p.payload > 0 then Drop else Accept)
            && (forall i | 0 <= i < |s.flows| && GateAt(s, i, p.flow) ::
                  var g := s.flows[i].entry;
                  if !p.toServer then t == s && a == Accept
                  else if g.phase == Admitted then
                    if k.cookie == Some(g.cookie) then t == s && a == Authorize else OnlyQuarantined(s, t) && a == Drop
                  else if p.payload == 0 then t == s && a == Accept
                  else if |g.held| >= 512 then OnlyQuarantined(s, t) && a == Drop
                  else
                    && a == Hold
                    && t == s.(flows := s.flows[i := Live(g.(held := g.held + [p.id]))],
                               outcomes := s.outcomes + [Took(p, |s.gens|)]))
  {
    hide TracksOk, GensOk, OutcomesOk, Conserved, SessionsOk, WellProbed, FindMatch;
    if NoGate(s, p.flow) {
      FindsNoGate(s, p.flow);
    } else {
      var i :| 0 <= i < |s.flows| && GateAt(s, i, p.flow);
      FindsGate(cfg, s, i, p.flow);
      NotDenied(cfg, s, i);
      forall j | 0 <= j < |s.flows| && GateAt(s, j, p.flow) ensures j == i {
        FindsGate(cfg, s, j, p.flow);
      }
    }
  }

  /** A new generation in slot i: what its gate held is dropped, and its gate starts afresh. */
  predicate Renewed(cfg: Config, s: State, t: State, i: nat, flow: Flow, now: nat, cookie: nat, hello: Option<Key>,
                    sent: nat -> bool)
  {
    && PlaceAt(s, i, flow)
    && t.flows == s.flows[i := Live(GateFlow(hello.Some?, false, Handshake, flow,
                                             if hello.Some? then hello.value else Key(0), Key(0),
                                             now, now + cfg.timeoutNs, cookie, []))]
    && t.gens == s.gens + [Reset(flow)] && t.quarantined == s.quarantined && t.decisions == s.decisions
    && t.stopping == s.stopping
    && Verdicts(s, t, if s.flows[i].Live? then s.flows[i].entry.held else [], flow, false, sent, |s.gens|)
  }

  lemma ResetAnswer(cfg: Config, s: State, i: nat, flow: Flow, k: Kernel)
    requires Inv(cfg, s) && PlaceAt(s, i, flow)
    ensures var t := ResetGate(cfg, s, i, flow, k);
            && t.flows == s.flows[i := Live(FreshGate(cfg, flow, k.now))] && t.gens == s.gens + [Reset(flow)]
            && t == s.(flows := t.flows, gens := t.gens, accepted := t.accepted, dropped := t.dropped,
                       failed := t.failed, outcomes := t.outcomes)
            && Verdicts(s, t, if s.flows[i].Live? then s.flows[i].entry.held else [], flow, false, k.sent, |s.gens|)
  {
    hide Inv, FinishHeld, Unsent;
    NoVerdicts(s, flow, k.sent);
    if s.flows[i].Live? {
      FinishAnswer(s, i, false, k.sent);
    }
  }

  lemma NoVerdicts(s: State, flow: Flow, sent: nat -> bool)
    ensures Verdicts(s, s, [], flow, false, sent, |s.gens|) && Unsent([], sent) == {}
  {
  }

  /** A SYN is accepted exactly if the kernel knows the connecting socket and the table has a place;
      it starts a new generation. Otherwise the endpoint is quarantined. */
  lemma SynAnswer(cfg: Config, s: State, p: Packet, k: Kernel)
    requires Inv(cfg, s) && p.protected && !s.quarantined && Opens(p)
    ensures var (t, a) := HandlePacket(cfg, s, p, k);
            if k.synCookie.Some? && exists i :: PlaceAt(s, i, p.flow) then
              && a == Accept && t.sessions == s.sessions && t.jobs == s.jobs
              && exists i :: Renewed(cfg, s, t, i, p.flow, k.now, k.synCookie.value, None, k.sent)
            else OnlyQuarantined(s, t) && a == Drop
  {
    hide Inv, FindMatch, PlaceAt, ResetGate, Verdicts;
    InvSized(cfg, s);
    SlotAnswer(cfg, s, p.flow);
    var slot := SlotFor(cfg, s, p.flow);
    if slot.Some? && k.synCookie.Some? {
      ResetAnswer(cfg, s, slot.value, p.flow, k);
      var r := ResetGate(cfg, s, slot.value, p.flow, k);
      var t := HandleSyn(cfg, s, p, k).0;
      SameVerdicts(s, r, t, if s.flows[slot.value].Live? then s.flows[slot.value].entry.held else [], p.flow, k.sent);
      assert Renewed(cfg, s, t, slot.value, p.flow, k.now, k.synCookie.value, None, k.sent);
    }
  }

  lemma SameVerdicts(s: State, r: State, t: State, ids: seq<nat>, flow: Flow, sent: nat -> bool)
    requires t.outcomes == r.outcomes && t.accepted == r.accepted && t.dropped == r.dropped && t.failed == r.failed
    requires Verdicts(s, r, ids, flow, false, sent, |s.gens|)
    ensures Verdicts(s, t, ids, flow, false, sent, |s.gens|)
  {
  }

  /** The closing packet is accepted; the flow's gate, if it has one, goes and what it held is
      dropped. */
  lemma CloseAnswer(cfg: Config, s: State, p: Packet, k: Kernel)
    requires Inv(cfg, s) && p.protected && !s.quarantined && Closes(cfg, p)
    ensures var (t, a) := HandlePacket(cfg, s, p, k);
            && a == Accept && (NoGate(s, p.flow) ==> t == s)
            && (forall i | 0 <= i < |s.flows| && GateAt(s, i, p.flow) ::
                  && t.flows == s.flows[i := Tombstone] && t.gens == s.gens + [Closed(p.flow)]
                  && t.sessions == s.sessions && t.quarantined == s.quarantined
                  && Verdicts(s, t, s.flows[i].entry.held, p.flow, false, k.sent, |s.gens|))
  {
    hide Inv, FindMatch, FinishHeld, Unsent;
    InvSized(cfg, s);
    NoVerdicts(s, p.flow, k.sent);
    if NoGate(s, p.flow) {
      FindsNoGate(s, p.flow);
    } else {
      var i :| 0 <= i < |s.flows| && GateAt(s, i, p.flow);
      FinishAnswer(s, i, false, k.sent);
      forall j | 0 <= j < |s.flows| && GateAt(s, j, p.flow) ensures j == i && FindGate(s, p.flow) == Some(i) {
        FindsGate(cfg, s, i, p.flow);
        FindsGate(cfg, s, j, p.flow);
      }
    }
  }

  /** An unfinished session for the hello. */
  predicate UnderWay(s: State, flow: Flow, key: Key) {
    exists id | 0 <= id < |s.sessions| ::
      !s.sessions[id].finalized && s.sessions[id].flow == flow && s.sessions[id].lookupKey == key
  }

  /** A session is started for the hello, if none is under way and the limit allows it, with a job if the
      queue takes it. */
  predicate Begins(cfg: Config, s: State, t: State, flow: Flow, key: Key) {
    if UnderWay(s, flow, key) || |s.sessions| >= cfg.expected then t.sessions == s.sessions && t.jobs == s.jobs
    else
      && t.sessions == s.sessions + [Session(flow, key, Key(0), Key(0), Report(0), false, false, false, false, false,
                                             false)]
      && t.jobs == s.jobs + if |s.jobs| < 8192 && !s.stopping then [|s.sessions|] else []
  }

  predicate Begun(cfg: Config, s: State, flow: Flow, key: Key) {
    UnderWay(s, flow, key) || (|s.sessions| < cfg.expected && |s.jobs| < 8192 && !s.stopping)
  }

  lemma ObserveAnswer(cfg: Config, s: State, flow: Flow, key: Key)
    ensures var (t, ok) := ObserveHello(cfg, s, flow, key);
            && Begins(cfg, s, t, flow, key) && (ok <==> Begun(cfg, s, flow, key))
            && t == s.(sessions := t.sessions, jobs := t.jobs)
  {
    var found := FindSession(s.sessions, flow, key, |s.sessions|);
    if found.None? {
      forall id | 0 <= id < |s.sessions|
        ensures s.sessions[id].finalized || s.sessions[id].flow != flow || s.sessions[id].lookupKey != key
      {
        assert !IsGeneration(s.sessions[id], flow, key);
      }
    }
  }

  /** The hello repeats the one that began the gate's generation, on the same socket. */
  predicate Repeats(g: GateFlow, key: Key, cookie: nat) {
    g.helloSeen && g.cookie == cookie && g.lookupKey == key
  }

  /** A ClientHello needs the socket and a place, or the endpoint is quarantined. One that repeats the
      gate's own passes and changes nothing. Any other starts a new generation, and passes exactly if
      a session for it is under way or can be started with a job. */
  lemma ClientHelloAnswer(cfg: Config, s: State, p: Packet, k: Kernel)
    requires Inv(cfg, s) && p.protected && !s.quarantined && BringsClientHello(p)
    ensures var ((t, a), key) := (HandlePacket(cfg, s, p, k), p.clientHello.value);
            if k.cookie.None? || !exists i :: PlaceAt(s, i, p.flow) then OnlyQuarantined(s, t) && a == Drop
            else if exists i: nat :: GateAt(s, i, p.flow) && Repeats(s.flows[i].entry, key, k.cookie.value) then
              t == s && a == Accept
            else
              && (a == if Begun(cfg, s, p.flow, key) then Accept else Drop) && Begins(cfg, s, t, p.flow, key)
              && exists i :: Renewed(cfg, s, t, i, p.flow, k.now, k.cookie.value, Some(key), k.sent)
  {
    hide Inv, FindMatch, ResetGate, Verdicts, ObserveHello, Begins, Begun;
    InvSized(cfg, s);
    SlotAnswer(cfg, s, p.flow);
    var (slot, key) := (SlotFor(cfg, s, p.flow), p.clientHello.value);
    if slot.Some? && k.cookie.Some? {
      var i := slot.value;
      forall j | GateAt(s, j, p.flow) ensures j == i {
        FindsGate(cfg, s, j, p.flow);
      }
      if !(s.flows[i].Live? && Repeats(s.flows[i].entry, key, k.cookie.value)) {
        ResetAnswer(cfg, s, i, p.flow, k);
        var r := ResetGate(cfg, s, i, p.flow, k);
        var g := r.flows[i].entry.(cookie := k.cookie.value, helloSeen := true, lookupKey := key);
        var u := SetGate(r, i, g);
        ObserveAnswer(cfg, u, p.flow, key);
        var t := ObserveHello(cfg, u, p.flow, key).0;
        SameSessions(cfg, s, u, t, p.flow, key);
        SameVerdicts(s, r, t, if s.flows[i].Live? then s.flows[i].entry.held else [], p.flow, k.sent);
        assert Renewed(cfg, s, t, i, p.flow, k.now, k.cookie.value, Some(key), k.sent);
      }
    }
  }

  lemma SameSessions(cfg: Config, s: State, u: State, t: State, flow: Flow, key: Key)
    requires u.sessions == s.sessions && u.jobs == s.jobs && u.stopping == s.stopping
    ensures Begins(cfg, u, t, flow, key) ==> Begins(cfg, s, t, flow, key)
    ensures Begun(cfg, u, flow, key) <==> Begun(cfg, s, flow, key)
  {
    assert UnderWay(u, flow, key) <==> UnderWay(s, flow, key);
  }

  /** The session under way for a hello gets the ServerHello's key, unless it has one. */
  predicate Told(s: State, t: State, flow: Flow, lookupKey: Key, key: Key) {
    && |t.sessions| == |s.sessions|
    && (forall id | 0 <= id < |s.sessions| ::
          var x := s.sessions[id];
          t.sessions[id] == if !x.finalized && x.flow == flow && x.lookupKey == lookupKey && !x.hasServerHello
                            then x.(localKey := key, hasServerHello := true) else x)
  }

  lemma TellAnswer(cfg: Config, s: State, flow: Flow, lookupKey: Key, key: Key)
    requires SessionsOk(cfg, s.sessions)
    ensures var t := ObserveServerKey(s, flow, lookupKey, key);
            Told(s, t, flow, lookupKey, key) && t == s.(sessions := t.sessions)
  {
    var found := FindSession(s.sessions, flow, lookupKey, |s.sessions|);
    forall id | 0 <= id < |s.sessions| && IsGeneration(s.sessions[id], flow, lookupKey) ensures found == Some(id) {
      assert found.Some?;
    }
  }

  /** A ServerHello passes exactly if the flow's gate has seen a ClientHello. The first one is kept by
      the gate and by its session, a later one changes nothing. */
  lemma ServerHelloAnswer(cfg: Config, s: State, p: Packet, k: Kernel)
    requires Inv(cfg, s) && p.protected && !s.quarantined && BringsServerHello(p)
    ensures var ((t, a), key) := (HandlePacket(cfg, s, p, k), p.serverHello.value);
            && (a == Accept || a == Drop)
            && (a == Accept <==> exists i: nat :: GateAt(s, i, p.flow) && s.flows[i].entry.helloSeen)
            && (a == Drop ==> t == s)
            && (forall i | 0 <= i < |s.flows| && GateAt(s, i, p.flow) && s.flows[i].entry.helloSeen ::
                  var g := s.flows[i].entry;
                  if g.serverSeen then t == s
                  else
                    && Told(s, t, p.flow, g.lookupKey, key)
                    && t == s.(sessions := t.sessions,
                               flows := s.flows[i := Live(g.(serverSeen := true, phase := ServerHello, stateNs := k.now,
                                                             reportKey := key))]))
  {
    hide TracksOk, GensOk, OutcomesOk, Conserved, WellProbed, FindMatch, ObserveServerKey, Told, SessionOk;
    if NoGate(s, p.flow) {
      FindsNoGate(s, p.flow);
    } else {
      var i :| 0 <= i < |s.flows| && GateAt(s, i, p.flow);
      FindsGate(cfg, s, i, p.flow);
      forall j | GateAt(s, j, p.flow) ensures j == i {
        FindsGate(cfg, s, j, p.flow);
      }
      var g := s.flows[i].entry;
      var u := SetGate(s, i, g.(serverSeen := true, phase := ServerHello, stateNs := k.now,
                                reportKey := p.serverHello.value));
      TellAnswer(cfg, u, p.flow, g.lookupKey, p.serverHello.value);
      SameTold(s, u, ObserveServerKey(u, p.flow, g.lookupKey, p.serverHello.value), p.flow, g.lookupKey,
               p.serverHello.value);
    }
  }

  lemma SameTold(s: State, u: State, t: State, flow: Flow, lookupKey: Key, key: Key)
    requires u.sessions == s.sessions && Told(u, t, flow, lookupKey, key)
    ensures Told(s, t, flow, lookupKey, key)
  {
  }

  /** Each packet is counted once as copied, and as accepted, dropped or held by its own action; what
      passes is logged last. */
  lemma CountAnswer(cfg: Config, s: State, p: Packet, k: Kernel)
    requires Inv(cfg, s)
    ensures var ((t, a), r) := (Callback(cfg, s, p, k), HandlePacket(cfg, s, p, k));
            && (!p.parsed ==> a == Drop && t == s.(copied := s.copied + 1, dropped := s.dropped + 1))
            && (p.parsed ==>
                  && a == r.1 && t.copied == s.copied + 1 && r.0.accepted == s.accepted
                  && t == r.0.(copied := t.copied, accepted := t.accepted, dropped := t.dropped,
                               outcomes := t.outcomes)
                  && t.accepted == s.accepted + (if Passes(a) then 1 else 0)
                  && t.dropped == r.0.dropped + (if a == Drop then 1 else 0)
                  && t.outcomes == r.0.outcomes + if Passes(a) then [Passed(p, |t.gens|)] else [])
  {
    hide TracksOk, GensOk, OutcomesOk, Conserved, SessionsOk, WellProbed, FindMatch, CountSent, FindSession;
    if p.parsed {
      NothingAccepted(cfg, s, p, k);
    }
  }

  /** Handling a packet accepts none of the packets held before, and counts nothing as copied. */
  lemma NothingAccepted(cfg: Config, s: State, p: Packet, k: Kernel)
    requires |s.flows| == FLOW_CAPACITY
    ensures HandlePacket(cfg, s, p, k).0.accepted == s.accepted && HandlePacket(cfg, s, p, k).0.copied == s.copied
  {
    hide FindMatch, FreeSlot, ResetGate, DropHeldAt, ObserveHello, ObserveServerKey;
    var (slot, found) := (SlotFor(cfg, s, p.flow), FindGate(s, p.flow));
    if slot.Some? {
      ResetAcceptsNothing(cfg, s, slot.value, p.flow, k);
      if p.clientHello.Some? && k.cookie.Some? {
        var r := ResetGate(cfg, s, slot.value, p.flow, k);
        var g := r.flows[slot.value].entry.(cookie := k.cookie.value, helloSeen := true,
                                            lookupKey := p.clientHello.value);
        SessionsCountNothing(cfg, SetGate(r, slot.value, g), p.flow, p.clientHello.value);
      }
    }
    if found.Some? {
      DropAcceptsNothing(s, found.value, k.sent);
      if p.serverHello.Some? {
        var g := s.flows[found.value].entry.(serverSeen := true, phase := ServerHello, stateNs := k.now,
                                             reportKey := p.serverHello.value);
        TellingCountsNothing(SetGate(s, found.value, g), p.flow, g.lookupKey, p.serverHello.value);
      }
    }
  }

  lemma DropAcceptsNothing(s: State, i: nat, sent: nat -> bool)
    requires i < |s.flows|
    ensures var t := DropHeldAt(s, i, sent);
            && t.accepted == s.accepted && t.copied == s.copied
            && |t.flows| == |s.flows| && t.flows[i].Live? == s.flows[i].Live?
  {
  }

  lemma ResetAcceptsNothing(cfg: Config, s: State, i: nat, flow: Flow, k: Kernel)
    requires i < |s.flows|
    ensures var t := ResetGate(cfg, s, i, flow, k);
            t.accepted == s.accepted && t.copied == s.copied && |t.flows| == |s.flows| && t.flows[i].Live?
  {
  }

  lemma SessionsCountNothing(cfg: Config, s: State, flow: Flow, key: Key)
    ensures var t := ObserveHello(cfg, s, flow, key).0; t.accepted == s.accepted && t.copied == s.copied
  {
  }

  lemma TellingCountsNothing(s: State, flow: Flow, lookupKey: Key, key: Key)
    ensures var t := ObserveServerKey(s, flow, lookupKey, key); t.accepted == s.accepted && t.copied == s.copied
  {
  }

  // ----- the expiry scan -----

  /** Still undecided at its deadline. */
  predicate Late(g: GateFlow, now: nat) {
    (g.phase == Handshake || g.phase == ServerHello) && g.deadlineNs != 0 && g.deadlineNs <= now
  }

  /** Decided, holding nothing, and unchanged for more than 120 s by the clock modulo 2^64. */
  predicate Settling(g: GateFlow, now: nat) {
    && (g.phase == Admitted || g.phase == Denied) && g.held == []
    && (now < g.stateNs || now > g.stateNs + 120_000_000_000)
  }

  /** A scan happens exactly if the last one was at least 10 ms ago. It denies exactly the late gates,
      quarantining the endpoint exactly if there is one, frees exactly the settled ones, and leaves
      every other cell as it is. */
  lemma ScanAnswer(cfg: Config, s: State, now: nat, sent: nat -> bool)
    requires Inv(cfg, s)
    ensures var t := Step(cfg, s, Scanned(now, sent));
            if s.lastScan <= now < s.lastScan + 10_000_000 then t == s
            else
              && t.lastScan == now && t.sessions == s.sessions && |t.flows| == |s.flows|
              && (t.quarantined <==>
                    s.quarantined || exists j | 0 <= j < |s.flows| :: s.flows[j].Live? && Late(s.flows[j].entry, now))
              && (forall j | 0 <= j < |s.flows| ::
                    var c := s.flows[j];
                    t.flows[j] == if c.Live? && Late(c.entry, now) then
                                    Live(c.entry.(held := [], phase := Denied, deadlineNs := 0, stateNs := now))
                                  else if c.Live? && Settling(c.entry, now) then Tombstone else c)
  {
    hide TracksOk, GensOk, OutcomesOk, Conserved, SessionsOk, WellProbed, ExpireFrom;
    var u := s.(lastScan := now);
    forall j | 0 <= j < |s.flows| {
      ScanCellwise(cfg, u, 0, now, sent, j);
    }
    ScanRest(u, 0, now, sent);
  }

  lemma {:induction false} ScanRest(s: State, i: nat, now: nat, sent: nat -> bool)
    requires i <= |s.flows|
    ensures var t := ExpireFrom(s, i, now, sent);
            && t.lastScan == s.lastScan && t.sessions == s.sessions && |t.flows| == |s.flows|
            && (t.quarantined <==>
                  s.quarantined || exists j | i <= j < |s.flows| :: s.flows[j].Live? && Late(s.flows[j].entry, now))
    decreases |s.flows| - i
  {
    hide CountSent, Judgements;
    if i < |s.flows| {
      var u := ExpireOne(s, i, now, sent);
      assert forall j | i < j < |s.flows| :: u.flows[j] == s.flows[j];
      ScanRest(u, i + 1, now, sent);
    }
  }

  // ----- what the workers write -----

  /** The report is checked exactly if the session exists and has its ServerHello; it passes exactly if
      the response carries the expected key and the report verifies under it. */
  lemma CheckAnswer(cfg: Config, s: State, id: nat, responseKey: Key, clientKey: Key, report: Report, accepted: bool)
    requires |s.flows| == FLOW_CAPACITY
    ensures var t := Step(cfg, s, Checked(id, responseKey, clientKey, report, accepted));
            if id < |s.sessions| && s.sessions[id].hasServerHello then
              var x := s.sessions[id];
              var wanted := if cfg.mutual then cfg.serverReportKey(x.localKey, clientKey) else x.localKey;
              var passes := responseKey == wanted && cfg.verify(report, wanted);
              var y := x.(clientKey := clientKey, report := report, reportVerified := passes,
                          clientReportAccepted := accepted);
              t == s.(sessions := s.sessions[id := y])
            else t == s
  {
  }

  /** Decisions queue while there is room, jobs are taken oldest first, and giving up withdraws the
      admission of one session. */
  lemma QueueAnswer(cfg: Config, s: State, id: nat)
    requires |s.flows| == FLOW_CAPACITY
    ensures Step(cfg, s, Queued(id)) == s.(decisions := s.decisions + if |s.decisions| < 8192 then [id] else [])
    ensures Step(cfg, s, TookJob) == s.(jobs := if s.jobs == [] then [] else s.jobs[1..])
    ensures Step(cfg, s, Stopped) == s.(stopping := true)
    ensures var t := Step(cfg, s, GaveUp(id));
            t == s.(sessions := t.sessions) && |t.sessions| == |s.sessions|
            && forall j | 0 <= j < |s.sessions| ::
                 t.sessions[j] == if j == id then s.sessions[j].(gateAllowed := false) else s.sessions[j]
  {
  }

  /** A finished session is under way no more, and no other session changes. */
  lemma FinishedAnswer(cfg: Config, s: State, id: nat)
    requires |s.flows| == FLOW_CAPACITY && SessionsOk(cfg, s.sessions)
    ensures var t := Step(cfg, s, Finished(id));
            && t == s.(sessions := t.sessions) && |t.sessions| == |s.sessions|
            && (forall j | 0 <= j < |s.sessions| && j != id :: t.sessions[j] == s.sessions[j])
            && (id < |s.sessions| && !s.sessions[id].finalized ==>
                  !UnderWay(t, s.sessions[id].flow, s.sessions[id].lookupKey))
  {
    hide SessionOk;
    if id < |s.sessions| && !s.sessions[id].finalized {
      var (x, t) := (s.sessions[id], Step(cfg, s, Finished(id)));
      forall j | 0 <= j < |t.sessions|
        ensures t.sessions[j].finalized || t.sessions[j].flow != x.flow || t.sessions[j].lookupKey != x.lookupKey
      {
        assert j < id ==> !IsGeneration(s.sessions[j], x.flow, x.lookupKey);
        assert id < j ==> !IsGeneration(x, s.sessions[j].flow, s.sessions[j].lookupKey) || s.sessions[j].finalized;
      }
    }
  }

  // ----- a first admission -----

  /** What the outside brings and reads in one admission: the client's hello, data sent before the
      decision, the server's hello, and what the worker has from the server. */
  datatype Contact = Contact(
    hello: Packet, data: Packet, answer: Packet, kernel: Kernel, clientKey: Key, report: Report, accepted: bool)

  function Wanted(cfg: Config, c: Contact): Key
    requires c.answer.serverHello.Some?
  {
    if cfg.mutual then cfg.serverReportKey(c.answer.serverHello.value, c.clientKey) else c.answer.serverHello.value
  }

  /** The packets belong to one protected flow, and everything the decision depends on is in order. */
  predicate InOrder(cfg: Config, c: Contact) {
    && c.hello.parsed && c.hello.protected && BringsClientHello(c.hello)
    && c.data.parsed && GatedData(c.data) && c.data.flow == c.hello.flow
    && c.answer.parsed && c.answer.protected && BringsServerHello(c.answer) && c.answer.flow == c.hello.flow
    && c.kernel.now > 0 && c.kernel.cookie.Some? && (cfg.selector ==> c.kernel.deleted)
    && cfg.verify(c.report, Wanted(cfg, c)) && (cfg.mutual ==> c.accepted)
  }

  /** The endpoint is open, there is room everywhere, and the hello is new. */
  ghost predicate Welcome(cfg: Config, s: State, c: Contact)
    requires BringsClientHello(c.hello)
  {
    && !s.quarantined && !s.stopping && s.decisions == [] && |s.jobs| < 8192 && |s.sessions| < cfg.expected
    && (exists i :: PlaceAt(s, i, c.hello.flow))
    && !UnderWay(s, c.hello.flow, c.hello.clientHello.value)
    && (forall i: nat | GateAt(s, i, c.hello.flow) :: !s.flows[i].entry.helloSeen)
  }

  function Then(cfg: Config, s: State, ev: Event): State {
    if |s.flows| == FLOW_CAPACITY then Step(cfg, s, ev) else s
  }

  lemma ThenKeeps(cfg: Config, s: State, ev: Event)
    requires Inv(cfg, s) && Allowed(ev)
    ensures |s.flows| == FLOW_CAPACITY && Then(cfg, s, ev) == Step(cfg, s, ev) && Inv(cfg, Then(cfg, s, ev))
  {
    hide Step;
    StepKeeps(cfg, s, ev);
  }

  /** After the client's hello, its early data and the server's hello. */
  function Early(cfg: Config, s: State, c: Contact): State {
    Then(cfg, Then(cfg, s, GotPacket(c.hello, c.kernel)), GotPacket(c.data, c.kernel))
  }

  function Heard(cfg: Config, s: State, c: Contact): State {
    Then(cfg, Early(cfg, s, c), GotPacket(c.answer, c.kernel))
  }

  /** The worker checks the report of session id, queues the decision, and the main thread takes it. */
  function Judgement(cfg: Config, s: State, id: nat, c: Contact): State
    requires c.answer.serverHello.Some?
  {
    var t := Then(cfg, s, Checked(id, Wanted(cfg, c), c.clientKey, c.report, c.accepted));
    Then(cfg, Then(cfg, t, Queued(id)), Decided(c.kernel))
  }

  /** The gate in slot i waits with these packets for the decision on session id, which is told of the
      server's hello exactly if the gate is. */
  predicate Awaits(s: State, i: nat, id: nat, c: Contact, held: seq<nat>)
    requires BringsClientHello(c.hello) && c.kernel.cookie.Some?
  {
    && GateAt(s, i, c.hello.flow) && id < |s.sessions| && !s.quarantined && s.decisions == []
    && var (g, x) := (s.flows[i].entry, s.sessions[id]);
       && g.helloSeen && g.lookupKey == c.hello.clientHello.value && g.cookie == c.kernel.cookie.value
       && g.held == held && (g.phase == Handshake || g.phase == ServerHello)
       && !x.finalized && x.flow == c.hello.flow && x.lookupKey == g.lookupKey && g.serverSeen == x.hasServerHello
       && (g.serverSeen ==> c.answer.serverHello == Some(g.reportKey) == Some(x.localKey))
  }

  lemma HelloOpens(cfg: Config, s: State, c: Contact) returns (i: nat)
    requires Inv(cfg, s) && InOrder(cfg, c) && Welcome(cfg, s, c)
    ensures var u := Then(cfg, s, GotPacket(c.hello, c.kernel));
            && Inv(cfg, u) && Awaits(u, i, |s.sessions|, c, []) && !u.flows[i].entry.serverSeen
            && u.jobs == s.jobs + [|s.sessions|]
  {
    hide Inv, HandlePacket, Callback, Verdicts;
    ThenKeeps(cfg, s, GotPacket(c.hello, c.kernel));
    CountAnswer(cfg, s, c.hello, c.kernel);
    ClientHelloAnswer(cfg, s, c.hello, c.kernel);
    var t := HandlePacket(cfg, s, c.hello, c.kernel).0;
    i :| Renewed(cfg, s, t, i, c.hello.flow, c.kernel.now, c.kernel.cookie.value, c.hello.clientHello, c.kernel.sent);
  }

  /** Data that comes before the decision is held. */
  lemma EarlyDataWaits(cfg: Config, u: State, i: nat, id: nat, c: Contact)
    requires Inv(cfg, u) && InOrder(cfg, c) && Awaits(u, i, id, c, [])
    ensures var v := Then(cfg, u, GotPacket(c.data, c.kernel));
            && Inv(cfg, v) && Awaits(v, i, id, c, [c.data.id]) && v.jobs == u.jobs
            && v.flows[i].entry.serverSeen == u.flows[i].entry.serverSeen
  {
    hide Inv, HandlePacket, Callback;
    ThenKeeps(cfg, u, GotPacket(c.data, c.kernel));
    CountAnswer(cfg, u, c.data, c.kernel);
    PlainAnswer(cfg, u, c.data, c.kernel);
  }

  lemma AnswerIsHeard(cfg: Config, v: State, i: nat, id: nat, c: Contact)
    requires Inv(cfg, v) && InOrder(cfg, c) && Awaits(v, i, id, c, [c.data.id]) && !v.flows[i].entry.serverSeen
    ensures var w := Then(cfg, v, GotPacket(c.answer, c.kernel));
            Inv(cfg, w) && Awaits(w, i, id, c, [c.data.id]) && w.flows[i].entry.serverSeen && w.jobs == v.jobs
  {
    hide Inv, HandlePacket, Callback;
    ThenKeeps(cfg, v, GotPacket(c.answer, c.kernel));
    CountAnswer(cfg, v, c.answer, c.kernel);
    ServerHelloAnswer(cfg, v, c.answer, c.kernel);
  }

  /** After both hellos the gate waits, with the early packet, for a session that has a job. */
  lemma ContactHeard(cfg: Config, s: State, c: Contact) returns (i: nat)
    requires Inv(cfg, s) && InOrder(cfg, c) && Welcome(cfg, s, c)
    ensures var w := Heard(cfg, s, c);
            && Inv(cfg, w) && Awaits(w, i, |s.sessions|, c, [c.data.id]) && w.flows[i].entry.serverSeen
            && w.jobs == s.jobs + [|s.sessions|]
  {
    hide Inv, Then, Welcome, Awaits, InOrder;
    i := HelloOpens(cfg, s, c);
    EarlyDataWaits(cfg, Then(cfg, s, GotPacket(c.hello, c.kernel)), i, |s.sessions|, c);
    AnswerIsHeard(cfg, Early(cfg, s, c), i, |s.sessions|, c);
  }

  /** The gate in slot i is admitted, and its early packet has just been released. */
  predicate Released(t: State, i: nat, id: nat, c: Contact)
    requires BringsClientHello(c.hello) && c.kernel.cookie.Some?
  {
    && GateAt(t, i, c.hello.flow) && !t.quarantined && id < |t.sessions|
    && t.sessions[id].gateAllowed && t.sessions[id].decisionApplied
    && t.sessions[id].lookupKey == c.hello.clientHello.value
    && t.flows[i].entry.phase == Admitted && t.flows[i].entry.cookie == c.kernel.cookie.value
    && t.outcomes != []
    && t.outcomes[|t.outcomes| - 1] == Judged(c.data.id, c.hello.flow, true, c.kernel.sent(c.data.id), |t.gens|)
  }

  /** The checked and queued session has all that an admission asks for. */
  lemma WorkerIsReady(cfg: Config, w: State, i: nat, id: nat, c: Contact)
    requires Inv(cfg, w) && InOrder(cfg, c) && Awaits(w, i, id, c, [c.data.id]) && w.flows[i].entry.serverSeen
    ensures var x := Then(cfg, w, Checked(id, Wanted(cfg, c), c.clientKey, c.report, c.accepted));
            var y := Then(cfg, x, Queued(id));
            && Inv(cfg, y) && y.decisions == [id] && y.flows == w.flows && id < |y.sessions|
            && Ready(cfg, y, y.sessions[id], y.flows[i].entry, c.kernel)
  {
    hide Inv, Step;
    var ev := Checked(id, Wanted(cfg, c), c.clientKey, c.report, c.accepted);
    ThenKeeps(cfg, w, ev);
    CheckAnswer(cfg, w, id, Wanted(cfg, c), c.clientKey, c.report, c.accepted);
    var x := Then(cfg, w, ev);
    ThenKeeps(cfg, x, Queued(id));
    QueueAnswer(cfg, x, id);
  }

  lemma JudgementAdmits(cfg: Config, w: State, i: nat, id: nat, c: Contact)
    requires Inv(cfg, w) && InOrder(cfg, c) && Awaits(w, i, id, c, [c.data.id]) && w.flows[i].entry.serverSeen
    ensures var t := Judgement(cfg, w, id, c); Inv(cfg, t) && Released(t, i, id, c)
  {
    hide Inv, Step, InOrder, Then, Ready;
    WorkerIsReady(cfg, w, i, id, c);
    var x := Then(cfg, w, Checked(id, Wanted(cfg, c), c.clientKey, c.report, c.accepted));
    var y := Then(cfg, x, Queued(id));
    ThenKeeps(cfg, y, Decided(c.kernel));
    DecisionAnswer(cfg, y, c.kernel);
    var t := Judgement(cfg, w, id, c);
    ReadyIsMeant(cfg, y, y.sessions[id], y.flows[i].entry, c.kernel);
    assert t.sessions[id].gateAllowed;
    assert Settled(y, t, i, true, c.kernel);
    assert y.flows[i].entry.held[0] == c.data.id;
  }

  lemma ReadyIsMeant(cfg: Config, s: State, x: Session, g: GateFlow, k: Kernel)
    requires Ready(cfg, s, x, g, k)
    ensures Meant(x, g) && !s.quarantined
  {
  }

  /** From any open state, a new connection in good order is admitted, in both modes and with or without
      a selector: the data that came early is held and then released, and data that comes later
      passes at once. */
  lemma ContactAdmitted(cfg: Config, s: State, c: Contact) returns (i: nat)
    requires Inv(cfg, s) && InOrder(cfg, c) && Welcome(cfg, s, c)
    ensures var t := Judgement(cfg, Heard(cfg, s, c), |s.sessions|, c);
            && Inv(cfg, t) && Released(t, i, |s.sessions|, c)
            && |t.flows| == FLOW_CAPACITY && HandlePacket(cfg, t, c.data, c.kernel) == (t, Authorize)
  {
    hide Inv, Heard, Judgement, HandlePacket, Welcome;
    var id := |s.sessions|;
    i := ContactHeard(cfg, s, c);
    JudgementAdmits(cfg, Heard(cfg, s, c), i, id, c);
    var t := Judgement(cfg, Heard(cfg, s, c), id, c);
    InvSized(cfg, t);
    PlainAnswer(cfg, t, c.data, c.kernel);
  }
}
