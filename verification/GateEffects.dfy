/** What one step of the client's main thread may do to the sessions its control workers share. */
module GateEffects {
  import opened Basics
  import opened ProbeTable
  import opened Gate
  import opened GateInvariant

  /** Some admission in the history was for this lookup key and a ServerHello whose expected report
      key is attest. */
  ghost predicate Certified(cfg: Config, gens: seq<GenItem>, lookupKey: Key, attest: Key) {
    exists k :: 0 <= k < |gens| && gens[k].Admit? && gens[k].lookupKey == lookupKey
                && Expected(cfg, gens[k].reportKey, gens[k].clientKey) == attest
  }

  /** What the worker checked stays as it was. */
  predicate SessionKept(x: Session, y: Session) {
    && x.flow == y.flow && x.lookupKey == y.lookupKey
    && x.reportVerified == y.reportVerified && x.clientKey == y.clientKey && x.report == y.report
    && (x.hasServerHello ==> y.hasServerHello && y.localKey == x.localKey)
  }

  ghost predicate Effect(cfg: Config, s: State, t: State) {
    && s.gens <= t.gens
    && |s.sessions| <= |t.sessions|
    && (forall id | 0 <= id < |s.sessions| :: SessionKept(s.sessions[id], t.sessions[id]))
    && (forall id | 0 <= id < |s.sessions| && t.sessions[id].gateAllowed && !s.sessions[id].gateAllowed ::
          id in s.decisions && s.sessions[id].reportVerified
          && Certified(cfg, t.gens, s.sessions[id].lookupKey,
                       Expected(cfg, s.sessions[id].localKey, s.sessions[id].clientKey)))
    && (forall id | |s.sessions| <= id < |t.sessions| :: !t.sessions[id].gateAllowed && !t.sessions[id].reportVerified)
    && (t.jobs == s.jobs || (t.jobs == s.jobs + [|s.sessions|] && |t.sessions| > |s.sessions|))
    && (t.decisions == s.decisions || (s.decisions != [] && t.decisions == s.decisions[1..]))
  }

  /** Nothing the workers look at changed. */
  predicate Untouched(s: State, t: State) {
    s.gens <= t.gens && t.sessions == s.sessions && t.jobs == s.jobs && t.decisions == s.decisions
  }

  lemma DropHeldUntouched(s: State, i: nat, sent: nat -> bool)
    requires i < |s.flows|
    ensures Untouched(s, DropHeldAt(s, i, sent)) && |DropHeldAt(s, i, sent).flows| == |s.flows|
  {
  }

  lemma PacketEffect(cfg: Config, s: State, p: Packet, k: Kernel)
    requires |s.flows| == FLOW_CAPACITY
    ensures Effect(cfg, s, HandlePacket(cfg, s, p, k).0)
  {
    SynUntouched(cfg, s, p, k);
    CloseUntouched(s, p, k);
    DataUntouched(s, p, k);
    if p.clientHello.Some? {
      ClientHelloEffect(cfg, s, p, p.clientHello.value, k);
    }
    if p.serverHello.Some? {
      ServerHelloEffect(cfg, s, p, p.serverHello.value, k);
    }
    hide HandleSyn, HandleClose, HandleClientHello, HandleServerHello, HandleData, Untouched, Effect;
    UntouchedEffect(cfg, s, s);
    UntouchedEffect(cfg, s, HandleSyn(cfg, s, p, k).0);
    UntouchedEffect(cfg, s, HandleClose(s, p, k).0);
    UntouchedEffect(cfg, s, HandleData(s, p, k).0);
  }

  lemma UntouchedEffect(cfg: Config, s: State, t: State)
    ensures Untouched(s, t) ==> Effect(cfg, s, t)
    ensures Untouched(s, s)
  {
  }

  lemma SynUntouched(cfg: Config, s: State, p: Packet, k: Kernel)
    requires |s.flows| == FLOW_CAPACITY
    ensures Untouched(s, HandleSyn(cfg, s, p, k).0)
  {
    hide Judgements, CountSent, FindGate, FreeSlot;
  }

  lemma CloseUntouched(s: State, p: Packet, k: Kernel)
    ensures Untouched(s, HandleClose(s, p, k).0)
  {
    hide Judgements, CountSent;
  }

  lemma DataUntouched(s: State, p: Packet, k: Kernel)
    ensures Untouched(s, HandleData(s, p, k).0)
  {
  }

  lemma ServerHelloEffect(cfg: Config, s: State, p: Packet, key: Key, k: Kernel)
    ensures Effect(cfg, s, HandleServerHello(s, p, key, k).0)
  {
  }

  lemma UntouchedThen(cfg: Config, s: State, t: State, u: State)
    requires Untouched(s, t) && Effect(cfg, t, u)
    ensures Effect(cfg, s, u)
  {
  }

  lemma ResetUntouched(cfg: Config, s: State, i: nat, flow: Flow, k: Kernel, g: GateFlow)
    requires i < |s.flows|
    ensures Untouched(s, SetGate(ResetGate(cfg, s, i, flow, k), i, g))
  {
  }

  lemma ClientHelloEffect(cfg: Config, s: State, p: Packet, key: Key, k: Kernel)
    requires |s.flows| == FLOW_CAPACITY
    ensures Effect(cfg, s, HandleClientHello(cfg, s, p, key, k).0)
  {
    var r := HandleClientHello(cfg, s, p, key, k).0;
    var slot := SlotFor(cfg, s, p.flow);
    if Untouched(s, r) {
    } else {
      var t := ResetGate(cfg, s, slot.value, p.flow, k);
      var g := t.flows[slot.value].entry.(cookie := k.cookie.value, helloSeen := true, lookupKey := key);
      var u := SetGate(t, slot.value, g);
      ResetUntouched(cfg, s, slot.value, p.flow, k, g);
      ObserveHelloEffect(cfg, u, p.flow, key);
      UntouchedThen(cfg, s, u, r);
    }
  }

  lemma ObserveHelloEffect(cfg: Config, s: State, flow: Flow, key: Key)
    ensures Effect(cfg, s, ObserveHello(cfg, s, flow, key).0)
    ensures ObserveHello(cfg, s, flow, key).0.gens == s.gens
  {
  }

  /** A decision sets gateAllowed only together with the admission it is for. */
  lemma DecisionEffect(cfg: Config, s: State, id: nat, k: Kernel)
    requires id < |s.sessions|
    ensures var t := ApplyDecision(cfg, s, id, k);
            && s.gens <= t.gens && t.jobs == s.jobs && t.decisions == s.decisions && |t.sessions| == |s.sessions|
            && (forall j | 0 <= j < |s.sessions| && j != id :: t.sessions[j] == s.sessions[j])
            && SessionKept(s.sessions[id], t.sessions[id])
            && (t.sessions[id].gateAllowed ==>
                  s.sessions[id].reportVerified
                  && Certified(cfg, t.gens, s.sessions[id].lookupKey,
                               Expected(cfg, s.sessions[id].localKey, s.sessions[id].clientKey)))
  {
    var t := ApplyDecision(cfg, s, id, k);
    if t.sessions[id].gateAllowed {
      var x := t.gens[|s.gens|];
      assert x.Admit? && x.lookupKey == s.sessions[id].lookupKey;
    }
  }

  lemma {:induction false} ScanUntouched(s: State, i: nat, now: nat, sent: nat -> bool)
    requires i <= |s.flows|
    ensures Untouched(s, ExpireFrom(s, i, now, sent))
    decreases |s.flows| - i
  {
    if i < |s.flows| {
      assert Untouched(s, ExpireOne(s, i, now, sent));
      ScanUntouched(ExpireOne(s, i, now, sent), i + 1, now, sent);
    }
  }

  lemma {:induction false} DrainUntouched(s: State, i: nat, sent: nat -> bool)
    requires i <= |s.flows|
    ensures Untouched(s, DropAllFrom(s, i, sent))
    decreases |s.flows| - i
  {
    if i < |s.flows| {
      DropHeldUntouched(s, i, sent);
      DrainUntouched(DropHeldAt(s, i, sent), i + 1, sent);
    }
  }

  lemma DecidedEffect(cfg: Config, s: State, k: Kernel)
    requires |s.flows| == FLOW_CAPACITY
    ensures Effect(cfg, s, Step(cfg, s, Decided(k)))
  {
    if s.decisions != [] && s.decisions[0] < |s.sessions| {
      DecisionEffect(cfg, s.(decisions := s.decisions[1..]), s.decisions[0], k);
    }
  }

  lemma MainThreadEffect(cfg: Config, s: State, ev: Event)
    requires |s.flows| == FLOW_CAPACITY
    requires ev.GotPacket? || ev.Decided? || ev.Scanned? || ev.Drained? || ev.Stopped?
    ensures Effect(cfg, s, Step(cfg, s, ev))
  {
    match ev
    case GotPacket(p, k) =>
      hide Effect, HandlePacket;
      PacketEffect(cfg, s, p, k);
      CountedEffect(cfg, s, p, k);
    case Decided(k) => DecidedEffect(cfg, s, k);
    case Scanned(now, sent) => ScanUntouched(s.(lastScan := now), 0, now, sent);
    case Drained(sent) => DrainUntouched(s, 0, sent);
    case Stopped =>
  }

  /** Counting a packet touches nothing else. */
  lemma CountedEffect(cfg: Config, s: State, p: Packet, k: Kernel)
    requires |s.flows| == FLOW_CAPACITY && Effect(cfg, s, HandlePacket(cfg, s, p, k).0)
    ensures Effect(cfg, s, Callback(cfg, s, p, k).0)
  {
    hide HandlePacket;
  }
}
