/** What every step of the gate keeps: the table of gates, the link between each gate and the last
    thing its generation history says, the soundness of every admission, the quarantine, the
    outcome of every packet and the conservation of held packets. */
module GateInvariant {
  import opened Basics
  import opened ProbeTable
  import opened Gate

  // ----- the table -----

  predicate Open(g: GateFlow) { g.phase == Handshake || g.phase == ServerHello }

  predicate GateOk(g: GateFlow) {
    && |g.held| <= MAX_HELD
    && (g.held != [] ==> Open(g))
    && (Open(g) ==> g.deadlineNs > 0)
    && (g.phase == Admitted ==> g.helloSeen && g.serverSeen)
    && (g.phase != ServerHello ==> g.phase != Handshake || !g.serverSeen)
  }

  ghost predicate TableOk(cfg: Config, flows: seq<Cell<GateFlow>>) {
    && |flows| == FLOW_CAPACITY
    && WellProbed(flows, GateHome(cfg))
    && (forall i | 0 <= i < |flows| && flows[i].Live? :: GateOk(flows[i].entry))
    && (forall i, j | 0 <= i < |flows| && 0 <= j < |flows| && i != j && flows[i].Live? && flows[j].Live? ::
          flows[i].entry.key != flows[j].entry.key)
  }

  /** The slot chosen for a flow: its live gate, or a free cell its probe path reaches. */
  predicate IsSlotFor(cfg: Config, flows: seq<Cell<GateFlow>>, i: nat, flow: Flow)
    requires |flows| == FLOW_CAPACITY
  {
    && i < |flows|
    && (if flows[i].Live? then flows[i].entry.key == flow
        else FindMatch(flows, HasFlow(flow)).None? && FreeSlot(flows, cfg.flowHash(flow)) == Some(i))
  }

  lemma WriteKeepsTable(cfg: Config, flows: seq<Cell<GateFlow>>, i: nat, g: GateFlow)
    requires TableOk(cfg, flows) && IsSlotFor(cfg, flows, i, g.key) && GateOk(g)
    ensures TableOk(cfg, flows[i := Live(g)])
  {
  }

  lemma RemoveKeepsTable(cfg: Config, flows: seq<Cell<GateFlow>>, i: nat)
    requires TableOk(cfg, flows) && i < |flows|
    ensures TableOk(cfg, flows[i := Tombstone])
  {
  }

  /** The search returns the one live gate of the flow. */
  lemma GateIsUnique(cfg: Config, flows: seq<Cell<GateFlow>>, flow: Flow, i: nat)
    requires TableOk(cfg, flows) && i < |flows| && Matches(flows[i], HasFlow(flow))
    ensures FindMatch(flows, HasFlow(flow)) == Some(i)
  {
  }

  lemma FindAfterWrite(cfg: Config, flows: seq<Cell<GateFlow>>, i: nat, g: GateFlow, flow: Flow)
    requires TableOk(cfg, flows) && IsSlotFor(cfg, flows, i, g.key) && TableOk(cfg, flows[i := Live(g)])
    ensures FindMatch(flows[i := Live(g)], HasFlow(flow))
         == if flow == g.key then Some(i) else FindMatch(flows, HasFlow(flow))
  {
    var after := flows[i := Live(g)];
    var x := FindMatch(flows, HasFlow(flow));
    if flow == g.key {
      GateIsUnique(cfg, after, flow, i);
    } else if x.Some? {
      assert Matches(after[x.value], HasFlow(flow));
      GateIsUnique(cfg, after, flow, x.value);
    }
  }

  lemma FindAfterRemoval(cfg: Config, flows: seq<Cell<GateFlow>>, i: nat, flow: Flow)
    requires TableOk(cfg, flows) && i < |flows| && flows[i].Live? && TableOk(cfg, flows[i := Tombstone])
    ensures FindMatch(flows[i := Tombstone], HasFlow(flow))
         == if flow == flows[i].entry.key then None else FindMatch(flows, HasFlow(flow))
  {
    var after := flows[i := Tombstone];
    var x, y := FindMatch(flows, HasFlow(flow)), FindMatch(after, HasFlow(flow));
    if x.Some? && x.value != i {
      assert Matches(after[x.value], HasFlow(flow));
      GateIsUnique(cfg, after, flow, x.value);
    }
  }

  // ----- generations -----

  predicate About(x: GenItem, flow: Flow) { !x.Quarantine? && x.flow == flow }

  /** The last thing the history says about a flow. */
  function LastAbout(gens: seq<GenItem>, flow: Flow): Option<GenItem> {
    if gens == [] then None
    else if About(gens[|gens| - 1], flow) then Some(gens[|gens| - 1])
    else LastAbout(gens[..|gens| - 1], flow)
  }

  lemma LastAboutNext(gens: seq<GenItem>, x: GenItem, flow: Flow)
    ensures LastAbout(gens + [x], flow) == if About(x, flow) then Some(x) else LastAbout(gens, flow)
  {
  }

  /** A gate's state is what the last item of its generation says; an admitted gate still has
      the keys and the cookie it was admitted with. */
  predicate Tracks(gens: seq<GenItem>, g: GateFlow) {
    match LastAbout(gens, g.key)
    case Some(Reset(_)) => Open(g)
    case Some(Admit(_, lookupKey, reportKey, cookie, _, _, _)) =>
      g.phase == Admitted && g.lookupKey == lookupKey && g.reportKey == reportKey && g.cookie == cookie
    case Some(Deny(_)) => g.phase == Denied
    case _ => false
  }

  ghost predicate TracksOk(gens: seq<GenItem>, flows: seq<Cell<GateFlow>>) {
    forall i | 0 <= i < |flows| && flows[i].Live? :: Tracks(gens, flows[i].entry)
  }

  lemma OtherItemKeepsTracks(gens: seq<GenItem>, flows: seq<Cell<GateFlow>>, x: GenItem)
    requires TracksOk(gens, flows) && x.Quarantine?
    ensures TracksOk(gens + [x], flows)
  {
  }

  /** Logging an item about a flow and rewriting its gate go together. */
  lemma WriteKeepsTracks(cfg: Config, gens: seq<GenItem>, flows: seq<Cell<GateFlow>>, i: nat, g: GateFlow, x: GenItem)
    requires TableOk(cfg, flows) && TracksOk(gens, flows) && IsSlotFor(cfg, flows, i, g.key)
    requires About(x, g.key) && Tracks([x], g)
    ensures TracksOk(gens + [x], flows[i := Live(g)])
  {
  }

  lemma RemoveKeepsTracks(cfg: Config, gens: seq<GenItem>, flows: seq<Cell<GateFlow>>, i: nat)
    requires TableOk(cfg, flows) && TracksOk(gens, flows) && i < |flows| && flows[i].Live?
    ensures TracksOk(gens + [Closed(flows[i].entry.key)], flows[i := Tombstone])
  {
  }

  /** A change that leaves an open gate open. */
  lemma AmendKeepsTracks(gens: seq<GenItem>, flows: seq<Cell<GateFlow>>, i: nat, g: GateFlow)
    requires TracksOk(gens, flows) && i < |flows| && flows[i].Live? && flows[i].entry.key == g.key
    requires Open(g) && Open(flows[i].entry)
    ensures TracksOk(gens, flows[i := Live(g)])
  {
  }

  /** Every admission rests on a report that verifies under the key expected for the gate's
      ServerHello (and, in mutual mode, on an accepted client report). */
  predicate AdmitSound(cfg: Config, x: GenItem) {
    x.Admit? ==> cfg.verify(x.report, Expected(cfg, x.reportKey, x.clientKey)) && (cfg.mutual ==> x.accepted)
  }

  ghost predicate QuarantinedBefore(gens: seq<GenItem>, n: nat)
    requires n <= |gens|
  {
    exists k :: 0 <= k < n && gens[k] == Quarantine
  }

  /** The quarantine is absorbing: after it generations only end, and nothing was ever denied
      without it. */
  ghost predicate GensOk(cfg: Config, gens: seq<GenItem>, quarantined: bool) {
    && (forall k | 0 <= k < |gens| :: AdmitSound(cfg, gens[k]))
    && (quarantined <==> QuarantinedBefore(gens, |gens|))
    && (forall k | 0 <= k < |gens| && gens[k].Deny? :: quarantined)
    && (forall k, l | 0 <= k < l < |gens| && gens[k] == Quarantine :: gens[l].Deny? || gens[l].Closed?)
  }

  lemma QuarantineKeepsGens(cfg: Config, gens: seq<GenItem>, quarantined: bool)
    requires GensOk(cfg, gens, quarantined) && !quarantined
    ensures GensOk(cfg, gens + [Quarantine], true)
  {
    assert (gens + [Quarantine])[|gens|] == Quarantine;
    forall k | 0 <= k < |gens| ensures gens[k] != Quarantine {
      assert gens[k] == Quarantine ==> QuarantinedBefore(gens, |gens|);
    }
  }

  lemma ItemKeepsGens(cfg: Config, gens: seq<GenItem>, quarantined: bool, x: GenItem)
    requires GensOk(cfg, gens, quarantined) && AdmitSound(cfg, x) && !x.Quarantine?
    requires if quarantined then x.Deny? || x.Closed? else !x.Deny?
    ensures GensOk(cfg, gens + [x], quarantined)
  {
    var more := gens + [x];
    if quarantined {
      var k :| 0 <= k < |gens| && gens[k] == Quarantine;
      assert more[k] == Quarantine;
    } else {
      forall k | 0 <= k < |more| ensures more[k] != Quarantine {
        assert !QuarantinedBefore(gens, |gens|);
      }
    }
  }

  // ----- outcomes -----

  /** A client packet that must wait for admission: protected payload that neither opens a
      connection nor carries a ClientHello. */
  predicate GatedData(p: Packet) {
    p.protected && p.toServer && p.payload > 0 && !(p.syn && !p.ack) && p.clientHello.None?
  }

  /** Only gated data of an open generation is held, what a gate holds is released only by its own
      admission, gated data passes only while its flow's current generation is admitted, and none
      of this happens after the quarantine. */
  ghost predicate OutcomeOk(gens: seq<GenItem>, o: Outcome) {
    match o
    case Took(p, at) =>
      && at <= |gens| && GatedData(p) && !QuarantinedBefore(gens, at)
      && LastAbout(gens[..at], p.flow) == Some(Reset(p.flow))
    case Judged(_, flow, accept, _, at) =>
      accept ==> 0 < at <= |gens| && gens[at - 1].Admit? && gens[at - 1].flow == flow && !QuarantinedBefore(gens, at)
    case Passed(p, at) =>
      && at <= |gens|
      && (p.parsed && p.protected ==> !QuarantinedBefore(gens, at))
      && (p.parsed && GatedData(p) ==>
            LastAbout(gens[..at], p.flow).Some? && LastAbout(gens[..at], p.flow).value.Admit?)
  }

  ghost predicate OutcomesOk(gens: seq<GenItem>, outcomes: seq<Outcome>) {
    forall k | 0 <= k < |outcomes| :: OutcomeOk(gens, outcomes[k])
  }

  lemma LaterItemsKeepOutcomes(gens: seq<GenItem>, x: GenItem, outcomes: seq<Outcome>)
    requires OutcomesOk(gens, outcomes)
    ensures OutcomesOk(gens + [x], outcomes)
  {
    forall k | 0 <= k < |outcomes| ensures OutcomeOk(gens + [x], outcomes[k]) {
      assert OutcomeOk(gens, outcomes[k]);
      if !outcomes[k].Judged? {
        assert (gens + [x])[..outcomes[k].at] == gens[..outcomes[k].at];
      }
    }
  }

  lemma JudgementsKeepOutcomes(gens: seq<GenItem>, outcomes: seq<Outcome>, ids: seq<nat>, flow: Flow, accept: bool,
                               sent: nat -> bool, at: nat)
    requires OutcomesOk(gens, outcomes)
    requires accept ==>
               0 < at <= |gens| && gens[at - 1].Admit? && gens[at - 1].flow == flow && !QuarantinedBefore(gens, at)
    ensures OutcomesOk(gens, outcomes + Judgements(ids, flow, accept, sent, at))
  {
  }

  // ----- conservation -----

  function Occurrences(ids: seq<nat>, id: nat): nat {
    if ids == [] then 0 else Occurrences(ids[..|ids| - 1], id) + if ids[|ids| - 1] == id then 1 else 0
  }

  function HowOften(id: nat): seq<nat> -> nat { (ids: seq<nat>) => Occurrences(ids, id) }

  function HowMany(): seq<nat> -> nat { (ids: seq<nat>) => |ids| }

  function Load(c: Cell<GateFlow>, w: seq<nat> -> nat): nat {
    if c.Live? then w(c.entry.held) else 0
  }

  /** The sum of w over what the first n gates hold. */
  function Held(flows: seq<Cell<GateFlow>>, w: seq<nat> -> nat, n: nat): nat
    requires n <= |flows|
  {
    if n == 0 then 0 else Held(flows, w, n - 1) + Load(flows[n - 1], w)
  }

  lemma {:induction false} HeldAfterWrite(flows: seq<Cell<GateFlow>>, w: seq<nat> -> nat, i: nat, c: Cell<GateFlow>,
                                          n: nat)
    requires i < |flows| && n <= |flows|
    ensures Held(flows[i := c], w, n) + (if i < n then Load(flows[i], w) else 0)
         == Held(flows, w, n) + (if i < n then Load(c, w) else 0)
  {
    if n > 0 {
      HeldAfterWrite(flows, w, i, c, n - 1);
    }
  }

  /** How often a packet id was put on hold. */
  function TimesHeld(outcomes: seq<Outcome>, id: nat): nat {
    if outcomes == [] then 0
    else
      var o := outcomes[|outcomes| - 1];
      TimesHeld(outcomes[..|outcomes| - 1], id) + if o.Took? && o.packet.id == id then 1 else 0
  }

  /** How often a held packet id was given a verdict. */
  function TimesJudged(outcomes: seq<Outcome>, id: nat): nat {
    if outcomes == [] then 0
    else
      var o := outcomes[|outcomes| - 1];
      TimesJudged(outcomes[..|outcomes| - 1], id) + if o.Judged? && o.id == id then 1 else 0
  }

  lemma OneMoreOutcome(outcomes: seq<Outcome>, o: Outcome, id: nat)
    ensures TimesHeld(outcomes + [o], id) == TimesHeld(outcomes, id) + if o.Took? && o.packet.id == id then 1 else 0
    ensures TimesJudged(outcomes + [o], id) == TimesJudged(outcomes, id) + if o.Judged? && o.id == id then 1 else 0
  {
  }

  lemma {:induction false} MoreJudgements(outcomes: seq<Outcome>, ids: seq<nat>, flow: Flow, accept: bool,
                                          sent: nat -> bool,
                                          at: nat, id: nat)
    ensures TimesHeld(outcomes + Judgements(ids, flow, accept, sent, at), id) == TimesHeld(outcomes, id)
    ensures TimesJudged(outcomes + Judgements(ids, flow, accept, sent, at), id)
         == TimesJudged(outcomes, id) + Occurrences(ids, id)
  {
    if ids == [] {
      assert outcomes + Judgements(ids, flow, accept, sent, at) == outcomes;
    } else {
      var n := |ids| - 1;
      MoreJudgements(outcomes, ids[..n], flow, accept, sent, at, id);
      var last := Judged(ids[n], flow, accept, sent(ids[n]), at);
      assert outcomes + Judgements(ids, flow, accept, sent, at)
          == outcomes + Judgements(ids[..n], flow, accept, sent, at) + [last];
      OneMoreOutcome(outcomes + Judgements(ids[..n], flow, accept, sent, at), last, id);
    }
  }

  /** Every packet put on hold is held still or has been judged, exactly once for each time it was
      put on hold. */
  ghost predicate IdsConserved(flows: seq<Cell<GateFlow>>, outcomes: seq<Outcome>) {
    forall id: nat :: TimesHeld(outcomes, id) == TimesJudged(outcomes, id) + Held(flows, HowOften(id), |flows|)
  }

  /** And every copied packet is accepted, dropped, held, or was held and could not be given its
      verdict. */
  ghost predicate Conserved(s: State) {
    && IdsConserved(s.flows, s.outcomes)
    && s.copied == s.accepted + s.dropped + Held(s.flows, HowMany(), |s.flows|) + s.failed
  }

  // ----- sessions -----

  predicate SessionOk(cfg: Config, x: Session) {
    x.reportVerified ==> x.hasServerHello && cfg.verify(x.report, Expected(cfg, x.localKey, x.clientKey))
  }

  ghost predicate SessionsOk(cfg: Config, sessions: seq<Session>) {
    && (forall k | 0 <= k < |sessions| :: SessionOk(cfg, sessions[k]))
    && (forall k, l | 0 <= k < l < |sessions| ::
          !(IsGeneration(sessions[k], sessions[l].flow, sessions[l].lookupKey) && !sessions[l].finalized))
  }

  ghost predicate Inv(cfg: Config, s: State) {
    && TableOk(cfg, s.flows)
    && TracksOk(s.gens, s.flows)
    && GensOk(cfg, s.gens, s.quarantined)
    && OutcomesOk(s.gens, s.outcomes)
    && Conserved(s)
    && SessionsOk(cfg, s.sessions)
    && |s.sessions| <= cfg.expected
  }

  // ----- every step keeps the invariant -----

  lemma {:induction false} NothingHeldInEmpty(w: seq<nat> -> nat, n: nat, k: nat)
    requires k <= n
    ensures Held(Empty(n), w, k) == 0
  {
    if k > 0 {
      NothingHeldInEmpty(w, n, k - 1);
    }
  }

  lemma InitOk(cfg: Config)
    ensures Inv(cfg, Init())
  {
    forall w: seq<nat> -> nat {
      NothingHeldInEmpty(w, FLOW_CAPACITY, FLOW_CAPACITY);
    }
  }

  lemma QuarantinedKeeps(cfg: Config, s: State)
    requires Inv(cfg, s)
    ensures Inv(cfg, Quarantined(s))
  {
    if !s.quarantined {
      OtherItemKeepsTracks(s.gens, s.flows, Quarantine);
      QuarantineKeepsGens(cfg, s.gens, s.quarantined);
      LaterItemsKeepOutcomes(s.gens, Quarantine, s.outcomes);
    }
  }

  /** Dropping what a gate holds. */
  lemma DropHeldKeeps(cfg: Config, s: State, i: nat, sent: nat -> bool)
    requires Inv(cfg, s) && i < |s.flows|
    ensures Inv(cfg, DropHeldAt(s, i, sent))
    ensures var t := DropHeldAt(s, i, sent);
            && |t.flows| == |s.flows| && t.gens == s.gens && t.quarantined == s.quarantined && t.sessions == s.sessions
            && t.flows == if s.flows[i].Live? then s.flows[i := Live(s.flows[i].entry.(held := []))] else s.flows
  {
    if s.flows[i].Live? {
      var g := s.flows[i].entry;
      if g.held != [] {
        var after := g.(held := []);
        WriteKeepsTable(cfg, s.flows, i, after);
        AmendKeepsTracks(s.gens, s.flows, i, after);
        JudgementsKeepOutcomes(s.gens, s.outcomes, g.held, g.key, false, sent, |s.gens|);
        FinishConserves(s, i, false, sent);
      } else {
        assert g.(held := []) == g;
        assert s.flows == s.flows[i := Live(g)];
      }
    }
  }

  /** finish_held moves the gate's packets from held to judged. */
  lemma FinishConserves(s: State, i: nat, accept: bool, sent: nat -> bool)
    requires Conserved(s) && i < |s.flows| && s.flows[i].Live?
    ensures Conserved(FinishHeld(s, i, accept, sent))
  {
    var g := s.flows[i].entry;
    var c := Live(g.(held := []));
    HeldAfterWrite(s.flows, HowMany(), i, c, |s.flows|);
    forall id: nat
      ensures TimesHeld(FinishHeld(s, i, accept, sent).outcomes, id)
           == TimesJudged(FinishHeld(s, i, accept, sent).outcomes, id) + Held(s.flows[i := c], HowOften(id), |s.flows|)
    {
      HeldAfterWrite(s.flows, HowOften(id), i, c, |s.flows|);
      MoreJudgements(s.outcomes, g.held, g.key, accept, sent, |s.gens|, id);
      assert TimesHeld(s.outcomes, id) == TimesJudged(s.outcomes, id) + Held(s.flows, HowOften(id), |s.flows|);
    }
  }

  function Holds(c: Cell<GateFlow>): seq<nat> {
    if c.Live? then c.entry.held else []
  }

  /** Writing a cell that holds the same packets. */
  lemma SameHeldConserves(flows: seq<Cell<GateFlow>>, outcomes: seq<Outcome>, i: nat, c: Cell<GateFlow>)
    requires i < |flows| && Holds(flows[i]) == Holds(c)
    ensures IdsConserved(flows, outcomes) ==> IdsConserved(flows[i := c], outcomes)
    ensures Held(flows[i := c], HowMany(), |flows|) == Held(flows, HowMany(), |flows|)
  {
    HeldAfterWrite(flows, HowMany(), i, c, |flows|);
    forall id: nat ensures Held(flows[i := c], HowOften(id), |flows|) == Held(flows, HowOften(id), |flows|) {
      HeldAfterWrite(flows, HowOften(id), i, c, |flows|);
    }
  }

  lemma ResetKeeps(cfg: Config, s: State, i: nat, flow: Flow, k: Kernel)
    requires Inv(cfg, s) && !s.quarantined && IsSlotFor(cfg, s.flows, i, flow) && k.now > 0
    ensures Inv(cfg, ResetGate(cfg, s, i, flow, k))
    ensures var t := ResetGate(cfg, s, i, flow, k);
            && |t.flows| == |s.flows| && t.flows[i] == Live(FreshGate(cfg, flow, k.now)) && t.sessions == s.sessions
  {
    DropHeldKeeps(cfg, s, i, k.sent);
    var t := DropHeldAt(s, i, k.sent);
    var g := FreshGate(cfg, flow, k.now);
    WriteKeepsTable(cfg, t.flows, i, g);
    LastAboutNext([], Reset(flow), flow);
    assert [] + [Reset(flow)] == [Reset(flow)];
    WriteKeepsTracks(cfg, t.gens, t.flows, i, g, Reset(flow));
    ItemKeepsGens(cfg, t.gens, false, Reset(flow));
    LaterItemsKeepOutcomes(t.gens, Reset(flow), t.outcomes);
    SameHeldConserves(t.flows, t.outcomes, i, Live(g));
  }

  lemma CloseKeeps(cfg: Config, s: State, i: nat)
    requires Inv(cfg, s) && i < |s.flows| && s.flows[i].Live? && s.flows[i].entry.held == []
    ensures Inv(cfg, CloseGate(s, i))
  {
    var x := Closed(s.flows[i].entry.key);
    RemoveKeepsTable(cfg, s.flows, i);
    RemoveKeepsTracks(cfg, s.gens, s.flows, i);
    ItemKeepsGens(cfg, s.gens, s.quarantined, x);
    LaterItemsKeepOutcomes(s.gens, x, s.outcomes);
    SameHeldConserves(s.flows, s.outcomes, i, Tombstone);
  }

  /** Rewriting an open gate that stays open and holds the same packets. */
  lemma AmendOpenKeeps(cfg: Config, s: State, i: nat, g: GateFlow)
    requires Inv(cfg, s) && i < |s.flows| && s.flows[i].Live? && s.flows[i].entry.key == g.key
    requires Open(s.flows[i].entry) && Open(g) && GateOk(g) && g.held == s.flows[i].entry.held
    ensures Inv(cfg, SetGate(s, i, g))
  {
    WriteKeepsTable(cfg, s.flows, i, g);
    AmendKeepsTracks(s.gens, s.flows, i, g);
    SameHeldConserves(s.flows, s.outcomes, i, Live(g));
  }

  lemma SynKeeps(cfg: Config, s: State, p: Packet, k: Kernel)
    requires Inv(cfg, s) && !s.quarantined && k.now > 0
    ensures Inv(cfg, HandleSyn(cfg, s, p, k).0)
  {
    QuarantinedKeeps(cfg, s);
    var slot := SlotFor(cfg, s, p.flow);
    if k.synCookie.Some? && slot.Some? {
      ResetKeeps(cfg, s, slot.value, p.flow, k);
      var t := ResetGate(cfg, s, slot.value, p.flow, k);
      AmendOpenKeeps(cfg, t, slot.value, t.flows[slot.value].entry.(cookie := k.synCookie.value));
    }
  }

  lemma SessionsOnly(cfg: Config, s: State, t: State)
    requires Inv(cfg, s) && SessionsOk(cfg, t.sessions) && |t.sessions| <= cfg.expected
    requires t == s.(sessions := t.sessions, jobs := t.jobs, decisions := t.decisions, stopping := t.stopping)
    ensures Inv(cfg, t)
  {
  }

  lemma AppendKeepsSessions(cfg: Config, sessions: seq<Session>, flow: Flow, key: Key)
    requires SessionsOk(cfg, sessions) && FindSession(sessions, flow, key, |sessions|).None?
    ensures SessionsOk(cfg, sessions + [NewSession(flow, key)])
  {
  }

  /** A session keeps its flow and lookup key and, once finished, stays finished. */
  lemma UpdateKeepsSessions(cfg: Config, sessions: seq<Session>, id: nat, x: Session)
    requires SessionsOk(cfg, sessions) && id < |sessions| && SessionOk(cfg, x)
    requires x.flow == sessions[id].flow && x.lookupKey == sessions[id].lookupKey
    requires sessions[id].finalized ==> x.finalized
    ensures SessionsOk(cfg, sessions[id := x])
  {
  }

  lemma ObserveHelloKeeps(cfg: Config, s: State, flow: Flow, key: Key)
    requires Inv(cfg, s)
    ensures Inv(cfg, ObserveHello(cfg, s, flow, key).0)
  {
    if FindSession(s.sessions, flow, key, |s.sessions|).None? && |s.sessions| < cfg.expected {
      AppendKeepsSessions(cfg, s.sessions, flow, key);
      SessionsOnly(cfg, s, ObserveHello(cfg, s, flow, key).0);
    }
  }

  lemma ClientHelloKeeps(cfg: Config, s: State, p: Packet, key: Key, k: Kernel)
    requires Inv(cfg, s) && !s.quarantined && k.now > 0
    ensures Inv(cfg, HandleClientHello(cfg, s, p, key, k).0)
  {
    QuarantinedKeeps(cfg, s);
    var slot := SlotFor(cfg, s, p.flow);
    if k.cookie.Some? && slot.Some? {
      ResetKeeps(cfg, s, slot.value, p.flow, k);
      var t := ResetGate(cfg, s, slot.value, p.flow, k);
      var g := t.flows[slot.value].entry.(cookie := k.cookie.value, helloSeen := true, lookupKey := key);
      AmendOpenKeeps(cfg, t, slot.value, g);
      ObserveHelloKeeps(cfg, SetGate(t, slot.value, g), p.flow, key);
    }
  }

  lemma ObserveServerKeyKeeps(cfg: Config, s: State, flow: Flow, lookupKey: Key, reportKey: Key)
    requires Inv(cfg, s)
    ensures Inv(cfg, ObserveServerKey(s, flow, lookupKey, reportKey))
  {
  }

  lemma ServerHelloKeeps(cfg: Config, s: State, p: Packet, key: Key, k: Kernel)
    requires Inv(cfg, s) && !s.quarantined
    ensures Inv(cfg, HandleServerHello(s, p, key, k).0)
  {
    var found := FindGate(s, p.flow);
    if found.Some? && s.flows[found.value].entry.helloSeen && !s.flows[found.value].entry.serverSeen {
      NotDenied(cfg, s, found.value);
      var g := s.flows[found.value].entry
               .(serverSeen := true, phase := ServerHello, stateNs := k.now, reportKey := key);
      AmendOpenKeeps(cfg, s, found.value, g);
      ObserveServerKeyKeeps(cfg, SetGate(s, found.value, g), p.flow, g.lookupKey, key);
    }
  }

  /** Before the quarantine no gate is denied. */
  lemma NotDenied(cfg: Config, s: State, i: nat)
    requires Inv(cfg, s) && !s.quarantined && i < |s.flows| && s.flows[i].Live?
    ensures s.flows[i].entry.phase != Denied
  {
    var g := s.flows[i].entry;
    assert Tracks(s.gens, g);
    LastAboutIsThere(s.gens, g.key);
  }

  lemma {:induction false} LastAboutIsThere(gens: seq<GenItem>, flow: Flow)
    ensures LastAbout(gens, flow).Some? ==>
              LastAbout(gens, flow).value in gens && About(LastAbout(gens, flow).value, flow)
  {
    if gens != [] {
      LastAboutIsThere(gens[..|gens| - 1], flow);
    }
  }

  lemma HoldConserves(flows: seq<Cell<GateFlow>>, outcomes: seq<Outcome>, i: nat, p: Packet, at: nat)
    requires i < |flows| && flows[i].Live? && IdsConserved(flows, outcomes)
    ensures var g := flows[i].entry;
            var after := flows[i := Live(g.(held := g.held + [p.id]))];
            && IdsConserved(after, outcomes + [Took(p, at)])
            && Held(after, HowMany(), |after|) == Held(flows, HowMany(), |flows|) + 1
  {
    var g := flows[i].entry;
    var c := Live(g.(held := g.held + [p.id]));
    HeldAfterWrite(flows, HowMany(), i, c, |flows|);
    forall x: nat
      ensures TimesHeld(outcomes + [Took(p, at)], x)
           == TimesJudged(outcomes + [Took(p, at)], x) + Held(flows[i := c], HowOften(x), |flows|)
    {
      HeldAfterWrite(flows, HowOften(x), i, c, |flows|);
      OneMoreOutcome(outcomes, Took(p, at), x);
      assert (g.held + [p.id])[..|g.held|] == g.held;
      assert TimesHeld(outcomes, x) == TimesJudged(outcomes, x) + Held(flows, HowOften(x), |flows|);
    }
  }

  lemma CloseFlowKeeps(cfg: Config, s: State, p: Packet, k: Kernel)
    requires Inv(cfg, s)
    ensures Inv(cfg, HandleClose(s, p, k).0)
  {
    var found := FindGate(s, p.flow);
    if found.Some? {
      DropHeldKeeps(cfg, s, found.value, k.sent);
      CloseKeeps(cfg, DropHeldAt(s, found.value, k.sent), found.value);
    }
  }

  /** Counting alone: no gate, history or session changes. */
  lemma CountersKeep(cfg: Config, s: State, t: State)
    requires Inv(cfg, s)
             && t == s.(copied := t.copied, accepted := t.accepted, dropped := t.dropped, failed := t.failed,
                        lastScan := t.lastScan)
    requires t.copied + s.accepted + s.dropped + s.failed == s.copied + t.accepted + t.dropped + t.failed
    ensures Inv(cfg, t)
  {
  }

  /** What is held is gated data of an open generation. */
  lemma HoldOk(cfg: Config, s: State, p: Packet, i: nat)
    requires Inv(cfg, s) && !s.quarantined && GatedData(p)
    requires i < |s.flows| && s.flows[i].Live? && s.flows[i].entry.key == p.flow && Open(s.flows[i].entry)
    ensures OutcomeOk(s.gens, Took(p, |s.gens|))
  {
    assert s.gens[..|s.gens|] == s.gens;
    assert Tracks(s.gens, s.flows[i].entry);
    LastAboutIsThere(s.gens, p.flow);
  }

  lemma DataKeeps(cfg: Config, s: State, p: Packet, k: Kernel)
    requires Inv(cfg, s) && !s.quarantined && p.protected
    requires p.toServer && p.payload > 0 ==> GatedData(p)
    ensures var r := HandleData(s, p, k); Inv(cfg, if r.1 == Hold then r.0.(copied := r.0.copied + 1) else r.0)
  {
    QuarantinedKeeps(cfg, s);
    var r := HandleData(s, p, k);
    if r.1 == Hold {
      var i := FindGate(s, p.flow).value;
      var g := s.flows[i].entry;
      var after := g.(held := g.held + [p.id]);
      WriteKeepsTable(cfg, s.flows, i, after);
      AmendKeepsTracks(s.gens, s.flows, i, after);
      HoldConserves(s.flows, s.outcomes, i, p, |s.gens|);
      HoldOk(cfg, s, p, i);
    }
  }

  lemma HandleKeeps(cfg: Config, s: State, p: Packet, k: Kernel)
    requires Inv(cfg, s) && k.now > 0
    ensures var r := HandlePacket(cfg, s, p, k); Inv(cfg, if r.1 == Hold then r.0.(copied := r.0.copied + 1) else r.0)
  {
    if !p.protected || s.quarantined {
    } else if p.toServer && p.syn && !p.ack {
      SynKeeps(cfg, s, p, k);
    } else if cfg.selector && p.toServer && p.payload == 0 && p.finOrRst {
      CloseFlowKeeps(cfg, s, p, k);
    } else if p.toServer && p.payload > 0 && p.clientHello.Some? {
      ClientHelloKeeps(cfg, s, p, p.clientHello.value, k);
    } else if !p.toServer && p.payload > 0 && p.serverHello.Some? {
      ServerHelloKeeps(cfg, s, p, p.serverHello.value, k);
    } else {
      DataKeeps(cfg, s, p, k);
    }
  }

  predicate Passes(a: Action) { a == Accept || a == Authorize }

  /** The data path: gated data passes only through an admitted gate whose keys and cookie are
      those of its admission, on the socket that still has that cookie. */
  lemma GatedDataNeedsAdmission(cfg: Config, s: State, p: Packet, k: Kernel)
    requires Inv(cfg, s) && GatedData(p) && Passes(HandlePacket(cfg, s, p, k).1)
    ensures HandlePacket(cfg, s, p, k).0 == s && FindGate(s, p.flow).Some?
    ensures var g := s.flows[FindGate(s, p.flow).value].entry;
            && g.phase == Admitted && k.cookie == Some(g.cookie)
            && LastAbout(s.gens, p.flow).Some?
            && var x := LastAbout(s.gens, p.flow).value;
               && x.Admit? && x.lookupKey == g.lookupKey && x.reportKey == g.reportKey && x.cookie == g.cookie
               && cfg.verify(x.report, Expected(cfg, g.reportKey, x.clientKey)) && (cfg.mutual ==> x.accepted)
  {
    var g := s.flows[FindGate(s, p.flow).value].entry;
    assert Tracks(s.gens, g);
    LastAboutIsThere(s.gens, p.flow);
  }

  /** After the quarantine every protected packet is dropped. */
  lemma QuarantineDrops(cfg: Config, s: State, p: Packet, k: Kernel)
    requires |s.flows| == FLOW_CAPACITY && p.protected
    ensures HandlePacket(cfg, s, p, k).0.quarantined ==> !Passes(HandlePacket(cfg, s, p, k).1)
  {
  }

  /** What passes may pass. */
  lemma PassedOk(cfg: Config, s: State, p: Packet, k: Kernel)
    requires Inv(cfg, s) && p.parsed && Passes(HandlePacket(cfg, s, p, k).1)
    requires Inv(cfg, HandlePacket(cfg, s, p, k).0)
    ensures var t := HandlePacket(cfg, s, p, k).0; OutcomeOk(t.gens, Passed(p, |t.gens|))
  {
    var t := HandlePacket(cfg, s, p, k).0;
    assert t.gens[..|t.gens|] == t.gens;
    if p.protected {
      QuarantineDrops(cfg, s, p, k);
      if GatedData(p) {
        GatedDataNeedsAdmission(cfg, s, p, k);
      }
    }
  }

  lemma PassKeeps(cfg: Config, s: State, p: Packet)
    requires Inv(cfg, s) && OutcomeOk(s.gens, Passed(p, |s.gens|))
    ensures Inv(cfg, s.(outcomes := s.outcomes + [Passed(p, |s.gens|)]))
  {
  }

  lemma CountedKeeps(cfg: Config, s: State, p: Packet, a: Action)
    requires Inv(cfg, s) && a != Hold && (Passes(a) ==> OutcomeOk(s.gens, Passed(p, |s.gens|)))
    ensures Inv(cfg, Counted(s, p, a))
  {
    hide Inv;
    var t := s.(copied := s.copied + 1);
    if a == Drop {
      CountersKeep(cfg, s, t.(dropped := s.dropped + 1));
    } else {
      var c := t.(accepted := s.accepted + 1);
      CountersKeep(cfg, s, c);
      PassKeeps(cfg, c, p);
    }
  }

  lemma CallbackKeeps(cfg: Config, s: State, p: Packet, k: Kernel)
    requires Inv(cfg, s) && k.now > 0
    ensures Inv(cfg, Callback(cfg, s, p, k).0)
  {
    hide TracksOk, GensOk, OutcomesOk, Conserved, SessionsOk, HandlePacket, OutcomeOk;
    var r := if p.parsed then HandlePacket(cfg, s, p, k) else (s, Drop);
    if p.parsed {
      HandleKeeps(cfg, s, p, k);
      if Passes(r.1) {
        PassedOk(cfg, s, p, k);
      }
    }
    if r.1 != Hold {
      CountedKeeps(cfg, r.0, p, r.1);
    }
  }

  /** The common end of a generation's wait: its held packets are judged and its gate closes or
      opens, with item x as the reason. */
  lemma ConcludeKeeps(cfg: Config, s: State, i: nat, g: GateFlow, x: GenItem, accept: bool, sent: nat -> bool)
    requires Inv(cfg, s) && i < |s.flows| && s.flows[i].Live?
    requires g.key == s.flows[i].entry.key && g.held == [] && GateOk(g) && !Open(g)
    requires About(x, g.key) && Tracks([x], g) && AdmitSound(cfg, x)
    requires if s.quarantined then x.Deny? else x.Admit?
    requires accept ==> x.Admit?
    ensures var d := s.(gens := s.gens + [x]); Inv(cfg, SetGate(FinishHeld(d, i, accept, sent), i, g))
  {
    var d := s.(gens := s.gens + [x]);
    var f := FinishHeld(d, i, accept, sent);
    WriteKeepsTable(cfg, s.flows, i, g);
    WriteKeepsTracks(cfg, s.gens, s.flows, i, g, x);
    ItemKeepsGens(cfg, s.gens, s.quarantined, x);
    LaterItemsKeepOutcomes(s.gens, x, s.outcomes);
    JudgementsKeepOutcomes(d.gens, s.outcomes, s.flows[i].entry.held, g.key, accept, sent, |d.gens|);
    FinishConserves(d, i, accept, sent);
    SameHeldConserves(f.flows, f.outcomes, i, Live(g));
    assert f.flows[i := Live(g)] == s.flows[i := Live(g)];
  }

  lemma ConcludedKeeps(cfg: Config, s: State, i: nat, x: Session, k: Kernel)
    requires Inv(cfg, s) && i < |s.flows| && s.flows[i].Live? && s.flows[i].entry.helloSeen && SessionOk(cfg, x)
    ensures Inv(cfg, Concluded(s, i, x, Allows(cfg, s, x, s.flows[i].entry, k), k))
  {
    if Allows(cfg, s, x, s.flows[i].entry, k) {
      AllowedKeeps(cfg, s, i, x, k);
    } else {
      RefusedKeeps(cfg, s, i, x, k);
    }
  }

  lemma AllowedKeeps(cfg: Config, s: State, i: nat, x: Session, k: Kernel)
    requires Inv(cfg, s) && i < |s.flows| && s.flows[i].Live? && s.flows[i].entry.helloSeen && SessionOk(cfg, x)
    requires Allows(cfg, s, x, s.flows[i].entry, k)
    ensures Inv(cfg, Concluded(s, i, x, true, k))
  {
    var g := s.flows[i].entry;
    var after := g.(held := [], phase := Admitted, stateNs := k.now, deadlineNs := 0);
    assert GateOk(g) && GateOk(after) && AdmitSound(cfg, AdmitItem(g, x));
    LastAboutNext([], AdmitItem(g, x), g.key);
    assert [] + [AdmitItem(g, x)] == [AdmitItem(g, x)];
    hide Inv, FinishHeld, SetGate;
    ConcludeKeeps(cfg, s, i, after, AdmitItem(g, x), true, k.sent);
  }

  lemma RefusedKeeps(cfg: Config, s: State, i: nat, x: Session, k: Kernel)
    requires Inv(cfg, s) && i < |s.flows| && s.flows[i].Live?
    ensures Inv(cfg, Concluded(s, i, x, false, k))
  {
    var g := s.flows[i].entry;
    var after := g.(held := [], phase := Denied, stateNs := k.now, deadlineNs := 0);
    assert GateOk(g) && GateOk(after);
    LastAboutNext([], Deny(g.key), g.key);
    assert [] + [Deny(g.key)] == [Deny(g.key)];
    hide Inv, FinishHeld, SetGate;
    QuarantinedKeeps(cfg, s);
    ConcludeKeeps(cfg, Quarantined(s), i, after, Deny(g.key), false, k.sent);
  }

  lemma AppliedDecisionKeeps(cfg: Config, s: State, id: nat, k: Kernel)
    requires Inv(cfg, s) && id < |s.sessions| && Applies(s, s.sessions[id])
    ensures Inv(cfg, ApplyDecision(cfg, s, id, k))
  {
    var x := s.sessions[id];
    assert SessionOk(cfg, x);
    var i := FindGate(s, x.flow).value;
    var allow := Allows(cfg, s, x, s.flows[i].entry, k);
    ConcludedKeeps(cfg, s, i, x, k);
    var t := Concluded(s, i, x, allow, k);
    UpdateKeepsSessions(cfg, s.sessions, id, x.(gateAllowed := allow, decisionApplied := true));
    SessionsOnly(cfg, t, ApplyDecision(cfg, s, id, k));
  }

  lemma DecisionKeeps(cfg: Config, s: State, id: nat, k: Kernel)
    requires Inv(cfg, s) && id < |s.sessions|
    ensures Inv(cfg, ApplyDecision(cfg, s, id, k))
  {
    if Applies(s, s.sessions[id]) {
      AppliedDecisionKeeps(cfg, s, id, k);
    } else {
      var y := s.sessions[id].(gateAllowed := false, decisionApplied := true);
      assert SessionOk(cfg, s.sessions[id]);
      QuarantinedKeeps(cfg, s);
      UpdateKeepsSessions(cfg, s.sessions, id, y);
      SessionsOnly(cfg, Quarantined(s), Quarantined(s).(sessions := s.sessions[id := y]));
    }
  }

  lemma ExpireOneKeeps(cfg: Config, s: State, i: nat, now: nat, sent: nat -> bool)
    requires Inv(cfg, s) && i < |s.flows|
    ensures Inv(cfg, ExpireOne(s, i, now, sent))
  {
    if s.flows[i].Live? {
      var g := s.flows[i].entry;
      if Overdue(g, now) {
        // The code denies first and quarantines next; the two orders end in the same history up to
        // the order of those two items, so the proof goes through the state in between.
        var after := g.(held := [], phase := Denied, deadlineNs := 0, stateNs := now);
        DenyThenQuarantine(cfg, s, i, after, sent);
      } else if Retired(g, now) {
        CloseKeeps(cfg, s, i);
      }
    }
  }

  /** Denying a gate and quarantining the endpoint in one step. */
  lemma DenyThenQuarantine(cfg: Config, s: State, i: nat, g: GateFlow, sent: nat -> bool)
    requires Inv(cfg, s) && i < |s.flows| && s.flows[i].Live?
    requires g.key == s.flows[i].entry.key && g.held == [] && GateOk(g) && g.phase == Denied
    ensures Inv(cfg, Quarantined(SetGate(FinishHeld(s, i, false, sent), i, g).(gens := s.gens + [Deny(g.key)])))
  {
    var f := FinishHeld(s, i, false, sent);
    var x := Deny(g.key);
    WriteKeepsTable(cfg, s.flows, i, g);
    LastAboutNext([], x, g.key);
    assert [] + [x] == [x];
    WriteKeepsTracks(cfg, s.gens, s.flows, i, g, x);
    LaterItemsKeepOutcomes(s.gens, x, s.outcomes);
    JudgementsKeepOutcomes(s.gens + [x], s.outcomes, s.flows[i].entry.held, g.key, false, sent, |s.gens|);
    FinishConserves(s, i, false, sent);
    SameHeldConserves(f.flows, f.outcomes, i, Live(g));
    assert f.flows[i := Live(g)] == s.flows[i := Live(g)];
    if s.quarantined {
      ItemKeepsGens(cfg, s.gens, true, x);
    } else {
      OtherItemKeepsTracks(s.gens + [x], s.flows[i := Live(g)], Quarantine);
      LaterItemsKeepOutcomes(s.gens + [x], Quarantine, f.outcomes);
      DenyQuarantineKeepsGens(cfg, s.gens, x);
    }
  }

  lemma DenyQuarantineKeepsGens(cfg: Config, gens: seq<GenItem>, x: GenItem)
    requires GensOk(cfg, gens, false) && x.Deny?
    ensures GensOk(cfg, gens + [x] + [Quarantine], true)
  {
    var more := gens + [x] + [Quarantine];
    assert more[|gens| + 1] == Quarantine;
    forall k | 0 <= k <= |gens| ensures more[k] != Quarantine {
      assert !QuarantinedBefore(gens, |gens|);
    }
  }

  lemma {:induction false} ExpireFromKeeps(cfg: Config, s: State, i: nat, now: nat, sent: nat -> bool)
    requires Inv(cfg, s) && i <= |s.flows|
    ensures Inv(cfg, ExpireFrom(s, i, now, sent))
    decreases |s.flows| - i
  {
    if i < |s.flows| {
      ExpireOneKeeps(cfg, s, i, now, sent);
      ExpireFromKeeps(cfg, ExpireOne(s, i, now, sent), i + 1, now, sent);
    }
  }

  lemma {:induction false} DropAllKeeps(cfg: Config, s: State, i: nat, sent: nat -> bool)
    requires Inv(cfg, s) && i <= |s.flows|
    ensures Inv(cfg, DropAllFrom(s, i, sent))
    decreases |s.flows| - i
  {
    if i < |s.flows| {
      DropHeldKeeps(cfg, s, i, sent);
      DropAllKeeps(cfg, DropHeldAt(s, i, sent), i + 1, sent);
    }
  }

  lemma WorkerKeeps(cfg: Config, s: State, ev: Event)
    requires Inv(cfg, s) && (ev.Checked? || ev.Queued? || ev.GaveUp? || ev.Finished? || ev.TookJob? || ev.Stopped?)
    ensures Inv(cfg, Step(cfg, s, ev))
  {
    hide TableOk, TracksOk, GensOk, OutcomesOk, Held;
  }

  /** Every step keeps the invariant. */
  lemma StepKeeps(cfg: Config, s: State, ev: Event)
    requires Inv(cfg, s) && Allowed(ev)
    ensures Inv(cfg, Step(cfg, s, ev))
  {
    match ev
    case GotPacket(p, k) => CallbackKeeps(cfg, s, p, k);
    case Decided(k) =>
      if s.decisions != [] {
        var t := s.(decisions := s.decisions[1..]);
        SessionsOnly(cfg, s, t);
        if s.decisions[0] < |s.sessions| {
          DecisionKeeps(cfg, t, s.decisions[0], k);
        }
      }
    case Scanned(now, sent) =>
      if ScanDue(s.lastScan, now) {
        CountersKeep(cfg, s, s.(lastScan := now));
        ExpireFromKeeps(cfg, s.(lastScan := now), 0, now, sent);
      }
    case Drained(sent) => DropAllKeeps(cfg, s, 0, sent);
    case _ => WorkerKeeps(cfg, s, ev);
  }
}
