/** Whose packet a verdict is about. The history of outcomes, read flow by flow, is a queue: a packet
    put on hold enters the queue of its own flow, a verdict on a held packet takes the oldest one
    out. In every reachable state the queue of a flow is what the flow's live gate holds, and each
    packet leaves it in the generation in which it entered. */
module GateQueues {
  import opened Basics
  import opened ProbeTable
  import opened Gate
  import opened GateInvariant

  // ----- the queue of a flow -----

  /** What outcome number n does to the queue of a flow. */
  function Moved(q: seq<nat>, n: nat, o: Outcome, flow: Flow): seq<nat> {
    match o
    case Took(p, _) => if p.flow == flow then q + [n] else q
    case Judged(_, f, _, _, _) => if f == flow && q != [] then q[1..] else q
    case Passed(_, _) => q
  }

  /** Where in the history the packets of a flow were put on hold that have no verdict yet, oldest
      first. */
  function Pending(outcomes: seq<Outcome>, flow: Flow): (q: seq<nat>)
    ensures forall m | 0 <= m < |q| ::
              q[m] < |outcomes| && outcomes[q[m]].Took? && outcomes[q[m]].packet.flow == flow
    ensures forall m, n | 0 <= m < n < |q| :: q[m] < q[n]
  {
    if outcomes == [] then []
    else
      var n := |outcomes| - 1;
      Moved(Pending(outcomes[..n], flow), n, outcomes[n], flow)
  }

  lemma PendingNext(outcomes: seq<Outcome>, o: Outcome, flow: Flow)
    ensures Pending(outcomes + [o], flow) == Moved(Pending(outcomes, flow), |outcomes|, o, flow)
  {
    assert (outcomes + [o])[..|outcomes|] == outcomes;
  }

  /** The history says nothing about the flow from a to b. */
  predicate Quiet(gens: seq<GenItem>, flow: Flow, a: nat, b: nat) {
    a <= b <= |gens| && forall m | a <= m < b :: !About(gens[m], flow)
  }

  /** From a to b the history says nothing about the flow, save for a decision at the very end. */
  predicate OneWait(gens: seq<GenItem>, flow: Flow, a: nat, b: nat) {
    Quiet(gens, flow, a, b)
    || (0 < b <= |gens| && Quiet(gens, flow, a, b - 1) && (gens[b - 1].Admit? || gens[b - 1].Deny?))
  }

  /** A verdict is on the packet that waited longest in its flow, and falls in the generation in
      which that packet was put on hold. */
  predicate Paired(gens: seq<GenItem>, outcomes: seq<Outcome>, k: nat)
    requires k < |outcomes| && outcomes[k].Judged?
  {
    var (o, q) := (outcomes[k], Pending(outcomes[..k], outcomes[k].flow));
    && q != [] && outcomes[q[0]].packet.id == o.id
    && OneWait(gens, o.flow, outcomes[q[0]].at, o.at)
  }

  ghost predicate LogPaired(gens: seq<GenItem>, outcomes: seq<Outcome>) {
    forall k {:trigger Paired(gens, outcomes, k)} | 0 <= k < |outcomes| && outcomes[k].Judged? ::
      Paired(gens, outcomes, k)
  }

  /** What the live gate of a flow holds. */
  function HeldBy(flows: seq<Cell<GateFlow>>, flow: Flow): seq<nat> {
    match FindMatch(flows, HasFlow(flow))
    case None => []
    case Some(i) => flows[i].entry.held
  }

  /** The queue holds just these packets, all put on hold since the history last spoke of the flow. */
  predicate Waiting(gens: seq<GenItem>, outcomes: seq<Outcome>, flow: Flow, held: seq<nat>) {
    var q := Pending(outcomes, flow);
    && |q| == |held|
    && (forall m | 0 <= m < |q| ::
          outcomes[q[m]].packet.id == held[m] && Quiet(gens, flow, outcomes[q[m]].at, |gens|))
  }

  ghost predicate AllWaiting(gens: seq<GenItem>, outcomes: seq<Outcome>, flows: seq<Cell<GateFlow>>) {
    forall flow: Flow :: Waiting(gens, outcomes, flow, HeldBy(flows, flow))
  }

  ghost predicate QueuesOk(s: State) {
    LogPaired(s.gens, s.outcomes) && AllWaiting(s.gens, s.outcomes, s.flows)
  }

  lemma EmptyQueues()
    ensures QueuesOk(Init())
  {
  }

  // ----- the order of a queue -----

  /** What waits later either waited before or has come since. */
  lemma {:induction false} PendingSince(outcomes: seq<Outcome>, m: nat, n: nat, flow: Flow)
    requires m <= n <= |outcomes|
    ensures forall x | x in Pending(outcomes[..n], flow) :: x >= m || x in Pending(outcomes[..m], flow)
    decreases n
  {
    if m < n {
      PendingSince(outcomes, m, n - 1, flow);
      assert outcomes[..n] == outcomes[..n - 1] + [outcomes[n - 1]];
      PendingNext(outcomes[..n - 1], outcomes[n - 1], flow);
    }
  }

  /** A verdict takes the oldest packet out of the queue for good. */
  lemma OldestLeaves(outcomes: seq<Outcome>, k: nat, l: nat, flow: Flow)
    requires k < l <= |outcomes| && outcomes[k].Judged? && outcomes[k].flow == flow
    requires Pending(outcomes[..k], flow) != [] && Pending(outcomes[..l], flow) != []
    ensures Pending(outcomes[..k], flow)[0] < Pending(outcomes[..l], flow)[0]
  {
    hide Pending;
    assert outcomes[..k + 1] == outcomes[..k] + [outcomes[k]];
    PendingNext(outcomes[..k], outcomes[k], flow);
    PendingSince(outcomes, k + 1, l, flow);
    var q, x := Pending(outcomes[..k], flow), Pending(outcomes[..l], flow)[0];
    if x < k + 1 {
      assert x in q[1..];
    }
  }

  // ----- one more item in a history -----

  lemma ItemKeepsPaired(gens: seq<GenItem>, x: GenItem, outcomes: seq<Outcome>)
    requires LogPaired(gens, outcomes)
    ensures LogPaired(gens + [x], outcomes)
  {
    hide Pending;
    forall k | 0 <= k < |outcomes| && outcomes[k].Judged? ensures Paired(gens + [x], outcomes, k) {
      assert Paired(gens, outcomes, k);
    }
  }

  /** An item about flows for which nothing waits. */
  lemma ItemKeepsWaiting(gens: seq<GenItem>, x: GenItem, outcomes: seq<Outcome>, flows: seq<Cell<GateFlow>>)
    requires AllWaiting(gens, outcomes, flows)
    requires !x.Quarantine? ==> HeldBy(flows, x.flow) == []
    ensures AllWaiting(gens + [x], outcomes, flows)
  {
    hide Pending, HeldBy;
    forall flow: Flow ensures Waiting(gens + [x], outcomes, flow, HeldBy(flows, flow)) {
      assert Waiting(gens, outcomes, flow, HeldBy(flows, flow));
    }
  }

  lemma ItemKeepsQueues(s: State, x: GenItem)
    requires QueuesOk(s) && (!x.Quarantine? ==> HeldBy(s.flows, x.flow) == [])
    ensures QueuesOk(s.(gens := s.gens + [x]))
  {
    ItemKeepsPaired(s.gens, x, s.outcomes);
    ItemKeepsWaiting(s.gens, x, s.outcomes, s.flows);
  }

  lemma OutcomeKeepsPaired(gens: seq<GenItem>, outcomes: seq<Outcome>, o: Outcome)
    requires LogPaired(gens, outcomes)
    requires o.Judged? ==>
               var q := Pending(outcomes, o.flow);
               q != [] && outcomes[q[0]].packet.id == o.id && OneWait(gens, o.flow, outcomes[q[0]].at, o.at)
    ensures LogPaired(gens, outcomes + [o])
  {
    hide Pending, OneWait;
    var more := outcomes + [o];
    assert more[..|outcomes|] == outcomes;
    forall k | 0 <= k < |more| && more[k].Judged? ensures Paired(gens, more, k) {
      if k < |outcomes| {
        assert Paired(gens, outcomes, k);
        assert more[..k] == outcomes[..k];
      }
    }
  }

  /** The n oldest packets have left the queue of the flow; the other queues are as before. */
  ghost predicate Popped(outcomes: seq<Outcome>, more: seq<Outcome>, flow: Flow, n: nat) {
    && n <= |Pending(outcomes, flow)|
    && (forall f: Flow :: Pending(more, f) == if f == flow then Pending(outcomes, f)[n..] else Pending(outcomes, f))
  }

  lemma PoppedNext(outcomes: seq<Outcome>, more: seq<Outcome>, o: Outcome, n: nat)
    requires o.Judged? && Popped(outcomes, more, o.flow, n) && n < |Pending(outcomes, o.flow)|
    ensures Popped(outcomes, more + [o], o.flow, n + 1)
  {
    hide Pending;
    forall f: Flow {
      PendingNext(more, o, f);
    }
  }

  /** The oldest packets in the queue of the flow are these, and this verdict falls in their generation. */
  predicate Oldest(gens: seq<GenItem>, outcomes: seq<Outcome>, ids: seq<nat>, flow: Flow, at: nat) {
    var q := Pending(outcomes, flow);
    && |ids| <= |q|
    && (forall m | 0 <= m < |ids| ::
          outcomes[q[m]].packet.id == ids[m] && OneWait(gens, flow, outcomes[q[m]].at, at))
  }

  /** The verdicts that finish_held gives to the oldest packets of a flow's queue. */
  lemma {:induction false} JudgementsKeepPaired(gens: seq<GenItem>, outcomes: seq<Outcome>, ids: seq<nat>, flow: Flow,
                                                accept: bool, sent: nat -> bool, at: nat)
    requires LogPaired(gens, outcomes) && Oldest(gens, outcomes, ids, flow, at)
    ensures var more := outcomes + Judgements(ids, flow, accept, sent, at);
            LogPaired(gens, more) && Popped(outcomes, more, flow, |ids|)
  {
    hide OneWait, LogPaired, Pending;
    var n := |ids| - 1;
    if ids == [] {
      assert outcomes + Judgements(ids, flow, accept, sent, at) == outcomes;
    } else {
      JudgementsKeepPaired(gens, outcomes, ids[..n], flow, accept, sent, at);
      var before := outcomes + Judgements(ids[..n], flow, accept, sent, at);
      var o := Judged(ids[n], flow, accept, sent(ids[n]), at);
      assert outcomes + Judgements(ids, flow, accept, sent, at) == before + [o];
      var q := Pending(outcomes, flow);
      assert before[q[n]] == outcomes[q[n]] && Pending(before, flow)[0] == q[n];
      OutcomeKeepsPaired(gens, before, o);
      PoppedNext(outcomes, before, o, n);
    }
  }

  // ----- one more write to the table -----

  lemma HeldAfterGateWrite(cfg: Config, flows: seq<Cell<GateFlow>>, i: nat, g: GateFlow, flow: Flow)
    requires TableOk(cfg, flows) && IsSlotFor(cfg, flows, i, g.key) && GateOk(g)
    ensures HeldBy(flows[i := Live(g)], flow) == if flow == g.key then g.held else HeldBy(flows, flow)
  {
    hide TableOk, FindMatch;
    WriteKeepsTable(cfg, flows, i, g);
    FindAfterWrite(cfg, flows, i, g, flow);
  }

  lemma HeldInOwnSlot(cfg: Config, flows: seq<Cell<GateFlow>>, i: nat)
    requires TableOk(cfg, flows) && i < |flows| && flows[i].Live?
    ensures HeldBy(flows, flows[i].entry.key) == flows[i].entry.held
  {
    GateIsUnique(cfg, flows, flows[i].entry.key, i);
  }

  lemma HeldInFreeSlot(cfg: Config, flows: seq<Cell<GateFlow>>, i: nat, flow: Flow)
    requires TableOk(cfg, flows) && IsSlotFor(cfg, flows, i, flow)
    ensures HeldBy(flows, flow) == if flows[i].Live? then flows[i].entry.held else []
  {
    if flows[i].Live? {
      HeldInOwnSlot(cfg, flows, i);
    }
  }

  /** Writing a gate that holds what its flow's gate held. */
  lemma WriteKeepsQueues(cfg: Config, s: State, i: nat, g: GateFlow)
    requires TableOk(cfg, s.flows) && IsSlotFor(cfg, s.flows, i, g.key) && GateOk(g) && QueuesOk(s)
    requires g.held == HeldBy(s.flows, g.key)
    ensures QueuesOk(SetGate(s, i, g))
  {
    hide TableOk, HeldBy, Waiting, LogPaired, GateOk;
    var after := s.flows[i := Live(g)];
    forall flow: Flow ensures Waiting(s.gens, s.outcomes, flow, HeldBy(after, flow)) {
      HeldAfterGateWrite(cfg, s.flows, i, g, flow);
      assert Waiting(s.gens, s.outcomes, flow, HeldBy(s.flows, flow));
    }
  }

  /** The decision, if any, that the verdicts on what a gate of this flow holds follow from. */
  predicate Reason(news: seq<GenItem>, flow: Flow) {
    news == [] || (|news| == 1 && (news[0].Admit? || news[0].Deny?) && news[0].flow == flow)
  }

  /** finish_held, followed by any write of a gate that holds nothing. */
  lemma FinishKeepsQueues(cfg: Config, s: State, news: seq<GenItem>, i: nat, g: GateFlow, accept: bool,
                          sent: nat -> bool)
    requires TableOk(cfg, s.flows) && i < |s.flows| && s.flows[i].Live? && QueuesOk(s)
    requires g.key == s.flows[i].entry.key && g.held == [] && GateOk(g) && Reason(news, g.key)
    ensures QueuesOk(SetGate(FinishHeld(s.(gens := s.gens + news), i, accept, sent), i, g))
  {
    hide TableOk, HeldBy, Waiting, LogPaired, GateOk, Pending, Judgements;
    var (more, held) := (s.gens + news, s.flows[i].entry.held);
    var outcomes := s.outcomes + Judgements(held, g.key, accept, sent, |more|);
    var after := s.flows[i := Live(g)];
    VerdictsKeepPaired(cfg, s, news, i, accept, sent);
    forall flow: Flow ensures Waiting(more, outcomes, flow, HeldBy(after, flow)) {
      HeldAfterGateWrite(cfg, s.flows, i, g, flow);
      assert Waiting(s.gens, s.outcomes, flow, HeldBy(s.flows, flow));
      StillWaiting(s.gens, news, s.outcomes, outcomes, g.key, flow, HeldBy(s.flows, flow));
    }
    assert s.flows[i := Live(s.flows[i].entry.(held := []))][i := Live(g)] == after;
  }

  lemma StillWaiting(gens: seq<GenItem>, news: seq<GenItem>, outcomes: seq<Outcome>, more: seq<Outcome>, judged: Flow,
                     flow: Flow, held: seq<nat>)
    requires Waiting(gens, outcomes, flow, held) && Reason(news, judged) && outcomes <= more
    requires Pending(more, flow) == if flow == judged then [] else Pending(outcomes, flow)
    ensures Waiting(gens + news, more, flow, if flow == judged then [] else held)
  {
    hide Pending, Quiet, Reason;
    if flow != judged {
      var q := Pending(outcomes, flow);
      forall m | 0 <= m < |q| ensures Quiet(gens + news, flow, more[q[m]].at, |gens + news|) {
        assert more[q[m]] == outcomes[q[m]];
        QuietLater(gens, news, judged, flow, outcomes[q[m]].at);
      }
    }
  }

  lemma QuietLater(gens: seq<GenItem>, news: seq<GenItem>, judged: Flow, flow: Flow, a: nat)
    requires Quiet(gens, flow, a, |gens|) && Reason(news, judged)
    ensures flow != judged ==> Quiet(gens + news, flow, a, |gens + news|)
    ensures flow == judged ==> OneWait(gens + news, flow, a, |gens + news|)
  {
    var more := gens + news;
    forall m | a <= m < |gens| ensures !About(more[m], flow) {
      assert more[m] == gens[m];
    }
    if news != [] {
      assert more[|gens|] == news[0];
    }
  }

  lemma VerdictsKeepPaired(cfg: Config, s: State, news: seq<GenItem>, i: nat, accept: bool, sent: nat -> bool)
    requires TableOk(cfg, s.flows) && i < |s.flows| && s.flows[i].Live? && QueuesOk(s)
    requires Reason(news, s.flows[i].entry.key)
    ensures var g := s.flows[i].entry;
            var outcomes := s.outcomes + Judgements(g.held, g.key, accept, sent, |s.gens + news|);
            LogPaired(s.gens + news, outcomes) && Popped(s.outcomes, outcomes, g.key, |Pending(s.outcomes, g.key)|)
  {
    hide TableOk, HeldBy, Pending, Judgements, LogPaired, Quiet, OneWait, Popped;
    var (g, more) := (s.flows[i].entry, s.gens + news);
    if news == [] {
      assert more == s.gens;
    } else {
      assert more == s.gens + [news[0]];
      ItemKeepsPaired(s.gens, news[0], s.outcomes);
    }
    HeldInOwnSlot(cfg, s.flows, i);
    assert Waiting(s.gens, s.outcomes, g.key, HeldBy(s.flows, g.key));
    var q := Pending(s.outcomes, g.key);
    forall m | 0 <= m < |q| ensures OneWait(more, g.key, s.outcomes[q[m]].at, |more|) {
      QuietLater(s.gens, news, g.key, g.key, s.outcomes[q[m]].at);
    }
    JudgementsKeepPaired(more, s.outcomes, g.held, g.key, accept, sent, |more|);
  }

  // ----- every step keeps the queues -----

  lemma QuarantinedKeepsQueues(s: State)
    requires QueuesOk(s)
    ensures QueuesOk(Quarantined(s))
  {
    if !s.quarantined {
      ItemKeepsQueues(s, Quarantine);
    }
  }

  lemma DropHeldKeepsQueues(cfg: Config, s: State, i: nat, sent: nat -> bool)
    requires Inv(cfg, s) && QueuesOk(s) && i < |s.flows|
    ensures QueuesOk(DropHeldAt(s, i, sent))
  {
    hide QueuesOk;
    if s.flows[i].Live? && s.flows[i].entry.held != [] {
      var g := s.flows[i].entry.(held := []);
      FinishKeepsQueues(cfg, s, [], i, g, false, sent);
      assert s.(gens := s.gens + []) == s;
      assert SetGate(FinishHeld(s, i, false, sent), i, g) == FinishHeld(s, i, false, sent);
    }
  }

  lemma ResetKeepsQueues(cfg: Config, s: State, i: nat, flow: Flow, k: Kernel)
    requires Inv(cfg, s) && QueuesOk(s) && IsSlotFor(cfg, s.flows, i, flow) && k.now > 0
    ensures QueuesOk(ResetGate(cfg, s, i, flow, k))
  {
    hide QueuesOk, HeldBy;
    DropHeldKeeps(cfg, s, i, k.sent);
    DropHeldKeepsQueues(cfg, s, i, k.sent);
    var (t, g) := (DropHeldAt(s, i, k.sent), FreshGate(cfg, flow, k.now));
    HeldInFreeSlot(cfg, t.flows, i, flow);
    WriteKeepsQueues(cfg, t, i, g);
    HeldAfterGateWrite(cfg, t.flows, i, g, flow);
    ItemKeepsQueues(SetGate(t, i, g), Reset(flow));
  }

  lemma CloseKeepsQueues(cfg: Config, s: State, i: nat)
    requires Inv(cfg, s) && QueuesOk(s) && i < |s.flows| && s.flows[i].Live? && s.flows[i].entry.held == []
    ensures QueuesOk(CloseGate(s, i))
  {
    hide TableOk, Waiting, LogPaired;
    var key, after := s.flows[i].entry.key, s.flows[i := Tombstone];
    RemoveKeepsTable(cfg, s.flows, i);
    HeldInOwnSlot(cfg, s.flows, i);
    forall flow: Flow ensures HeldBy(after, flow) == HeldBy(s.flows, flow) {
      FindAfterRemoval(cfg, s.flows, i, flow);
    }
    var t := s.(flows := after);
    assert QueuesOk(t) by {
      forall flow: Flow ensures Waiting(s.gens, s.outcomes, flow, HeldBy(after, flow)) {
        assert Waiting(s.gens, s.outcomes, flow, HeldBy(s.flows, flow));
      }
    }
    ItemKeepsQueues(t, Closed(key));
  }

  lemma SynKeepsQueues(cfg: Config, s: State, p: Packet, k: Kernel)
    requires Inv(cfg, s) && QueuesOk(s) && !s.quarantined && k.now > 0
    ensures QueuesOk(HandleSyn(cfg, s, p, k).0)
  {
    hide QueuesOk, HeldBy, ResetGate;
    QuarantinedKeepsQueues(s);
    var slot := SlotFor(cfg, s, p.flow);
    if k.synCookie.Some? && slot.Some? {
      ResetKeeps(cfg, s, slot.value, p.flow, k);
      ResetKeepsQueues(cfg, s, slot.value, p.flow, k);
      var t := ResetGate(cfg, s, slot.value, p.flow, k);
      HeldInOwnSlot(cfg, t.flows, slot.value);
      WriteKeepsQueues(cfg, t, slot.value, t.flows[slot.value].entry.(cookie := k.synCookie.value));
    }
  }

  lemma CloseFlowKeepsQueues(cfg: Config, s: State, p: Packet, k: Kernel)
    requires Inv(cfg, s) && QueuesOk(s)
    ensures QueuesOk(HandleClose(s, p, k).0)
  {
    hide QueuesOk;
    var found := FindGate(s, p.flow);
    if found.Some? {
      DropHeldKeeps(cfg, s, found.value, k.sent);
      DropHeldKeepsQueues(cfg, s, found.value, k.sent);
      CloseKeepsQueues(cfg, DropHeldAt(s, found.value, k.sent), found.value);
    }
  }

  predicate SameQueues(s: State, t: State) {
    t.gens == s.gens && t.outcomes == s.outcomes && t.flows == s.flows
  }

  lemma SameKeepsQueues(s: State, t: State)
    requires QueuesOk(s) && SameQueues(s, t)
    ensures QueuesOk(t)
  {
  }

  lemma ObserveKeepsQueues(cfg: Config, s: State, flow: Flow, key: Key)
    requires QueuesOk(s)
    ensures QueuesOk(ObserveHello(cfg, s, flow, key).0)
  {
    SameKeepsQueues(s, ObserveHello(cfg, s, flow, key).0);
  }

  lemma ClientHelloKeepsQueues(cfg: Config, s: State, p: Packet, key: Key, k: Kernel)
    requires Inv(cfg, s) && QueuesOk(s) && !s.quarantined && k.now > 0
    ensures QueuesOk(HandleClientHello(cfg, s, p, key, k).0)
  {
    hide QueuesOk, HeldBy, ResetGate, ObserveHello;
    QuarantinedKeepsQueues(s);
    var slot := SlotFor(cfg, s, p.flow);
    if k.cookie.Some? && slot.Some? {
      ResetKeeps(cfg, s, slot.value, p.flow, k);
      ResetKeepsQueues(cfg, s, slot.value, p.flow, k);
      var t := ResetGate(cfg, s, slot.value, p.flow, k);
      var g := t.flows[slot.value].entry.(cookie := k.cookie.value, helloSeen := true, lookupKey := key);
      HeldInOwnSlot(cfg, t.flows, slot.value);
      WriteKeepsQueues(cfg, t, slot.value, g);
      ObserveKeepsQueues(cfg, SetGate(t, slot.value, g), p.flow, key);
    }
  }

  lemma ServerHelloKeepsQueues(cfg: Config, s: State, p: Packet, key: Key, k: Kernel)
    requires Inv(cfg, s) && QueuesOk(s) && !s.quarantined
    ensures QueuesOk(HandleServerHello(s, p, key, k).0)
  {
    hide QueuesOk, HeldBy;
    var found := FindGate(s, p.flow);
    if found.Some? && s.flows[found.value].entry.helloSeen && !s.flows[found.value].entry.serverSeen {
      NotDenied(cfg, s, found.value);
      var g := s.flows[found.value].entry
               .(serverSeen := true, phase := ServerHello, stateNs := k.now, reportKey := key);
      HeldInOwnSlot(cfg, s.flows, found.value);
      WriteKeepsQueues(cfg, s, found.value, g);
      var t := SetGate(s, found.value, g);
      SameKeepsQueues(t, ObserveServerKey(t, p.flow, g.lookupKey, key));
    }
  }

  /** A packet put on hold joins the end of its own flow's queue, and no other flow holds anything
      else than before. */
  lemma HoldJoinsOwnFlow(cfg: Config, s: State, p: Packet, k: Kernel)
    requires Inv(cfg, s) && HandlePacket(cfg, s, p, k).1 == Hold
    ensures var t := HandlePacket(cfg, s, p, k).0;
            && t.outcomes == s.outcomes + [Took(p, |t.gens|)] && t.gens == s.gens
            && (forall flow: Flow ::
                  HeldBy(t.flows, flow) == HeldBy(s.flows, flow) + if flow == p.flow then [p.id] else [])
  {
    var i := FindGate(s, p.flow).value;
    var g := s.flows[i].entry;
    HeldInOwnSlot(cfg, s.flows, i);
    var after := s.flows[i := Live(g.(held := g.held + [p.id]))];
    forall flow: Flow
      ensures HeldBy(after, flow) == HeldBy(s.flows, flow) + if flow == p.flow then [p.id] else []
    {
      HeldAfterGateWrite(cfg, s.flows, i, g.(held := g.held + [p.id]), flow);
    }
  }

  lemma DataKeepsQueues(cfg: Config, s: State, p: Packet, k: Kernel)
    requires Inv(cfg, s) && QueuesOk(s)
    requires HandlePacket(cfg, s, p, k) == HandleData(s, p, k)
    ensures QueuesOk(HandleData(s, p, k).0)
  {
    hide Inv, Quiet, Waiting, HeldBy;
    QuarantinedKeepsQueues(s);
    var r := HandleData(s, p, k);
    if r.1 == Hold {
      HoldJoinsOwnFlow(cfg, s, p, k);
      var o := Took(p, |s.gens|);
      OutcomeKeepsPaired(s.gens, s.outcomes, o);
      forall flow: Flow ensures Waiting(s.gens, r.0.outcomes, flow, HeldBy(r.0.flows, flow)) {
        assert Waiting(s.gens, s.outcomes, flow, HeldBy(s.flows, flow));
        HoldKeepsWaiting(s.gens, s.outcomes, p, flow, HeldBy(s.flows, flow));
      }
    }
  }

  lemma HoldKeepsWaiting(gens: seq<GenItem>, outcomes: seq<Outcome>, p: Packet, flow: Flow, held: seq<nat>)
    requires Waiting(gens, outcomes, flow, held)
    ensures Waiting(gens, outcomes + [Took(p, |gens|)], flow, held + if flow == p.flow then [p.id] else [])
  {
    PendingNext(outcomes, Took(p, |gens|), flow);
  }

  lemma PassKeepsQueues(s: State, p: Packet, at: nat)
    requires QueuesOk(s)
    ensures QueuesOk(s.(outcomes := s.outcomes + [Passed(p, at)]))
  {
    hide Quiet, HeldBy;
    var o := Passed(p, at);
    OutcomeKeepsPaired(s.gens, s.outcomes, o);
    forall flow: Flow ensures Waiting(s.gens, s.outcomes + [o], flow, HeldBy(s.flows, flow)) {
      assert Waiting(s.gens, s.outcomes, flow, HeldBy(s.flows, flow));
      PendingNext(s.outcomes, o, flow);
    }
  }

  lemma HandleKeepsQueues(cfg: Config, s: State, p: Packet, k: Kernel)
    requires Inv(cfg, s) && QueuesOk(s) && k.now > 0
    ensures QueuesOk(HandlePacket(cfg, s, p, k).0)
  {
    hide Inv, QueuesOk, HandleSyn, HandleClose, HandleClientHello, HandleServerHello, HandleData;
    if !p.protected || s.quarantined {
    } else if p.toServer && p.syn && !p.ack {
      SynKeepsQueues(cfg, s, p, k);
    } else if cfg.selector && p.toServer && p.payload == 0 && p.finOrRst {
      CloseFlowKeepsQueues(cfg, s, p, k);
    } else if p.toServer && p.payload > 0 && p.clientHello.Some? {
      ClientHelloKeepsQueues(cfg, s, p, p.clientHello.value, k);
    } else if !p.toServer && p.payload > 0 && p.serverHello.Some? {
      ServerHelloKeepsQueues(cfg, s, p, p.serverHello.value, k);
    } else {
      DataKeepsQueues(cfg, s, p, k);
    }
  }

  lemma CountedKeepsQueues(s: State, p: Packet, a: Action)
    requires QueuesOk(s)
    ensures QueuesOk(Counted(s, p, a))
  {
    hide QueuesOk;
    if Passes(a) {
      var c := s.(copied := s.copied + 1, accepted := s.accepted + 1);
      SameKeepsQueues(s, c);
      PassKeepsQueues(c, p, |c.gens|);
    } else {
      SameKeepsQueues(s, Counted(s, p, a));
    }
  }

  lemma CallbackKeepsQueues(cfg: Config, s: State, p: Packet, k: Kernel)
    requires Inv(cfg, s) && QueuesOk(s) && k.now > 0
    ensures QueuesOk(Callback(cfg, s, p, k).0)
  {
    hide TracksOk, GensOk, OutcomesOk, Conserved, SessionsOk, QueuesOk, HandlePacket, Counted;
    HandleKeepsQueues(cfg, s, p, k);
    var r := if p.parsed then HandlePacket(cfg, s, p, k) else (s, Drop);
    CountedKeepsQueues(r.0, p, r.1);
  }

  lemma ConcludedKeepsQueues(cfg: Config, s: State, i: nat, x: Session, k: Kernel)
    requires Inv(cfg, s) && QueuesOk(s) && i < |s.flows| && s.flows[i].Live? && s.flows[i].entry.helloSeen
    ensures QueuesOk(Concluded(s, i, x, Allows(cfg, s, x, s.flows[i].entry, k), k))
  {
    hide QueuesOk, FinishHeld;
    var g := s.flows[i].entry;
    var allow := Allows(cfg, s, x, g, k);
    var after := g.(held := [], phase := if allow then Admitted else Denied, stateNs := k.now, deadlineNs := 0);
    assert GateOk(g) && GateOk(after);
    QuarantinedKeepsQueues(s);
    var q := if allow then s else Quarantined(s);
    FinishKeepsQueues(cfg, q, [if allow then AdmitItem(g, x) else Deny(g.key)], i, after, allow, k.sent);
  }

  lemma DecisionKeepsQueues(cfg: Config, s: State, id: nat, k: Kernel)
    requires Inv(cfg, s) && QueuesOk(s) && id < |s.sessions|
    ensures QueuesOk(ApplyDecision(cfg, s, id, k))
  {
    hide Inv, QueuesOk, Concluded, Allows;
    var x := s.sessions[id];
    QuarantinedKeepsQueues(s);
    var t := ApplyDecision(cfg, s, id, k);
    if Applies(s, x) {
      var i := FindGate(s, x.flow).value;
      ConcludedKeepsQueues(cfg, s, i, x, k);
      SameKeepsQueues(Concluded(s, i, x, Allows(cfg, s, x, s.flows[i].entry, k), k), t);
    } else {
      SameKeepsQueues(Quarantined(s), t);
    }
  }

  lemma ExpireOneKeepsQueues(cfg: Config, s: State, i: nat, now: nat, sent: nat -> bool)
    requires Inv(cfg, s) && QueuesOk(s) && i < |s.flows|
    ensures QueuesOk(ExpireOne(s, i, now, sent))
  {
    hide QueuesOk, HeldBy;
    if s.flows[i].Live? {
      var g := s.flows[i].entry;
      if Overdue(g, now) {
        var after := g.(held := [], phase := Denied, deadlineNs := 0, stateNs := now);
        FinishKeepsQueues(cfg, s, [], i, after, false, sent);
        assert s.(gens := s.gens + []) == s;
        var t := SetGate(FinishHeld(s, i, false, sent), i, after);
        HeldAfterGateWrite(cfg, s.flows, i, after, g.key);
        assert t.flows == s.flows[i := Live(after)];
        ItemKeepsQueues(t, Deny(g.key));
        QuarantinedKeepsQueues(t.(gens := s.gens + [Deny(g.key)]));
      } else if Retired(g, now) {
        CloseKeepsQueues(cfg, s, i);
      }
    }
  }

  lemma {:induction false} ExpireFromKeepsQueues(cfg: Config, s: State, i: nat, now: nat, sent: nat -> bool)
    requires Inv(cfg, s) && QueuesOk(s) && i <= |s.flows|
    ensures QueuesOk(ExpireFrom(s, i, now, sent))
    decreases |s.flows| - i
  {
    hide Inv, QueuesOk, ExpireOne;
    if i < |s.flows| {
      ExpireOneKeeps(cfg, s, i, now, sent);
      ExpireOneKeepsQueues(cfg, s, i, now, sent);
      ExpireFromKeepsQueues(cfg, ExpireOne(s, i, now, sent), i + 1, now, sent);
    }
  }

  lemma {:induction false} DropAllKeepsQueues(cfg: Config, s: State, i: nat, sent: nat -> bool)
    requires Inv(cfg, s) && QueuesOk(s) && i <= |s.flows|
    ensures QueuesOk(DropAllFrom(s, i, sent))
    decreases |s.flows| - i
  {
    hide Inv, QueuesOk;
    if i < |s.flows| {
      DropHeldKeeps(cfg, s, i, sent);
      DropHeldKeepsQueues(cfg, s, i, sent);
      DropAllKeepsQueues(cfg, DropHeldAt(s, i, sent), i + 1, sent);
    }
  }

  /** Every step keeps the queues. */
  lemma StepKeepsQueues(cfg: Config, s: State, ev: Event)
    requires Inv(cfg, s) && QueuesOk(s) && Allowed(ev)
    ensures QueuesOk(Step(cfg, s, ev))
  {
    hide QueuesOk, Callback, ApplyDecision, ExpireFrom, DropAllFrom;
    match ev
    case GotPacket(p, k) => CallbackKeepsQueues(cfg, s, p, k);
    case Decided(k) =>
      if s.decisions != [] {
        var t := s.(decisions := s.decisions[1..]);
        SessionsOnly(cfg, s, t);
        SameKeepsQueues(s, t);
        if s.decisions[0] < |s.sessions| {
          DecisionKeepsQueues(cfg, t, s.decisions[0], k);
        }
      }
    case Scanned(now, sent) =>
      if ScanDue(s.lastScan, now) {
        var t := s.(lastScan := now);
        CountersKeep(cfg, s, t);
        SameKeepsQueues(s, t);
        ExpireFromKeepsQueues(cfg, t, 0, now, sent);
      }
    case Drained(sent) => DropAllKeepsQueues(cfg, s, 0, sent);
    case _ => SameKeepsQueues(s, Step(cfg, s, ev));
  }
}
