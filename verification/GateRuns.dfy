/** Safety of the gate over whole runs: data-path safety, the quarantine, what happens to held
    packets, and the table of gates as a map from flows to gates. */
module GateRuns {
  import opened Basics
  import opened ProbeTable
  import opened Gate
  import opened GateInvariant
  import opened GateQueues

  function After(cfg: Config, evs: seq<Event>): (s: State) {
    if evs == [] then Init()
    else
      var s := After(cfg, evs[..|evs| - 1]);
      if |s.flows| == FLOW_CAPACITY then Step(cfg, s, evs[|evs| - 1]) else s
  }

  ghost predicate IsRun(evs: seq<Event>) {
    forall k | 0 <= k < |evs| :: Allowed(evs[k])
  }

  /** The invariant holds in every reachable state. */
  lemma {:induction false} ReachableOk(cfg: Config, evs: seq<Event>)
    requires IsRun(evs)
    ensures Inv(cfg, After(cfg, evs))
  {
    if evs == [] {
      InitOk(cfg);
    } else {
      ReachableOk(cfg, evs[..|evs| - 1]);
      StepKeeps(cfg, After(cfg, evs[..|evs| - 1]), evs[|evs| - 1]);
    }
  }

  /** The generation the history says is current was admitted on a verified report. */
  predicate AdmittedOnProof(cfg: Config, gens: seq<GenItem>, flow: Flow) {
    && LastAbout(gens, flow).Some?
    && var x := LastAbout(gens, flow).value;
       && x.Admit? && x.flow == flow
       && cfg.verify(x.report, Expected(cfg, x.reportKey, x.clientKey)) && (cfg.mutual ==> x.accepted)
  }

  /** In every reachable state the queue that the history gives for a flow is what the flow's live
      gate holds, and every verdict was on the packet that had waited longest. */
  lemma {:induction false} QueuesReachable(cfg: Config, evs: seq<Event>)
    requires IsRun(evs)
    ensures Inv(cfg, After(cfg, evs)) && QueuesOk(After(cfg, evs))
  {
    hide Inv, QueuesOk, Step;
    ReachableOk(cfg, evs);
    if evs == [] {
      EmptyQueues();
    } else {
      QueuesReachable(cfg, evs[..|evs| - 1]);
      StepKeepsQueues(cfg, After(cfg, evs[..|evs| - 1]), evs[|evs| - 1]);
    }
  }

  /** A packet with this id was put on hold on this flow, as gated data, and nothing happened to the
      flow's generation from then up to item n of the history. */
  predicate HeldUntil(gens: seq<GenItem>, o: Outcome, id: nat, flow: Flow, n: nat) {
    o.Took? && o.packet.id == id && o.packet.flow == flow && GatedData(o.packet) && Quiet(gens, flow, o.at, n)
  }

  lemma LastIsSound(cfg: Config, gens: seq<GenItem>, quarantined: bool, at: nat, flow: Flow)
    requires GensOk(cfg, gens, quarantined) && at <= |gens|
    requires LastAbout(gens[..at], flow).Some? && LastAbout(gens[..at], flow).value.Admit?
    ensures AdmittedOnProof(cfg, gens[..at], flow)
  {
    LastAboutIsThere(gens[..at], flow);
    var x := LastAbout(gens[..at], flow).value;
    var j :| 0 <= j < at && gens[j] == x;
    assert AdmitSound(cfg, gens[j]);
  }

  /** A released packet was put on hold in the generation that its release admits. */
  lemma ReleaseIsOfHold(gens: seq<GenItem>, outcomes: seq<Outcome>, k: nat)
    requires LogPaired(gens, outcomes) && OutcomesOk(gens, outcomes)
    requires k < |outcomes| && outcomes[k].Judged? && outcomes[k].accept
    ensures var o := outcomes[k];
            0 < o.at <= |gens|
            && exists j :: 0 <= j < k && HeldUntil(gens, outcomes[j], o.id, o.flow, o.at - 1)
  {
    hide Pending;
    var o := outcomes[k];
    assert OutcomeOk(gens, o) && Paired(gens, outcomes, k);
    var j := Pending(outcomes[..k], o.flow)[0];
    assert OutcomeOk(gens, outcomes[j]);
    var before := gens[..o.at];
    assert before[|before| - 1] == gens[o.at - 1] && LastAbout(before, o.flow) == Some(gens[o.at - 1]);
    assert HeldUntil(gens, outcomes[j], o.id, o.flow, o.at - 1);
  }

  /** What passes is backed by the admission of its flow's current generation, what is released had
      been put on hold on the flow whose admission released it, in the very generation that was
      admitted, and neither these nor any protected packet comes after the quarantine. */
  ghost predicate Safe(cfg: Config, gens: seq<GenItem>, outcomes: seq<Outcome>, k: nat)
    requires k < |outcomes|
  {
    match outcomes[k]
    case Passed(p, at) =>
      && at <= |gens| && (p.parsed && p.protected ==> !QuarantinedBefore(gens, at))
      && (p.parsed && GatedData(p) ==> AdmittedOnProof(cfg, gens[..at], p.flow))
    case Judged(id, flow, accept, _, at) =>
      accept ==>
        && 0 < at <= |gens| && AdmittedOnProof(cfg, gens[..at], flow) && !QuarantinedBefore(gens, at)
        && gens[at - 1].Admit? && gens[at - 1].flow == flow
        && exists j :: 0 <= j < k && HeldUntil(gens, outcomes[j], id, flow, at - 1)
    case Took(p, at) =>
      && GatedData(p) && at <= |gens| && !QuarantinedBefore(gens, at)
      && LastAbout(gens[..at], p.flow) == Some(Reset(p.flow))
  }

  /** Data-path safety of every outcome in every run. */
  lemma DataPathSafety(cfg: Config, evs: seq<Event>, k: nat)
    requires IsRun(evs) && k < |After(cfg, evs).outcomes|
    ensures Safe(cfg, After(cfg, evs).gens, After(cfg, evs).outcomes, k)
  {
    hide After, IsRun, TracksOk, TableOk, Conserved, SessionsOk, AllWaiting, LogPaired, GensOk, OutcomesOk, Safe;
    QueuesReachable(cfg, evs);
    var s := After(cfg, evs);
    HistoryIsSafe(cfg, s.gens, s.outcomes, s.quarantined, k);
  }

  lemma HistoryIsSafe(cfg: Config, gens: seq<GenItem>, outcomes: seq<Outcome>, quarantined: bool, k: nat)
    requires GensOk(cfg, gens, quarantined) && OutcomesOk(gens, outcomes) && LogPaired(gens, outcomes)
    requires k < |outcomes|
    ensures Safe(cfg, gens, outcomes, k)
  {
    hide GensOk, LogPaired, QuarantinedBefore, AdmittedOnProof, HeldUntil, GatedData;
    var o := outcomes[k];
    assert OutcomeOk(gens, o);
    if o.Passed? && o.packet.parsed && GatedData(o.packet) {
      LastIsSound(cfg, gens, quarantined, o.at, o.packet.flow);
    } else if o.Judged? && o.accept {
      assert gens[..o.at][o.at - 1] == gens[o.at - 1];
      LastIsSound(cfg, gens, quarantined, o.at, o.flow);
      ReleaseIsOfHold(gens, outcomes, k);
    }
  }

  /** Verdicts are given in the order in which the packets of a flow were put on hold: two verdicts
      of one flow are on two holds with their ids, the earlier on the earlier. */
  lemma FirstHeldFirstJudged(cfg: Config, evs: seq<Event>, k: nat, l: nat)
    requires IsRun(evs)
    requires var outcomes := After(cfg, evs).outcomes;
             k < l < |outcomes| && outcomes[k].Judged? && outcomes[l].Judged? && outcomes[k].flow == outcomes[l].flow
    ensures var outcomes := After(cfg, evs).outcomes;
            var flow := outcomes[k].flow;
            var (q, r) := (Pending(outcomes[..k], flow), Pending(outcomes[..l], flow));
            && q != [] && r != [] && q[0] < r[0]
            && outcomes[q[0]].packet.id == outcomes[k].id && outcomes[r[0]].packet.id == outcomes[l].id
  {
    hide Inv, AllWaiting, OneWait, After, Pending, IsRun;
    QueuesReachable(cfg, evs);
    var s := After(cfg, evs);
    assert Paired(s.gens, s.outcomes, k) && Paired(s.gens, s.outcomes, l);
    OldestLeaves(s.outcomes, k, l, s.outcomes[k].flow);
  }

  /** The quarantine covers every denial and is final: once it is in the history no generation is
      started or admitted again. */
  lemma QuarantineIsFinal(cfg: Config, evs: seq<Event>, k: nat, l: nat)
    requires IsRun(evs) && k < |After(cfg, evs).gens|
    ensures var s := After(cfg, evs);
            && (s.gens[k].Deny? ==> s.quarantined)
            && (s.gens[k].Quarantine? ==> s.quarantined)
            && (s.gens[k].Quarantine? && k < l < |s.gens| ==> s.gens[l].Deny? || s.gens[l].Closed?)
  {
    ReachableOk(cfg, evs);
  }

  /** What may happen to a packet after the quarantine. */
  predicate Blocked(o: Outcome) {
    match o
    case Took(_, _) => false
    case Judged(_, _, accept, _, _) => !accept
    case Passed(p, _) => !p.protected
  }

  ghost predicate Blocks(s: State, t: State) {
    && t.quarantined && |t.flows| == |s.flows| && s.outcomes <= t.outcomes
    && (forall k | |s.outcomes| <= k < |t.outcomes| :: Blocked(t.outcomes[k]))
  }

  lemma {:induction false} ScanBlocks(s: State, i: nat, now: nat, sent: nat -> bool)
    requires s.quarantined && i <= |s.flows|
    ensures Blocks(s, ExpireFrom(s, i, now, sent))
    decreases |s.flows| - i
  {
    if i < |s.flows| {
      ScanBlocks(ExpireOne(s, i, now, sent), i + 1, now, sent);
    }
  }

  lemma {:induction false} DrainBlocks(s: State, i: nat, sent: nat -> bool)
    requires s.quarantined && i <= |s.flows|
    ensures Blocks(s, DropAllFrom(s, i, sent))
    decreases |s.flows| - i
  {
    if i < |s.flows| {
      DrainBlocks(DropHeldAt(s, i, sent), i + 1, sent);
    }
  }

  lemma StepBlocks(cfg: Config, s: State, ev: Event)
    requires s.quarantined && |s.flows| == FLOW_CAPACITY
    ensures Blocks(s, Step(cfg, s, ev))
  {
    hide CountSent, FindMatch, FindSession, HandleSyn, HandleClose, HandleClientHello, HandleServerHello, HandleData;
    match ev
    case Scanned(now, sent) =>
      if ScanDue(s.lastScan, now) {
        ScanBlocks(s.(lastScan := now), 0, now, sent);
      }
    case Drained(sent) => DrainBlocks(s, 0, sent);
    case _ =>
  }

  /** However a run goes on after the quarantine, it stays quarantined, no protected packet passes or
      is put on hold, and no held one is released. */
  lemma {:induction false} QuarantineStays(cfg: Config, evs: seq<Event>, more: seq<Event>)
    requires After(cfg, evs).quarantined
    ensures Blocks(After(cfg, evs), After(cfg, evs + more))
  {
    hide Step, Blocked;
    if more == [] {
      assert evs + more == evs;
    } else {
      var n := |more| - 1;
      assert (evs + more)[..|evs + more| - 1] == evs + more[..n];
      QuarantineStays(cfg, evs, more[..n]);
      var s := After(cfg, evs + more[..n]);
      if |s.flows| == FLOW_CAPACITY {
        StepBlocks(cfg, s, more[n]);
      }
    }
  }

  /** A denied gate stays denied until its slot is recycled, whatever happens. */
  lemma DeniedStays(cfg: Config, s: State, ev: Event, i: nat)
    requires Inv(cfg, s) && Allowed(ev)
    requires i < |s.flows| && s.flows[i].Live? && s.flows[i].entry.phase == Denied
    ensures var t := Step(cfg, s, ev);
            && s.quarantined && t.quarantined && i < |t.flows|
            && (t.flows[i].Tombstone?
                || (t.flows[i].Live? && t.flows[i].entry.phase == Denied
                    && t.flows[i].entry.key == s.flows[i].entry.key))
  {
    hide Inv, FindSession, IsGeneration, Judgements, CountSent;
    if !s.quarantined {
      NotDenied(cfg, s, i);
    }
    match ev
    case Scanned(now, sent) =>
      if ScanDue(s.lastScan, now) {
        CountersKeep(cfg, s, s.(lastScan := now));
        ScanKeepsDenied(cfg, s.(lastScan := now), 0, now, sent, i);
      }
    case Drained(sent) => DrainKeepsDenied(cfg, s, 0, sent, i);
    case _ =>
  }

  predicate StillDenied(s: State, t: State, i: nat) {
    && i < |s.flows| && i < |t.flows| && t.quarantined
    && (t.flows[i].Tombstone?
        || (s.flows[i].Live? && t.flows[i].Live? && t.flows[i].entry.phase == Denied
            && t.flows[i].entry.key == s.flows[i].entry.key))
  }

  lemma {:induction false} ScanKeepsDenied(cfg: Config, s: State, j: nat, now: nat, sent: nat -> bool, i: nat)
    requires Inv(cfg, s) && j <= |s.flows| && StillDenied(s, s, i)
    ensures StillDenied(s, ExpireFrom(s, j, now, sent), i)
    decreases |s.flows| - j
  {
    if j < |s.flows| {
      ExpireOneKeeps(cfg, s, j, now, sent);
      ScanKeepsDenied(cfg, ExpireOne(s, j, now, sent), j + 1, now, sent, i);
    }
  }

  lemma {:induction false} DrainKeepsDenied(cfg: Config, s: State, j: nat, sent: nat -> bool, i: nat)
    requires Inv(cfg, s) && j <= |s.flows| && StillDenied(s, s, i)
    ensures StillDenied(s, DropAllFrom(s, j, sent), i)
    decreases |s.flows| - j
  {
    if j < |s.flows| {
      DropHeldKeeps(cfg, s, j, sent);
      DrainKeepsDenied(cfg, DropHeldAt(s, j, sent), j + 1, sent, i);
    }
  }

  // ----- held packets -----

  /** In every run a packet put on hold once is at any moment either held by one gate or has been
      given one verdict, and the packet counters balance. */
  lemma HeldConservation(cfg: Config, evs: seq<Event>, id: nat)
    requires IsRun(evs)
    ensures var s := After(cfg, evs);
            && TimesHeld(s.outcomes, id) == TimesJudged(s.outcomes, id) + Held(s.flows, HowOften(id), |s.flows|)
            && s.copied == s.accepted + s.dropped + Held(s.flows, HowMany(), |s.flows|) + s.failed
  {
    ReachableOk(cfg, evs);
  }

  ghost predicate NothingOverdue(s: State, now: nat, n: nat)
    requires n <= |s.flows|
  {
    forall j | 0 <= j < n && s.flows[j].Live? && s.flows[j].entry.held != [] :: now < s.flows[j].entry.deadlineNs
  }

  lemma {:induction false} ScanClearsFrom(cfg: Config, s: State, i: nat, now: nat, sent: nat -> bool)
    requires Inv(cfg, s) && i <= |s.flows| && NothingOverdue(s, now, i)
    ensures var t := ExpireFrom(s, i, now, sent); |t.flows| == |s.flows| && NothingOverdue(t, now, |t.flows|)
    decreases |s.flows| - i
  {
    hide TracksOk, GensOk, OutcomesOk, Conserved, SessionsOk, WellProbed;
    if i < |s.flows| {
      ExpireOneKeeps(cfg, s, i, now, sent);
      var t := ExpireOne(s, i, now, sent);
      forall j | 0 <= j <= i && t.flows[j].Live? && t.flows[j].entry.held != []
        ensures now < t.flows[j].entry.deadlineNs
      {
        assert j < i ==> t.flows[j] == s.flows[j];
        assert GateOk(t.flows[j].entry);
      }
      ScanClearsFrom(cfg, t, i + 1, now, sent);
    }
  }

  /** No packet is held past the first scan at or after its gate's deadline. */
  lemma ScanClearsOverdue(cfg: Config, evs: seq<Event>, now: nat, sent: nat -> bool)
    requires IsRun(evs) && ScanDue(After(cfg, evs).lastScan, now)
    ensures var t := After(cfg, evs + [Scanned(now, sent)]);
            NothingOverdue(t, now, |t.flows|)
  {
    ReachableOk(cfg, evs);
    var s := After(cfg, evs);
    CountersKeep(cfg, s, s.(lastScan := now));
    ScanClearsFrom(cfg, s.(lastScan := now), 0, now, sent);
    assert (evs + [Scanned(now, sent)])[..|evs|] == evs;
  }

  lemma {:induction false} DrainClearsFrom(cfg: Config, s: State, i: nat, sent: nat -> bool)
    requires Inv(cfg, s) && i <= |s.flows| && Held(s.flows, HowMany(), i) == 0
    ensures var t := DropAllFrom(s, i, sent); Held(t.flows, HowMany(), |t.flows|) == 0
    decreases |s.flows| - i
  {
    if i < |s.flows| {
      DropHeldKeeps(cfg, s, i, sent);
      var t := DropHeldAt(s, i, sent);
      if s.flows[i].Live? {
        HeldAfterWrite(s.flows, HowMany(), i, t.flows[i], i);
      }
      DrainClearsFrom(cfg, t, i + 1, sent);
    }
  }

  /** At shutdown every held packet gets its verdict. */
  lemma ShutdownClears(cfg: Config, evs: seq<Event>, sent: nat -> bool)
    requires IsRun(evs)
    ensures var t := After(cfg, evs + [Drained(sent)]);
            Held(t.flows, HowMany(), |t.flows|) == 0 && t.copied == t.accepted + t.dropped + t.failed
  {
    ReachableOk(cfg, evs);
    DrainClearsFrom(cfg, After(cfg, evs), 0, sent);
    assert (evs + [Drained(sent)])[..|evs|] == evs;
    ReachableOk(cfg, evs + [Drained(sent)]);
  }

  // ----- the table as a map -----

  /** The gates as a map. */
  ghost function View(cfg: Config, flows: seq<Cell<GateFlow>>): map<Flow, GateFlow>
    requires TableOk(cfg, flows)
  {
    map i | 0 <= i < |flows| && flows[i].Live? :: flows[i].entry.key := flows[i].entry
  }

  lemma ViewAt(cfg: Config, flows: seq<Cell<GateFlow>>, i: nat)
    requires TableOk(cfg, flows) && i < |flows| && flows[i].Live?
    ensures flows[i].entry.key in View(cfg, flows) && View(cfg, flows)[flows[i].entry.key] == flows[i].entry
  {
  }

  /** Searching the table is looking the flow up in the map. */
  lemma SearchIsLookup(cfg: Config, flows: seq<Cell<GateFlow>>, flow: Flow)
    requires TableOk(cfg, flows)
    ensures var r := FindMatch(flows, HasFlow(flow));
            && (r.Some? <==> flow in View(cfg, flows))
            && (r.Some? ==> flows[r.value].entry == View(cfg, flows)[flow])
  {
  }

  /** Writing the slot chosen for a flow is a map update. */
  lemma WriteIsUpdate(cfg: Config, flows: seq<Cell<GateFlow>>, i: nat, g: GateFlow)
    requires TableOk(cfg, flows) && IsSlotFor(cfg, flows, i, g.key) && GateOk(g)
    ensures TableOk(cfg, flows[i := Live(g)])
    ensures View(cfg, flows[i := Live(g)]) == View(cfg, flows)[g.key := g]
  {
    hide TableOk, FindMatch;
    WriteKeepsTable(cfg, flows, i, g);
    var after := flows[i := Live(g)];
    var a, b := View(cfg, after), View(cfg, flows)[g.key := g];
    forall f ensures f in a <==> f in b
             ensures f in a && f in b ==> a[f] == b[f] {
      FindAfterWrite(cfg, flows, i, g, f);
      SearchIsLookup(cfg, flows, f);
      SearchIsLookup(cfg, after, f);
    }
  }

  /** Tombstoning a gate is removing its flow from the map. */
  lemma RemoveIsRemoval(cfg: Config, flows: seq<Cell<GateFlow>>, i: nat)
    requires TableOk(cfg, flows) && i < |flows| && flows[i].Live?
    ensures TableOk(cfg, flows[i := Tombstone])
    ensures View(cfg, flows[i := Tombstone]) == View(cfg, flows) - {flows[i].entry.key}
  {
    hide TableOk, FindMatch;
    RemoveKeepsTable(cfg, flows, i);
    var after := flows[i := Tombstone];
    var a, b := View(cfg, after), View(cfg, flows) - {flows[i].entry.key};
    forall f ensures f in a <==> f in b
             ensures f in a && f in b ==> a[f] == b[f] {
      FindAfterRemoval(cfg, flows, i, f);
      SearchIsLookup(cfg, flows, f);
      SearchIsLookup(cfg, after, f);
    }
  }

  /** The slot search for a flow fails exactly when all 8192 slots hold live gates of other flows. */
  lemma SlotRefusedExactly(cfg: Config, s: State, flow: Flow)
    requires TableOk(cfg, s.flows)
    ensures SlotFor(cfg, s, flow).None? <==>
              && flow !in View(cfg, s.flows)
              && forall i | 0 <= i < |s.flows| :: s.flows[i].Live? && s.flows[i].entry.key != flow
  {
    SearchIsLookup(cfg, s.flows, flow);
    FullExactly(s.flows, cfg.flowHash(flow));
    if flow !in View(cfg, s.flows) {
      forall i | 0 <= i < |s.flows| && s.flows[i].Live? ensures s.flows[i].entry.key != flow {
        ViewAt(cfg, s.flows, i);
      }
    }
  }

  /** A new generation is a map update, and the close cleanup a removal. */
  lemma ResetAndCloseOnMap(cfg: Config, s: State, i: nat, flow: Flow, k: Kernel)
    requires Inv(cfg, s) && !s.quarantined && IsSlotFor(cfg, s.flows, i, flow) && k.now > 0
    ensures TableOk(cfg, ResetGate(cfg, s, i, flow, k).flows)
    ensures View(cfg, ResetGate(cfg, s, i, flow, k).flows) == View(cfg, s.flows)[flow := FreshGate(cfg, flow, k.now)]
    ensures s.flows[i].Live? ==>
              var t := CloseGate(DropHeldAt(s, i, k.sent), i);
              TableOk(cfg, t.flows) && View(cfg, t.flows) == View(cfg, s.flows) - {flow}
  {
    hide View, TracksOk, GensOk, OutcomesOk, Conserved, SessionsOk, Judgements, CountSent;
    DropHeldKeeps(cfg, s, i, k.sent);
    var t := DropHeldAt(s, i, k.sent);
    var g := FreshGate(cfg, flow, k.now);
    WriteIsUpdate(cfg, s.flows, i, g);
    assert t.flows[i := Live(g)] == s.flows[i := Live(g)];
    if s.flows[i].Live? {
      RemoveIsRemoval(cfg, s.flows, i);
      assert t.flows[i := Tombstone] == s.flows[i := Tombstone];
    }
  }

  /** What the expiry scan makes of one gate. */
  function Expired(g: GateFlow, now: nat): Option<GateFlow> {
    if Overdue(g, now) then Some(g.(held := [], phase := Denied, deadlineNs := 0, stateNs := now))
    else if Retired(g, now) then None
    else Some(g)
  }

  /** The expiry scan, slot by slot, treats every gate by itself: no slot is missed or visited
      twice, whatever it tombstones on the way. */
  lemma {:induction false} ScanCellwise(cfg: Config, s: State, i: nat, now: nat, sent: nat -> bool, j: nat)
    requires i <= |s.flows| && j < |s.flows|
    ensures var t := ExpireFrom(s, i, now, sent);
            && |t.flows| == |s.flows|
            && t.flows[j] == if j < i || !s.flows[j].Live? then s.flows[j]
                             else if Expired(s.flows[j].entry, now).Some? then
                               Live(Expired(s.flows[j].entry, now).value)
                             else Tombstone
    decreases |s.flows| - i
  {
    if i < |s.flows| {
      ScanCellwise(cfg, ExpireOne(s, i, now, sent), i + 1, now, sent, j);
    }
  }

  /** So on the map the scan retires and denies flow by flow. */
  lemma ScanOnMap(cfg: Config, s: State, now: nat, sent: nat -> bool)
    requires Inv(cfg, s)
    ensures TableOk(cfg, ExpireFrom(s, 0, now, sent).flows)
    ensures var a, b := View(cfg, s.flows), View(cfg, ExpireFrom(s, 0, now, sent).flows);
            && (forall f :: f in b <==> f in a && Expired(a[f], now).Some?)
            && (forall f | f in b :: Some(b[f]) == Expired(a[f], now))
  {
    ExpireFromKeeps(cfg, s, 0, now, sent);
    var t := ExpireFrom(s, 0, now, sent);
    var a, b := View(cfg, s.flows), View(cfg, t.flows);
    forall f
      ensures f in b <==> f in a && Expired(a[f], now).Some?
      ensures f in b ==> Some(b[f]) == Expired(a[f], now)
    {
      SearchIsLookup(cfg, s.flows, f);
      SearchIsLookup(cfg, t.flows, f);
      FindAfterScan(cfg, s, now, sent, f);
    }
  }

  lemma FindAfterScan(cfg: Config, s: State, now: nat, sent: nat -> bool, flow: Flow)
    requires Inv(cfg, s) && TableOk(cfg, ExpireFrom(s, 0, now, sent).flows)
    ensures var t := ExpireFrom(s, 0, now, sent);
            var x, y := FindGate(s, flow), FindGate(t, flow);
            && (y.Some? <==> x.Some? && Expired(s.flows[x.value].entry, now).Some?)
            && (y.Some? ==> Some(t.flows[y.value].entry) == Expired(s.flows[x.value].entry, now))
  {
    var t := ExpireFrom(s, 0, now, sent);
    var x, y := FindGate(s, flow), FindGate(t, flow);
    if x.Some? {
      ScanCellwise(cfg, s, 0, now, sent, x.value);
      if Expired(s.flows[x.value].entry, now).Some? {
        assert Matches(t.flows[x.value], HasFlow(flow));
        GateIsUnique(cfg, t.flows, flow, x.value);
      }
    }
    if y.Some? {
      ScanCellwise(cfg, s, 0, now, sent, y.value);
      assert Matches(s.flows[y.value], HasFlow(flow));
      GateIsUnique(cfg, s.flows, flow, y.value);
    }
  }
}
