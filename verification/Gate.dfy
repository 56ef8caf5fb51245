/** The client agent's gate as a state machine on values: per-flow gates in an open-addressed
    table, held packets, sessions shared with the control workers, and the endpoint quarantine.
    The steps are the packet handler, a decision, the expiry scan, the shutdown drain and the few
    writes the control workers make to a session. The non-audit build with
    TCPRA_SELECTOR_CLOSE_CLEANUP is modelled.

    Two histories are carried along to state what happened when: gens, the generations of the
    gates, and outcomes, what became of each packet. at is the length of gens at that moment. */
module Gate {
  import opened Basics
  import opened ProbeTable

  const FLOW_CAPACITY: nat := 8192
  const QUEUE_CAPACITY: nat := 8192
  const MAX_HELD: nat := 512
  const SCAN_PERIOD_NS: nat := 10_000_000
  const RETIRE_NS: nat := 120_000_000_000

  type FlowSlot = i: nat | i < FLOW_CAPACITY

  datatype Config = Config(
    mutual: bool,
    selector: bool,
    timeoutNs: nat,
    expected: nat,
    flowHash: Flow -> FlowSlot,
    clientReportKey: (Key, nat) -> Key,
    serverReportKey: (Key, Key) -> Key,
    verify: (Report, Key) -> bool)

  datatype Phase = Handshake | ServerHello | Admitted | Denied

  datatype GateFlow = GateFlow(
    helloSeen: bool, serverSeen: bool, phase: Phase, key: Flow, lookupKey: Key, reportKey: Key,
    stateNs: nat, deadlineNs: nat, cookie: nat, held: seq<nat>)

  /** report is the buffer the worker verified for the session. */
  datatype Session = Session(
    flow: Flow, lookupKey: Key, localKey: Key, clientKey: Key, report: Report,
    hasServerHello: bool, reportVerified: bool, clientReportAccepted: bool,
    decisionApplied: bool, gateAllowed: bool, finalized: bool)

  datatype GenItem =
    | Reset(flow: Flow)
    | Closed(flow: Flow)
    | Admit(flow: Flow, lookupKey: Key, reportKey: Key, cookie: nat, clientKey: Key, report: Report, accepted: bool)
    | Deny(flow: Flow)
    | Quarantine

  datatype Outcome =
    | Took(packet: Packet, at: nat)
    | Judged(id: nat, flow: Flow, accept: bool, sent: bool, at: nat)
    | Passed(packet: Packet, at: nat)

  /** A packet as the handler sees it: the normalized flow, the TCP flags, the payload length and
      what the two hello finders make of the payload. */
  datatype Packet = Packet(
    id: nat, parsed: bool, protected: bool, toServer: bool, flow: Flow,
    syn: bool, ack: bool, finOrRst: bool, payload: nat,
    clientHello: Option<Key>, serverHello: Option<Key>)

  datatype Action = Drop | Accept | Hold | Authorize

  /** What the kernel answers during one step: the clock, the cookie of a connecting and of an
      established socket, whether the nftables element was deleted, and whether setting the
      verdict of a held packet succeeds. */
  datatype Kernel = Kernel(now: nat, synCookie: Option<nat>, cookie: Option<nat>, deleted: bool, sent: nat -> bool)

  datatype State = State(
    flows: seq<Cell<GateFlow>>, sessions: seq<Session>, jobs: seq<nat>, decisions: seq<nat>,
    quarantined: bool, stopping: bool,
    copied: nat, accepted: nat, dropped: nat, failed: nat, lastScan: nat,
    gens: seq<GenItem>, outcomes: seq<Outcome>)

  function Init(): State {
    State(Empty(FLOW_CAPACITY), [], [], [], false, false, 0, 0, 0, 0, 0, [], [])
  }

  function GateHome(cfg: Config): GateFlow -> nat { (g: GateFlow) => cfg.flowHash(g.key) }

  function HasFlow(flow: Flow): GateFlow -> bool { (g: GateFlow) => g.key == flow }

  /** The live gate of a flow. */
  function FindGate(s: State, flow: Flow): Option<nat> {
    FindMatch(s.flows, HasFlow(flow))
  }

  /** gate_flow_slot: the flow's gate, else a free slot. */
  function SlotFor(cfg: Config, s: State, flow: Flow): Option<nat>
    requires |s.flows| == FLOW_CAPACITY
  {
    var found := FindGate(s, flow);
    if found.Some? then found else FreeSlot(s.flows, cfg.flowHash(flow))
  }

  function Quarantined(s: State): State {
    if s.quarantined then s else s.(quarantined := true, gens := s.gens + [Quarantine])
  }

  // ----- held packets -----

  function CountSent(ids: seq<nat>, sent: nat -> bool): (n: nat)
    ensures n <= |ids|
  {
    if ids == [] then 0 else CountSent(ids[..|ids| - 1], sent) + if sent(ids[|ids| - 1]) then 1 else 0
  }

  function Judgements(ids: seq<nat>, flow: Flow, accept: bool, sent: nat -> bool, at: nat): (r: seq<Outcome>)
    ensures |r| == |ids|
    ensures forall k | 0 <= k < |r| :: r[k] == Judged(ids[k], flow, accept, sent(ids[k]), at)
  {
    seq(|ids|, k requires 0 <= k < |ids| => Judged(ids[k], flow, accept, sent(ids[k]), at))
  }

  /** finish_held: one verdict for every packet the gate holds. */
  function FinishHeld(s: State, i: nat, accept: bool, sent: nat -> bool): State
    requires i < |s.flows| && s.flows[i].Live?
  {
    var g := s.flows[i].entry;
    var n := CountSent(g.held, sent);
    s.(flows := s.flows[i := Live(g.(held := []))],
       accepted := s.accepted + if accept then n else 0,
       dropped := s.dropped + if accept then 0 else n,
       failed := s.failed + (|g.held| - n),
       outcomes := s.outcomes + Judgements(g.held, g.key, accept, sent, |s.gens|))
  }

  function DropHeldAt(s: State, i: nat, sent: nat -> bool): State
    requires i < |s.flows|
  {
    if s.flows[i].Live? && s.flows[i].entry.held != [] then FinishHeld(s, i, false, sent) else s
  }

  /** reset_gate_flow: a new generation. */
  function ResetGate(cfg: Config, s: State, i: nat, flow: Flow, k: Kernel): State
    requires i < |s.flows|
  {
    var t := DropHeldAt(s, i, k.sent);
    t.(flows := t.flows[i := Live(FreshGate(cfg, flow, k.now))], gens := t.gens + [Reset(flow)])
  }

  function FreshGate(cfg: Config, flow: Flow, now: nat): GateFlow {
    GateFlow(false, false, Handshake, flow, Key(0), Key(0), now, now + cfg.timeoutNs, 0, [])
  }

  function CloseGate(s: State, i: nat): State
    requires i < |s.flows| && s.flows[i].Live?
  {
    s.(flows := s.flows[i := Tombstone], gens := s.gens + [Closed(s.flows[i].entry.key)])
  }

  function SetGate(s: State, i: nat, g: GateFlow): State
    requires i < |s.flows|
  {
    s.(flows := s.flows[i := Live(g)])
  }

  // ----- sessions -----

  /** find_generation: the newest unfinished session of a flow and lookup key, among the first n. */
  function FindSession(sessions: seq<Session>, flow: Flow, key: Key, n: nat): (r: Option<nat>)
    requires n <= |sessions|
    ensures r.Some? ==> r.value < n && IsGeneration(sessions[r.value], flow, key)
    ensures r.None? ==> forall j | 0 <= j < n :: !IsGeneration(sessions[j], flow, key)
  {
    if n == 0 then None
    else if IsGeneration(sessions[n - 1], flow, key) then Some(n - 1)
    else FindSession(sessions, flow, key, n - 1)
  }

  predicate IsGeneration(x: Session, flow: Flow, key: Key) {
    !x.finalized && x.flow == flow && x.lookupKey == key
  }

  function NewSession(flow: Flow, key: Key): Session {
    Session(flow, key, Key(0), Key(0), Report(0), false, false, false, false, false, false)
  }

  /** client_observe_hello: start a control job for a new generation. */
  function ObserveHello(cfg: Config, s: State, flow: Flow, key: Key): (State, bool) {
    if FindSession(s.sessions, flow, key, |s.sessions|).Some? then (s, true)
    else if |s.sessions| >= cfg.expected then (s, false)
    else
      var t := s.(sessions := s.sessions + [NewSession(flow, key)]);
      if |s.jobs| < QUEUE_CAPACITY && !s.stopping then (t.(jobs := s.jobs + [|s.sessions|]), true) else (t, false)
  }

  /** client_observe_server_key: the first ServerHello of a generation reaches its session. */
  function ObserveServerKey(s: State, flow: Flow, lookupKey: Key, reportKey: Key): State {
    match FindSession(s.sessions, flow, lookupKey, |s.sessions|)
    case None => s
    case Some(id) =>
      if s.sessions[id].hasServerHello then s
      else s.(sessions := s.sessions[id := s.sessions[id].(localKey := reportKey, hasServerHello := true)])
  }

  // ----- packets -----

  function HandleSyn(cfg: Config, s: State, p: Packet, k: Kernel): (State, Action)
    requires |s.flows| == FLOW_CAPACITY
  {
    var slot := SlotFor(cfg, s, p.flow);
    if k.synCookie.None? || slot.None? then (Quarantined(s), Drop)
    else
      var t := ResetGate(cfg, s, slot.value, p.flow, k);
      (SetGate(t, slot.value, t.flows[slot.value].entry.(cookie := k.synCookie.value)), Accept)
  }

  function HandleClose(s: State, p: Packet, k: Kernel): (State, Action) {
    match FindGate(s, p.flow)
    case None => (s, Accept)
    case Some(i) => (CloseGate(DropHeldAt(s, i, k.sent), i), Accept)
  }

  /** A ClientHello of a new generation: the gate is reset and a control job started. */
  function NewGeneration(cfg: Config, s: State, i: nat, flow: Flow, key: Key, k: Kernel): (State, bool)
    requires |s.flows| == FLOW_CAPACITY && i < |s.flows| && k.cookie.Some?
  {
    var t := ResetGate(cfg, s, i, flow, k);
    var g := t.flows[i].entry.(cookie := k.cookie.value, helloSeen := true, lookupKey := key);
    ObserveHello(cfg, SetGate(t, i, g), flow, key)
  }

  function HandleClientHello(cfg: Config, s: State, p: Packet, key: Key, k: Kernel): (State, Action)
    requires |s.flows| == FLOW_CAPACITY
  {
    var slot := SlotFor(cfg, s, p.flow);
    if k.cookie.None? || slot.None? then (Quarantined(s), Drop)
    else if s.flows[slot.value].Live? && s.flows[slot.value].entry.helloSeen
            && s.flows[slot.value].entry.cookie == k.cookie.value && s.flows[slot.value].entry.lookupKey == key then
      (s, Accept)
    else
      var r := NewGeneration(cfg, s, slot.value, p.flow, key, k);
      (r.0, if r.1 then Accept else Drop)
  }

  function HandleServerHello(s: State, p: Packet, key: Key, k: Kernel): (State, Action) {
    var found := FindGate(s, p.flow);
    if found.None? || !s.flows[found.value].entry.helloSeen then (s, Drop)
    else if s.flows[found.value].entry.serverSeen then (s, Accept)
    else
      var g := s.flows[found.value].entry
               .(serverSeen := true, phase := ServerHello, stateNs := k.now, reportKey := key);
      (ObserveServerKey(SetGate(s, found.value, g), p.flow, g.lookupKey, key), Accept)
  }

  function HandleData(s: State, p: Packet, k: Kernel): (State, Action) {
    var found := FindGate(s, p.flow);
    if found.None? then (s, if p.payload == 0 || !p.toServer then Accept else Drop)
    else
      var g := s.flows[found.value].entry;
      if g.phase == Admitted then
        if !p.toServer then (s, Accept)
        else if k.cookie != Some(g.cookie) then (Quarantined(s), Drop)
        else (s, Authorize)
      else if g.phase == Denied then (s, Drop)
      else if p.payload == 0 || !p.toServer then (s, Accept)
      else if |g.held| >= MAX_HELD then (Quarantined(s), Drop)
      else
        var t := SetGate(s, found.value, g.(held := g.held + [p.id]));
        (t.(outcomes := t.outcomes + [Took(p, |t.gens|)]), Hold)
  }

  /** handle_client_packet. */
  function HandlePacket(cfg: Config, s: State, p: Packet, k: Kernel): (State, Action)
    requires |s.flows| == FLOW_CAPACITY
  {
    if !p.protected then (s, Accept)
    else if s.quarantined then (s, Drop)
    else if p.toServer && p.syn && !p.ack then HandleSyn(cfg, s, p, k)
    else if cfg.selector && p.toServer && p.payload == 0 && p.finOrRst then HandleClose(s, p, k)
    else if p.toServer && p.payload > 0 && p.clientHello.Some? then HandleClientHello(cfg, s, p, p.clientHello.value, k)
    else if !p.toServer && p.payload > 0 && p.serverHello.Some? then HandleServerHello(s, p, p.serverHello.value, k)
    else HandleData(s, p, k)
  }

  /** nfqueue_callback. */
  function Callback(cfg: Config, s: State, p: Packet, k: Kernel): (State, Action)
    requires |s.flows| == FLOW_CAPACITY
  {
    var r := if p.parsed then HandlePacket(cfg, s, p, k) else (s, Drop);
    (Counted(r.0, p, r.1), r.1)
  }

  /** The packet is counted, and logged if it passes. */
  function Counted(s: State, p: Packet, a: Action): State {
    var t := s.(copied := s.copied + 1);
    match a
    case Hold => t
    case Drop => t.(dropped := t.dropped + 1)
    case _ => t.(accepted := t.accepted + 1, outcomes := t.outcomes + [Passed(p, |t.gens|)])
  }

  // ----- decisions, expiry, shutdown -----

  function Expected(cfg: Config, localKey: Key, clientKey: Key): Key {
    if cfg.mutual then cfg.serverReportKey(localKey, clientKey) else localKey
  }

  predicate Applies(s: State, x: Session) {
    var found := FindGate(s, x.flow);
    found.Some? && s.flows[found.value].entry.helloSeen && s.flows[found.value].entry.lookupKey == x.lookupKey
  }

  predicate Allows(cfg: Config, s: State, x: Session, g: GateFlow, k: Kernel) {
    && !s.quarantined && x.reportVerified && (cfg.mutual ==> x.clientReportAccepted)
    && g.serverSeen && g.reportKey == x.localKey
    && (cfg.selector ==> k.cookie == Some(g.cookie) && k.deleted)
  }

  function AdmitItem(g: GateFlow, x: Session): GenItem {
    Admit(g.key, g.lookupKey, g.reportKey, g.cookie, x.clientKey, x.report, x.clientReportAccepted)
  }

  /** The end of a decision that applies to gate i: its held packets get their verdict and its state
      changes; the history has the decision before the verdicts it causes. */
  function Concluded(s: State, i: nat, x: Session, allow: bool, k: Kernel): State
    requires i < |s.flows| && s.flows[i].Live?
  {
    var g := s.flows[i].entry;
    var q := if allow then s else Quarantined(s);
    var d := q.(gens := q.gens + [if allow then AdmitItem(g, x) else Deny(g.key)]);
    SetGate(FinishHeld(d, i, allow, k.sent), i,
            g.(held := [], phase := if allow then Admitted else Denied, stateNs := k.now, deadlineNs := 0))
  }

  /** apply_decision_impl, in one step of the main thread. */
  function ApplyDecision(cfg: Config, s: State, id: nat, k: Kernel): State
    requires id < |s.sessions|
  {
    var x := s.sessions[id];
    if Applies(s, x) then
      var i := FindGate(s, x.flow).value;
      var allow := Allows(cfg, s, x, s.flows[i].entry, k);
      Concluded(s, i, x, allow, k).(sessions := s.sessions[id := x.(gateAllowed := allow, decisionApplied := true)])
    else
      Quarantined(s).(sessions := s.sessions[id := x.(gateAllowed := false, decisionApplied := true)])
  }

  /** drain_decisions, one turn. */
  function DrainOne(cfg: Config, s: State, k: Kernel): State {
    if s.decisions == [] then s
    else
      var t := s.(decisions := s.decisions[1..]);
      if s.decisions[0] < |s.sessions| then ApplyDecision(cfg, t, s.decisions[0], k) else t
  }

  predicate Overdue(g: GateFlow, now: nat) {
    g.deadlineNs != 0 && now >= g.deadlineNs && g.phase != Admitted && g.phase != Denied
  }

  /** now - stateNs is modulo 2^64, so a reading before stateNs counts as long ago. */
  predicate Retired(g: GateFlow, now: nat) {
    g.held == [] && (g.phase == Admitted || g.phase == Denied) && (now < g.stateNs || now - g.stateNs > RETIRE_NS)
  }

  function ExpireOne(s: State, i: nat, now: nat, sent: nat -> bool): (t: State)
    requires i < |s.flows|
    ensures |t.flows| == |s.flows|
  {
    if !s.flows[i].Live? then s
    else
      var g := s.flows[i].entry;
      if Overdue(g, now) then
        var f := FinishHeld(s, i, false, sent);
        Quarantined(SetGate(f, i, g.(held := [], phase := Denied, deadlineNs := 0, stateNs := now))
                      .(gens := s.gens + [Deny(g.key)]))
      else if Retired(g, now) then CloseGate(s, i)
      else s
  }

  function ExpireFrom(s: State, i: nat, now: nat, sent: nat -> bool): State
    requires i <= |s.flows|
    decreases |s.flows| - i
  {
    if i == |s.flows| then s else ExpireFrom(ExpireOne(s, i, now, sent), i + 1, now, sent)
  }

  /** The interval is taken modulo 2^64 here too: a reading before the last scan starts a new one. */
  predicate ScanDue(last: nat, now: nat) {
    now < last || now - last >= SCAN_PERIOD_NS
  }

  /** expire_gate_flows: at most one scan per 10 ms. */
  function Expire(s: State, now: nat, sent: nat -> bool): State {
    if !ScanDue(s.lastScan, now) then s
    else ExpireFrom(s.(lastScan := now), 0, now, sent)
  }

  function DropAllFrom(s: State, i: nat, sent: nat -> bool): State
    requires i <= |s.flows|
    decreases |s.flows| - i
  {
    if i == |s.flows| then s else DropAllFrom(DropHeldAt(s, i, sent), i + 1, sent)
  }

  // ----- what the control workers write -----

  /** The worker compares the response key and verifies the report, once it has the ServerHello. */
  function CheckReport(cfg: Config, s: State, id: nat, responseKey: Key, clientKey: Key, report: Report,
                       accepted: bool): State {
    if id < |s.sessions| && s.sessions[id].hasServerHello then
      var x := s.sessions[id];
      var wanted := Expected(cfg, x.localKey, clientKey);
      s.(sessions := s.sessions[id := x.(clientKey := clientKey, report := report, clientReportAccepted := accepted,
                                         reportVerified := responseKey == wanted && cfg.verify(report, wanted))])
    else s
  }

  function QueueDecision(s: State, id: nat): State {
    if |s.decisions| < QUEUE_CAPACITY then s.(decisions := s.decisions + [id]) else s
  }

  /** The worker stopped waiting for the decision. */
  function GiveUp(s: State, id: nat): State {
    if id < |s.sessions| then s.(sessions := s.sessions[id := s.sessions[id].(gateAllowed := false)]) else s
  }

  function Finalize(s: State, id: nat): State {
    if id < |s.sessions| then s.(sessions := s.sessions[id := s.sessions[id].(finalized := true)]) else s
  }

  function TakeJob(s: State): State {
    if s.jobs == [] then s else s.(jobs := s.jobs[1..])
  }

  // ----- runs -----

  datatype Event =
    | GotPacket(packet: Packet, kernel: Kernel)
    | Decided(kernel: Kernel)
    | Scanned(now: nat, sent: nat -> bool)
    | Drained(sent: nat -> bool)
    | Checked(id: nat, responseKey: Key, clientKey: Key, report: Report, accepted: bool)
    | Queued(id: nat)
    | GaveUp(id: nat)
    | Finished(id: nat)
    | TookJob
    | Stopped

  /** The monotonic clock never reads 0. */
  predicate Allowed(ev: Event) {
    ev.GotPacket? ==> ev.kernel.now > 0
  }

  function Step(cfg: Config, s: State, ev: Event): State
    requires |s.flows| == FLOW_CAPACITY
  {
    match ev
    case GotPacket(p, k) => Callback(cfg, s, p, k).0
    case Decided(k) => DrainOne(cfg, s, k)
    case Scanned(now, sent) => Expire(s, now, sent)
    case Drained(sent) => DropAllFrom(s, 0, sent)
    case Checked(id, responseKey, clientKey, report, accepted) =>
      CheckReport(cfg, s, id, responseKey, clientKey, report, accepted)
    case Queued(id) => QueueDecision(s, id)
    case GaveUp(id) => GiveUp(s, id)
    case Finished(id) => Finalize(s, id)
    case TookJob => TakeJob(s)
    case Stopped => s.(stopping := true)
  }
}
