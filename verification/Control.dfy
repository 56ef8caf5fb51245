/** The two agents joined by control connections: the client's control workers, the server's control
    threads and the bytes in flight between them, message by message and in order. Every
    interleaving of the server's critical sections, the client's main thread and the workers is a
    run of this system; sends and reads may fail at any point and connections may be reopened.

    Responses carry no nonce. Which request a response answers is kept in history fields (asked,
    taken, responses, heard, and the exchange number of a verdict) that are not on the wire. */
module Control {
  import opened Basics
  import R = Rendezvous
  import G = Gate

  datatype Setup = Setup(env: R.Env, cfg: G.Config)

  datatype Ask = Ask(key: Key, nonce: nat)

  datatype ToServer =
    | Request(mutual: bool, ask: Ask)
    | ClientReport(report: Report)
    | Verdict(ask: Ask, verified: bool, exchange: nat)

  /** body is None when the response is a refusal or the report was cut short. */
  datatype ToClient = Response(status: R.Status, key: Key, body: Option<Report>)

  datatype ServerPc =
    | Idle
    | Registering(ask: Ask)
    | AwaitingClientReport(ask: Ask)
    | AwaitingReport(ask: Ask, clientReport: Option<Report>)
    | Answering(ask: Ask, snapshot: R.Entry, clientReport: Option<Report>)
    | Answered(ask: Ask, clientReport: Option<Report>)
    | AwaitingVerdict(ask: Ask, clientReport: Option<Report>)
    | Closed

  datatype Answer = Answer(ask: Ask, snapshot: R.Entry, clientReport: Option<Report>)

  /** asked: requests the client sent in full; taken: how many of them the server has read;
      responses: the answers the server began to send; heard: how many the client accepted. */
  datatype Conn = Conn(
    toServer: seq<ToServer>, toClient: seq<ToClient>, pc: ServerPc,
    asked: seq<Ask>, taken: nat, responses: seq<Answer>, heard: nat)

  const NEW_CONN := Conn([], [], Idle, [], 0, [], 0)

  datatype WorkerPc =
    | Free
    | Started(id: nat)
    | Asked(id: nat, nonce: nat)
    | Checking(id: nat, nonce: nat, full: bool, key: Key, report: Report)
    | Checked(id: nat, nonce: nat, full: bool, key: Key)
    | Deciding(id: nat, nonce: nat, full: bool, key: Key)
    | Reporting(id: nat, nonce: nat, full: bool, key: Key)
    | Aborting(id: nat)

  datatype Worker = Worker(conn: Option<nat>, pc: WorkerPc)

  datatype State = State(srv: R.State, gate: G.State, conns: seq<Conn>, workers: seq<Worker>)

  function Init(workers: nat): State {
    State(R.Init(), G.Init(), [], seq(workers, _ => Worker(None, Free)))
  }

  datatype Written = Nothing | HeaderOnly | Everything

  datatype Event =
    | ServerEvent(sev: R.Event)
    | ClientEvent(gev: G.Event)
    | TakeRequest(k: nat)
    | TryRegister(k: nat, began: nat, now: nat, cookieNow: Option<nat>, expired: bool, start: nat, done: nat,
                  told: bool)
    | TakeClientReport(k: nat)
    | TryDeliver(k: nat, now: nat, cookieNow: Option<nat>, expired: bool, told: bool)
    | Respond(k: nat, written: Written)
    | MarkResponse(k: nat, now: nat)
    | TakeVerdict(k: nat)
    | CloseConn(k: nat)
    | StartJob(w: nat, connected: bool)
    | SendRequest(w: nat, nonce: nat, sent: bool, report: Option<Report>)
    | Hear(w: nat, ok: bool)
    | Check(w: nat, timedOut: bool)
    | Enqueue(w: nat)
    | AwaitGate(w: nat, timedOut: bool)
    | SendVerdict(w: nat, sent: bool, reconnected: bool)

  // ----- the server's control thread -----

  function Refuse(c: Conn, status: R.Status, told: bool): Conn {
    c.(pc := Closed, toClient := if told then c.toClient + [Response(status, Key(0), None)] else c.toClient)
  }

  function Taking(setup: Setup, c: Conn): Conn {
    if c.pc != Idle || c.toServer == [] then c
    else
      match c.toServer[0]
      case Request(mutual, ask) =>
        c.(toServer := c.toServer[1..], taken := c.taken + 1,
           pc := if mutual == setup.env.mutual then Registering(ask) else Closed)
      case _ => c.(pc := Closed)
  }

  function Registered(setup: Setup, c: Conn, status: Option<R.Status>, told: bool): Conn
    requires c.pc.Registering?
  {
    match status
    case None => c
    case Some(Okay) =>
      c.(pc := if setup.env.mutual then AwaitingClientReport(c.pc.ask) else AwaitingReport(c.pc.ask, None))
    case Some(bad) => Refuse(c, bad, told)
  }

  function TakingReport(c: Conn): Conn {
    if !c.pc.AwaitingClientReport? || c.toServer == [] then c
    else if c.toServer[0].ClientReport? then
      c.(toServer := c.toServer[1..], pc := AwaitingReport(c.pc.ask, Some(c.toServer[0].report)))
    else c.(pc := Closed)
  }

  /** client_report_verified: in mutual mode, what verify_early_client_report says. */
  predicate Vouched(env: R.Env, ask: Ask, clientReport: Option<Report>) {
    env.mutual ==>
      clientReport.Some? && env.verify(clientReport.value, env.clientReportKey(ask.key, ask.nonce))
  }

  function Delivered(setup: Setup, c: Conn, d: R.Delivery, told: bool): Conn
    requires c.pc.AwaitingReport?
  {
    match d
    case Waiting => c
    case Refused(status) => Refuse(c, status, told)
    case Delivered(snapshot) =>
      if Vouched(setup.env, c.pc.ask, c.pc.clientReport) then
        c.(pc := Answering(c.pc.ask, snapshot, c.pc.clientReport))
      else Refuse(c, R.ClientReportInvalid, told)
  }

  function Responding(c: Conn, written: Written): Conn {
    if !c.pc.Answering? then c
    else
      var e := c.pc.snapshot;
      var more := c.responses + [Answer(c.pc.ask, e, c.pc.clientReport)];
      match written
      case Nothing => c.(pc := Closed)
      case HeaderOnly =>
        c.(pc := Closed, responses := more, toClient := c.toClient + [Response(R.Okay, e.attestKey, None)])
      case Everything =>
        c.(pc := Answered(c.pc.ask, c.pc.clientReport), responses := more,
           toClient := c.toClient + [Response(R.Okay, e.attestKey, Some(e.report))])
  }

  /** The verdict at the head of the connection answers the response just sent. */
  predicate VerdictFits(c: Conn) {
    c.pc.AwaitingVerdict? && c.toServer != [] && c.toServer[0].Verdict? && c.toServer[0].ask == c.pc.ask
  }

  /** record_verdict, as the control thread calls it. */
  function VerdictEvent(setup: Setup, c: Conn): R.Event
    requires VerdictFits(c)
  {
    R.GotVerdict(c.pc.ask.key, c.toServer[0].ask.key, c.toServer[0].verified,
                 Vouched(setup.env, c.pc.ask, c.pc.clientReport))
  }

  function TakingVerdict(c: Conn): Conn {
    if !c.pc.AwaitingVerdict? || c.toServer == [] then c
    else if VerdictFits(c) then c.(toServer := c.toServer[1..], pc := Idle)
    else c.(pc := Closed)
  }

  // ----- the client's control worker -----

  function Sending(setup: Setup, c: Conn, ask: Ask, report: Option<Report>): Conn {
    c.(asked := c.asked + [ask],
       toServer := c.toServer + [Request(setup.cfg.mutual, ask)]
                   + if setup.cfg.mutual && report.Some? then [ClientReport(report.value)] else [])
  }

  predicate Hearable(c: Conn) {
    c.toClient != [] && c.toClient[0].status == R.Okay && c.toClient[0].body.Some?
  }

  function Hearing(c: Conn): Conn
    requires Hearable(c)
  {
    c.(toClient := c.toClient[1..], heard := c.heard + 1)
  }

  /** The key the client derives for its own early report. */
  function ClientKeyFor(setup: Setup, lookupKey: Key, nonce: nat): Key {
    if setup.cfg.mutual then setup.cfg.clientReportKey(lookupKey, nonce) else Key(0)
  }

  predicate Usable(s: State, w: nat) {
    && w < |s.workers| && s.workers[w].conn.Some? && s.workers[w].conn.value < |s.conns|
  }

  predicate Working(s: State, w: nat) {
    w < |s.workers| && !s.workers[w].pc.Free? && s.workers[w].pc.id < |s.gate.sessions|
  }

  function SetWorker(s: State, w: nat, x: Worker): State
    requires w < |s.workers|
  {
    s.(workers := s.workers[w := x])
  }

  function SetPc(s: State, w: nat, pc: WorkerPc): State
    requires w < |s.workers|
  {
    SetWorker(s, w, s.workers[w].(pc := pc))
  }

  function Connected(s: State, w: nat): State
    requires w < |s.workers|
  {
    SetWorker(s.(conns := s.conns + [NEW_CONN]), w, s.workers[w].(conn := Some(|s.conns|)))
  }

  // ----- one step of the whole system -----

  /** The events of the server and of the client's main thread that involve no connection. */
  predicate OwnServerEvent(ev: R.Event) {
    ev.SawClientHello? || ev.SawServerHello? || ev.TookJob? || ev.FinishedJob? || ev.StopRequested?
  }

  predicate OwnClientEvent(ev: G.Event) {
    ev.GotPacket? || ev.Decided? || ev.Scanned? || ev.Drained? || ev.Stopped?
  }

  /** The server step a control thread takes, if any. */
  function ServerPart(setup: Setup, s: State, ev: Event): Option<R.Event> {
    match ev
    case ServerEvent(sev) => Some(sev)
    case TryRegister(k, began, now, cookieNow, expired, start, done, _) =>
      if k < |s.conns| && s.conns[k].pc.Registering? then
        var ask := s.conns[k].pc.ask;
        Some(R.TriedRequest(ask.key, ask.nonce, began, now, cookieNow, expired, start, done))
      else None
    case TryDeliver(k, now, cookieNow, expired, _) =>
      if k < |s.conns| && s.conns[k].pc.AwaitingReport? then
        Some(R.TriedDelivery(s.conns[k].pc.ask.key, s.conns[k].pc.ask.nonce, now, cookieNow, expired))
      else None
    case MarkResponse(k, now) =>
      if k < |s.conns| && s.conns[k].pc.Answered? then Some(R.SentResponse(s.conns[k].pc.ask.key, now)) else None
    case TakeVerdict(k) =>
      if k < |s.conns| && VerdictFits(s.conns[k]) then
        Some(VerdictEvent(setup, s.conns[k]))
      else None
    case _ => None
  }

  predicate Shaped(s: State) {
    |s.srv.cache| == R.CACHE_CAPACITY && |s.srv.index| == R.INDEX_CAPACITY && |s.gate.flows| == G.FLOW_CAPACITY
  }

  function NextServer(setup: Setup, s: State, ev: Event): R.State
    requires Shaped(s)
  {
    match ServerPart(setup, s, ev)
    case None => s.srv
    case Some(sev) => R.Step(setup.env, s.srv, sev)
  }

  /** What a step does to connection k as seen by the server's control thread. */
  function NextConn(setup: Setup, s: State, ev: Event, k: nat): Conn
    requires k < |s.conns|
  {
    var c := s.conns[k];
    match ev
    case TakeRequest(_) => Taking(setup, c)
    case TryRegister(_, began, now, cookieNow, expired, start, done, told) =>
      if c.pc.Registering? then
        var ask := c.pc.ask;
        var r := R.Register(setup.env, s.srv, ask.key, ask.nonce, began, now, cookieNow, expired, start, done);
        Registered(setup, c, r.1, told)
      else c
    case TakeClientReport(_) => TakingReport(c)
    case TryDeliver(_, now, cookieNow, expired, told) =>
      if c.pc.AwaitingReport? then
        Delivered(setup, c, R.Deliver(s.srv, c.pc.ask.key, c.pc.ask.nonce, now, cookieNow, expired).1, told)
      else c
    case Respond(_, written) => Responding(c, written)
    case MarkResponse(_, _) => if c.pc.Answered? then c.(pc := AwaitingVerdict(c.pc.ask, c.pc.clientReport)) else c
    case TakeVerdict(_) => TakingVerdict(c)
    case CloseConn(_) => c.(pc := Closed)
    case _ => c
  }

  predicate ServerSide(ev: Event) {
    ev.TakeRequest? || ev.TryRegister? || ev.TakeClientReport? || ev.TryDeliver? || ev.Respond? || ev.MarkResponse?
    || ev.TakeVerdict? || ev.CloseConn?
  }

  /** One step of run_control_job on worker w. */
  function WorkerStep(setup: Setup, s: State, ev: Event): State
    requires Shaped(s)
  {
    match ev
    case StartJob(w, connected) =>
      if w < |s.workers| && s.workers[w].pc.Free? && s.gate.jobs != [] then
        var id := s.gate.jobs[0];
        var t := s.(gate := G.Step(setup.cfg, s.gate, G.TookJob));
        if s.workers[w].conn.Some? then SetPc(t, w, Started(id))
        else if connected then SetPc(Connected(t, w), w, Started(id))
        else SetPc(t.(gate := G.Step(setup.cfg, t.gate, G.Queued(id))), w, Aborting(id))
      else s
    case SendRequest(w, nonce, sent, report) =>
      if Usable(s, w) && Working(s, w) && s.workers[w].pc.Started? then
        var id, k := s.workers[w].pc.id, s.workers[w].conn.value;
        var failed := Checking(id, nonce, false, Key(0), Report(0));
        if !sent then SetPc(s, w, failed)
        else
          var d := Sending(setup, s.conns[k], Ask(s.gate.sessions[id].lookupKey, nonce), report);
          var t := s.(conns := s.conns[k := d]);
          SetPc(t, w, if setup.cfg.mutual && report.None? then failed else Asked(id, nonce))
      else s
    case Hear(w, ok) =>
      if Usable(s, w) && s.workers[w].pc.Asked? then
        var k, id, nonce := s.workers[w].conn.value, s.workers[w].pc.id, s.workers[w].pc.nonce;
        if ok && Hearable(s.conns[k]) then
          var m := s.conns[k].toClient[0];
          SetPc(s.(conns := s.conns[k := Hearing(s.conns[k])]), w, Checking(id, nonce, true, m.key, m.body.value))
        else SetPc(s, w, Checking(id, nonce, false, Key(0), Report(0)))
      else s
    case Check(w, timedOut) =>
      if Working(s, w) && s.workers[w].pc.Checking? then
        var pc := s.workers[w].pc;
        var x := s.gate.sessions[pc.id];
        var done := Checked(pc.id, pc.nonce, pc.full, pc.key);
        if pc.full && x.hasServerHello then
          SetPc(s.(gate := G.Step(setup.cfg, s.gate,
                    G.Checked(pc.id, pc.key, ClientKeyFor(setup, x.lookupKey, pc.nonce), pc.report,
                              setup.cfg.mutual))), w, done)
        else if pc.full && !timedOut then s
        else SetPc(s, w, done)
      else s
    case Enqueue(w) =>
      if Working(s, w) && s.workers[w].pc.Checked? then
        var pc := s.workers[w].pc;
        if |s.gate.decisions| < G.QUEUE_CAPACITY then
          SetPc(s.(gate := G.Step(setup.cfg, s.gate, G.Queued(pc.id))), w, Deciding(pc.id, pc.nonce, pc.full, pc.key))
        else
          SetPc(s.(gate := G.Step(setup.cfg, s.gate, G.GaveUp(pc.id))), w, Reporting(pc.id, pc.nonce, pc.full, pc.key))
      else s
    case AwaitGate(w, timedOut) =>
      if Working(s, w) && s.workers[w].pc.Deciding? then
        var pc := s.workers[w].pc;
        var next := Reporting(pc.id, pc.nonce, pc.full, pc.key);
        if s.gate.sessions[pc.id].decisionApplied then SetPc(s, w, next)
        else if timedOut then SetPc(s.(gate := G.Step(setup.cfg, s.gate, G.GaveUp(pc.id))), w, next)
        else s
      else if Working(s, w) && s.workers[w].pc.Aborting?
              && (timedOut || s.gate.sessions[s.workers[w].pc.id].decisionApplied) then
        SetPc(s.(gate := G.Step(setup.cfg, s.gate, G.Finished(s.workers[w].pc.id))), w, Free)
      else s
    case SendVerdict(w, sent, reconnected) =>
      if Usable(s, w) && Working(s, w) && s.workers[w].pc.Reporting? then
        var pc, k := s.workers[w].pc, s.workers[w].conn.value;
        var x := s.gate.sessions[pc.id];
        var done := s.(gate := G.Step(setup.cfg, s.gate, G.Finished(pc.id)));
        if pc.full && sent then
          var d := ClientVerdict(s.conns[k], Ask(x.lookupKey, pc.nonce), x.gateAllowed);
          SetPc(done.(conns := s.conns[k := d]), w, Free)
        else if reconnected then SetPc(Connected(done, w), w, Free)
        else SetWorker(done, w, Worker(None, Free))
      else s
    case _ => s
  }

  function ClientVerdict(c: Conn, ask: Ask, verified: bool): Conn {
    if c.asked == [] then c else c.(toServer := c.toServer + [Verdict(ask, verified, |c.asked| - 1)])
  }

  function Step(setup: Setup, s: State, ev: Event): State
    requires Shaped(s)
  {
    if ev.ServerEvent? then s.(srv := NextServer(setup, s, ev))
    else if ev.ClientEvent? then s.(gate := G.Step(setup.cfg, s.gate, ev.gev))
    else if ServerSide(ev) then
      if ev.k < |s.conns| then
        s.(srv := NextServer(setup, s, ev), conns := s.conns[ev.k := NextConn(setup, s, ev, ev.k)])
      else s
    else WorkerStep(setup, s, ev)
  }

  predicate Allowed(setup: Setup, s: State, ev: Event)
    requires Shaped(s)
  {
    match ev
    case ServerEvent(sev) => OwnServerEvent(sev) && R.Allowed(setup.env, s.srv, sev)
    case ClientEvent(gev) => OwnClientEvent(gev) && G.Allowed(gev)
    case TryRegister(_, _, _, _, _, start, done, _) => start > 0 && done > 0
    case _ => true
  }
}
