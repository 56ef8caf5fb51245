/** A session that goes well, in both modes: from any state in which both agents have room and nothing
    is under way on its connection, the hellos, one control job and its messages end with the
    client's gate admitted and the server's record of it saying so. */
module Completion {
  import opened Basics
  import R = Rendezvous
  import RI = RendezvousInvariant
  import RA = RendezvousAnswers
  import G = Gate
  import GI = GateInvariant
  import GA = GateAnswers
  import EndToEnd
  import opened Control
  import opened ControlAnswers
  import opened ControlInvariant

  /** The session: what the two agents see of it, the client's own report, the worker that takes its job
      and the time of the response. */
  datatype Session = Session(visit: RA.Visit, contact: GA.Contact, own: Report, worker: nat, sent: nat)

  function AskOf(x: Session): Ask { Ask(x.visit.key, x.visit.nonce) }

  function OwnReport(setup: Setup, x: Session): Option<Report> {
    if setup.env.mutual then Some(x.own) else None
  }

  /** Both agents see the same session in the same mode with the same derivations, and every report
      verifies. */
  predicate GoesWell(setup: Setup, x: Session) {
    var (env, cfg, v, c) := (setup.env, setup.cfg, x.visit, x.contact);
    && RA.InTime(env, v) && GA.InOrder(cfg, c) && env.mutual == cfg.mutual
    && c.hello.clientHello == Some(v.key) && c.answer.serverHello == Some(v.reportKey) && c.report == v.report
    && c.clientKey == ClientKeyFor(setup, v.key, v.nonce) && c.accepted == cfg.mutual
    && GA.Wanted(cfg, c) == RA.Attested(env, v)
    && (env.mutual ==> env.verify(x.own, env.clientReportKey(v.key, v.nonce)))
  }

  /** Nothing is under way for the session, both agents have room, and the worker is free and not yet
      connected. */
  ghost predicate Ready(setup: Setup, s: State, x: Session)
    requires GoesWell(setup, x)
  {
    && RA.Idle(setup.env, s.srv, x.visit) && GA.Welcome(setup.cfg, s.gate, x.contact) && s.gate.jobs == []
    && x.worker < |s.workers| && s.workers[x.worker] == Worker(None, Free)
  }

  // ----- the hellos -----

  function Hellos(setup: Setup, s: State, x: Session): State {
    var (v, c) := (x.visit, x.contact);
    var t := Then(setup, s, ServerEvent(R.SawClientHello(v.flow, v.key, v.seen, v.cookie)));
    var u := Then(setup, t, ServerEvent(R.SawServerHello(v.flow, v.reportKey, v.answered, v.cookie, v.start, v.done)));
    Then(setup, Then(setup, Then(setup, u, ClientEvent(G.GotPacket(c.hello, c.kernel))),
                     ClientEvent(G.GotPacket(c.data, c.kernel))), ClientEvent(G.GotPacket(c.answer, c.kernel)))
  }

  lemma HellosSeen(setup: Setup, s: State, x: Session)
    requires Inv(setup, s) && GoesWell(setup, x)
    ensures Shaped(s) && Inv(setup, Hellos(setup, s, x))
    ensures Hellos(setup, s, x) == s.(srv := RA.Hellos(setup.env, s.srv, x.visit),
                                      gate := GA.Heard(setup.cfg, s.gate, x.contact))
  {
    hide Inv, R.Step, G.Step;
    var (v, c) := (x.visit, x.contact);
    var e0 := ServerEvent(R.SawClientHello(v.flow, v.key, v.seen, v.cookie));
    var e1 := ServerEvent(R.SawServerHello(v.flow, v.reportKey, v.answered, v.cookie, v.start, v.done));
    var t0 := Then(setup, s, e0);
    ThenKeeps(setup, s, e0);
    ThenKeeps(setup, t0, e1);
    var t1 := Then(setup, t0, e1);
    ThenKeeps(setup, t1, ClientEvent(G.GotPacket(c.hello, c.kernel)));
    var t2 := Then(setup, t1, ClientEvent(G.GotPacket(c.hello, c.kernel)));
    ThenKeeps(setup, t2, ClientEvent(G.GotPacket(c.data, c.kernel)));
    var t3 := Then(setup, t2, ClientEvent(G.GotPacket(c.data, c.kernel)));
    ThenKeeps(setup, t3, ClientEvent(G.GotPacket(c.answer, c.kernel)));
  }

  // ----- the request -----

  /** Worker and connection k are at these points; the server and the gate are in these states. */
  predicate At(s: State, x: Session, k: nat, pc: WorkerPc, d: Conn, srv: R.State, gate: G.State) {
    && s.srv == srv && s.gate == gate && k < |s.conns| && s.conns[k] == d
    && x.worker < |s.workers| && s.workers[x.worker] == Worker(Some(k), pc)
  }

  function Sent(setup: Setup, s: State, x: Session): State {
    var t := Then(setup, s, StartJob(x.worker, true));
    Then(setup, t, SendRequest(x.worker, x.visit.nonce, true, OwnReport(setup, x)))
  }

  /** What the client has sent: its request and, in mutual mode, its own report. */
  function Outgoing(setup: Setup, x: Session): seq<ToServer> {
    [Request(setup.env.mutual, AskOf(x))] + if setup.env.mutual then [ClientReport(x.own)] else []
  }

  lemma RequestSent(setup: Setup, s: State, x: Session, id: nat)
    requires Inv(setup, s) && GoesWell(setup, x) && s.gate.jobs == [id] && id < |s.gate.sessions|
    requires s.gate.sessions[id].lookupKey == x.visit.key
    requires x.worker < |s.workers| && s.workers[x.worker] == Worker(None, Free)
    ensures var t := Sent(setup, s, x);
            && Inv(setup, t)
            && At(t, x, |s.conns|, Asked(id, x.visit.nonce), Conn(Outgoing(setup, x), [], Idle, [AskOf(x)], 0, [], 0),
                  s.srv, s.gate.(jobs := []))
  {
    hide Inv, RA.InTime, GA.InOrder, RA.Attested, GA.Wanted, G.Callback;
    var e := StartJob(x.worker, true);
    ThenKeeps(setup, s, e);
    var t := Then(setup, s, e);
    ThenKeeps(setup, t, SendRequest(x.worker, x.visit.nonce, true, OwnReport(setup, x)));
  }

  function Granted(setup: Setup, s: State, x: Session, k: nat): State {
    var v := x.visit;
    var t := Then(setup, s, TakeRequest(k));
    var u := Then(setup, t, TryRegister(k, v.began, v.asked, Some(v.cookie), false, v.start, v.done, true));
    Then(setup, u, TakeClientReport(k))
  }

  /** The server reads the request, registers it, and in mutual mode reads the client's report. */
  lemma RequestGranted(setup: Setup, s: State, x: Session, k: nat, pc: WorkerPc)
    requires Inv(setup, s) && GoesWell(setup, x)
    requires At(s, x, k, pc, Conn(Outgoing(setup, x), [], Idle, [AskOf(x)], 0, [], 0), s.srv, s.gate)
    requires Shaped(s) && x.visit.start > 0 && x.visit.done > 0
    requires var v := x.visit;
             R.Register(setup.env, s.srv, v.key, v.nonce, v.began, v.asked, Some(v.cookie), false, v.start, v.done).1
             == Some(R.Okay)
    ensures var t := Granted(setup, s, x, k);
            && Inv(setup, t)
            && At(t, x, k, pc, Conn([], [], AwaitingReport(AskOf(x), OwnReport(setup, x)), [AskOf(x)], 1, [], 0),
                  R.Step(setup.env, s.srv, RA.Request(x.visit)), s.gate)
  {
    hide Inv, RA.InTime, GA.InOrder, RA.Attested, GA.Wanted, R.Register;
    var v := x.visit;
    ThenKeeps(setup, s, TakeRequest(k));
    var t := Then(setup, s, TakeRequest(k));
    var e := TryRegister(k, v.began, v.asked, Some(v.cookie), false, v.start, v.done, true);
    ThenKeeps(setup, t, e);
    ThenKeeps(setup, Then(setup, t, e), TakeClientReport(k));
  }

  // ----- the response -----

  function ReportMade(setup: Setup, s: State, x: Session): State {
    Then(setup, Then(setup, s, ServerEvent(R.TookJob)),
         ServerEvent(R.FinishedJob(true, x.visit.report, x.visit.finished)))
  }

  function Answered(setup: Setup, s: State, x: Session, k: nat): State {
    var v := x.visit;
    var t := Then(setup, s, TryDeliver(k, v.handed, Some(v.cookie), false, true));
    Then(setup, Then(setup, t, Respond(k, Everything)), MarkResponse(k, x.sent))
  }

  lemma WorkerMakes(setup: Setup, s: State, x: Session, i: nat)
    requires Inv(setup, s) && GoesWell(setup, x) && Shaped(s)
    requires s.srv.inFlight.None? && s.srv.queue == [R.Job(i, x.visit.flow, RA.Attested(setup.env, x.visit))]
    ensures var t := ReportMade(setup, s, x);
            Inv(setup, t) && t == s.(srv := RA.Made(setup.env, s.srv, x.visit))
  {
    hide Inv, GA.InOrder, RA.Attested, GA.Wanted, R.FinishJob;
    ThenKeeps(setup, s, ServerEvent(R.TookJob));
    var t := Then(setup, s, ServerEvent(R.TookJob));
    ThenKeeps(setup, t, ServerEvent(R.FinishedJob(true, x.visit.report, x.visit.finished)));
  }

  /** The report is delivered to the control thread, sent in full, and its time noted. */
  lemma ReportSent(setup: Setup, s: State, x: Session, k: nat, pc: WorkerPc, e: R.Entry)
    requires Inv(setup, s) && GoesWell(setup, x) && Shaped(s)
    requires At(s, x, k, pc, Conn([], [], AwaitingReport(AskOf(x), OwnReport(setup, x)), [AskOf(x)], 1, [], 0),
                s.srv, s.gate)
    requires var v := x.visit; R.Deliver(s.srv, v.key, v.nonce, v.handed, Some(v.cookie), false).1 == R.Delivered(e)
    ensures var t := Answered(setup, s, x, k);
            && Inv(setup, t)
            && At(t, x, k, pc,
                  Conn([], [Response(R.Okay, e.attestKey, Some(e.report))],
                       AwaitingVerdict(AskOf(x), OwnReport(setup, x)), [AskOf(x)], 1,
                       [Answer(AskOf(x), e, OwnReport(setup, x))], 0),
                  R.MarkSent(R.Step(setup.env, s.srv, RA.Fetch(x.visit)), x.visit.key, x.sent), s.gate)
  {
    hide Inv, RA.InTime, GA.InOrder, RA.Attested, GA.Wanted, R.Deliver;
    var v := x.visit;
    var e0 := TryDeliver(k, v.handed, Some(v.cookie), false, true);
    ThenKeeps(setup, s, e0);
    var t := Then(setup, s, e0);
    ThenKeeps(setup, t, Respond(k, Everything));
    var u := Then(setup, t, Respond(k, Everything));
    ThenKeeps(setup, u, MarkResponse(k, x.sent));
  }

  // ----- the decision -----

  function Heard(setup: Setup, s: State, x: Session): State {
    Then(setup, Then(setup, s, Hear(x.worker, true)), Check(x.worker, false))
  }

  function Decided(setup: Setup, s: State, x: Session): State {
    Then(setup, Then(setup, Heard(setup, s, x), Enqueue(x.worker)), ClientEvent(G.Decided(x.contact.kernel)))
  }

  function CheckedGate(setup: Setup, g: G.State, id: nat, c: GA.Contact): G.State
    requires c.answer.serverHello.Some?
  {
    GA.Then(setup.cfg, g, G.Checked(id, GA.Wanted(setup.cfg, c), c.clientKey, c.report, c.accepted))
  }

  /** The worker hears the response. */
  lemma ResponseTaken(setup: Setup, s: State, x: Session, k: nat, id: nat, d: Conn)
    requires Inv(setup, s) && At(s, x, k, Asked(id, x.visit.nonce), d, s.srv, s.gate)
    requires d.toClient == [Response(R.Okay, RA.Attested(setup.env, x.visit), Some(x.visit.report))]
    ensures var t := Then(setup, s, Hear(x.worker, true));
            && Inv(setup, t)
            && At(t, x, k, Checking(id, x.visit.nonce, true, RA.Attested(setup.env, x.visit), x.visit.report),
                  d.(toClient := [], heard := d.heard + 1), s.srv, s.gate)
  {
    hide Inv, RA.Attested, G.Step;
    ThenKeeps(setup, s, Hear(x.worker, true));
  }

  /** And checks it. */
  lemma ResponseChecked(setup: Setup, s: State, x: Session, k: nat, id: nat, d: Conn)
    requires Inv(setup, s) && GoesWell(setup, x)
    requires At(s, x, k, Checking(id, x.visit.nonce, true, RA.Attested(setup.env, x.visit), x.visit.report), d, s.srv,
                s.gate)
    requires id < |s.gate.sessions| && s.gate.sessions[id].hasServerHello
             && s.gate.sessions[id].lookupKey == x.visit.key
    ensures var t := Then(setup, s, Check(x.worker, false));
            && Inv(setup, t)
            && At(t, x, k, Checked(id, x.visit.nonce, true, RA.Attested(setup.env, x.visit)), d, s.srv,
                  CheckedGate(setup, s.gate, id, x.contact))
  {
    hide Inv, RA.InTime, GA.InOrder, RA.Attested, GA.Wanted, G.Step;
    ThenKeeps(setup, s, Check(x.worker, false));
  }

  lemma CheckingKeeps(setup: Setup, g: G.State, id: nat, c: GA.Contact)
    requires c.answer.serverHello.Some?
    ensures var t := CheckedGate(setup, g, id, c); |t.sessions| == |g.sessions| && t.decisions == g.decisions
  {
  }

  lemma ResponseHeard(setup: Setup, s: State, x: Session, k: nat, id: nat, d: Conn)
    requires Inv(setup, s) && GoesWell(setup, x)
    requires At(s, x, k, Asked(id, x.visit.nonce), d, s.srv, s.gate)
    requires d.toClient == [Response(R.Okay, RA.Attested(setup.env, x.visit), Some(x.visit.report))]
    requires id < |s.gate.sessions| && s.gate.sessions[id].hasServerHello
             && s.gate.sessions[id].lookupKey == x.visit.key
    ensures var t := Heard(setup, s, x);
            && Inv(setup, t) && |t.gate.sessions| == |s.gate.sessions| && t.gate.decisions == s.gate.decisions
            && At(t, x, k, Checked(id, x.visit.nonce, true, RA.Attested(setup.env, x.visit)),
                  d.(toClient := [], heard := d.heard + 1), s.srv, CheckedGate(setup, s.gate, id, x.contact))
  {
    hide Inv, Then, RA.InTime, GA.InOrder, RA.Attested, GA.Wanted, CheckedGate;
    ResponseTaken(setup, s, x, k, id, d);
    ResponseChecked(setup, Then(setup, s, Hear(x.worker, true)), x, k, id, d.(toClient := [], heard := d.heard + 1));
    CheckingKeeps(setup, s.gate, id, x.contact);
  }

  /** The worker queues the decision, and the gate takes it. */
  lemma DecisionTaken(setup: Setup, s: State, x: Session, k: nat, id: nat, key: Key, d: Conn)
    requires Inv(setup, s) && GoesWell(setup, x)
    requires At(s, x, k, Checked(id, x.visit.nonce, true, key), d, s.srv, s.gate)
    requires id < |s.gate.sessions| && s.gate.decisions == []
    ensures var t := Then(setup, Then(setup, s, Enqueue(x.worker)), ClientEvent(G.Decided(x.contact.kernel)));
            && Inv(setup, t)
            && At(t, x, k, Deciding(id, x.visit.nonce, true, key), d, s.srv,
                  GA.Then(setup.cfg, GA.Then(setup.cfg, s.gate, G.Queued(id)), G.Decided(x.contact.kernel)))
  {
    hide Inv, RA.InTime, GA.InOrder, RA.Attested, GA.Wanted, G.Step;
    ThenKeeps(setup, s, Enqueue(x.worker));
    var t := Then(setup, s, Enqueue(x.worker));
    ThenKeeps(setup, t, ClientEvent(G.Decided(x.contact.kernel)));
  }

  /** So the gate takes exactly the steps that lead to an admission. */
  lemma ResponseJudged(setup: Setup, s: State, x: Session, k: nat, id: nat, i: nat, d: Conn)
    requires Inv(setup, s) && GoesWell(setup, x)
    requires At(s, x, k, Asked(id, x.visit.nonce), d, s.srv, s.gate)
    requires d.toClient == [Response(R.Okay, RA.Attested(setup.env, x.visit), Some(x.visit.report))]
    requires GA.Awaits(s.gate, i, id, x.contact, [x.contact.data.id]) && s.gate.flows[i].entry.serverSeen
    ensures var t := Decided(setup, s, x);
            && Inv(setup, t)
            && At(t, x, k, Deciding(id, x.visit.nonce, true, RA.Attested(setup.env, x.visit)),
                  d.(toClient := [], heard := d.heard + 1), s.srv, GA.Judgement(setup.cfg, s.gate, id, x.contact))
  {
    hide Inv, Then, Heard, RA.InTime, RA.Attested, GA.Wanted, GA.Then;
    ResponseHeard(setup, s, x, k, id, d);
    DecisionTaken(setup, Heard(setup, s, x), x, k, id, RA.Attested(setup.env, x.visit),
                  d.(toClient := [], heard := d.heard + 1));
  }

  // ----- the verdict -----

  function Reported(setup: Setup, s: State, x: Session): State {
    Then(setup, Then(setup, s, AwaitGate(x.worker, false)), SendVerdict(x.worker, true, false))
  }

  function Concluded(setup: Setup, s: State, x: Session, k: nat): State {
    Then(setup, Reported(setup, s, x), TakeVerdict(k))
  }

  /** The worker sends the gate's answer and is free again. */
  lemma VerdictSent(setup: Setup, s: State, x: Session, k: nat, id: nat, key: Key, d: Conn)
    requires Inv(setup, s) && GoesWell(setup, x)
    requires At(s, x, k, Deciding(id, x.visit.nonce, true, key), d, s.srv, s.gate) && id < |s.gate.sessions|
    requires s.gate.sessions[id].decisionApplied && s.gate.sessions[id].gateAllowed
    requires s.gate.sessions[id].lookupKey == x.visit.key && d.toServer == [] && d.asked == [AskOf(x)]
    ensures var t := Reported(setup, s, x);
            && Inv(setup, t)
            && At(t, x, k, Free, d.(toServer := [Verdict(AskOf(x), true, 0)]), s.srv, G.Finalize(s.gate, id))
  {
    hide Inv, RA.InTime, GA.InOrder, RA.Attested, GA.Wanted, G.Callback, G.DrainOne, G.Expire, G.DropAllFrom;
    ThenKeeps(setup, s, AwaitGate(x.worker, false));
    var t := Then(setup, s, AwaitGate(x.worker, false));
    ThenKeeps(setup, t, SendVerdict(x.worker, true, false));
  }

  /** The server records it and the connection is idle. */
  lemma VerdictGiven(setup: Setup, s: State, x: Session, k: nat, id: nat, key: Key, d: Conn)
    requires Inv(setup, s) && GoesWell(setup, x) && Shaped(s)
    requires At(s, x, k, Deciding(id, x.visit.nonce, true, key), d, s.srv, s.gate) && id < |s.gate.sessions|
    requires s.gate.sessions[id].decisionApplied && s.gate.sessions[id].gateAllowed
    requires s.gate.sessions[id].lookupKey == x.visit.key && d.toServer == [] && d.asked == [AskOf(x)]
    requires d.pc == AwaitingVerdict(AskOf(x), OwnReport(setup, x))
    ensures var t := Concluded(setup, s, x, k);
            && Inv(setup, t)
            && At(t, x, k, Free, d.(pc := Idle),
                  R.Step(setup.env, s.srv, R.GotVerdict(x.visit.key, x.visit.key, true, true)),
                  G.Finalize(s.gate, id))
  {
    hide Inv, Reported, RA.InTime, GA.InOrder, RA.Attested, GA.Wanted, R.RecordVerdict, G.Finalize;
    VerdictSent(setup, s, x, k, id, key, d);
    ThenKeeps(setup, Reported(setup, s, x), TakeVerdict(k));
  }

  // ----- all of it -----

  /** The connection once the response is under way. */
  function Responded(setup: Setup, x: Session, e: R.Entry): Conn {
    Conn([], [Response(R.Okay, e.attestKey, Some(e.report))], AwaitingVerdict(AskOf(x), OwnReport(setup, x)),
         [AskOf(x)], 1, [Answer(AskOf(x), e, OwnReport(setup, x))], 0)
  }

  function Requested(setup: Setup, s: State, x: Session): State {
    Granted(setup, Sent(setup, Hellos(setup, s, x), x), x, |s.conns|)
  }

  function Served(setup: Setup, s: State, x: Session): State {
    Answered(setup, ReportMade(setup, Requested(setup, s, x), x), x, |s.conns|)
  }

  function Completed(setup: Setup, s: State, x: Session): State {
    Concluded(setup, Decided(setup, Served(setup, s, x), x), x, |s.conns|)
  }

  /** The entry j that the session's response was taken from. */
  predicate EntryServed(setup: Setup, srv: R.State, x: Session, j: nat, e: R.Entry) {
    && RA.Complete(setup.env, srv, j, x.visit) && e.attestKey == RA.Attested(setup.env, x.visit)
    && e.report == x.visit.report && srv.cache[j].entry == e.(responseNs := x.sent) && e.delivered
  }

  lemma RequestServed(setup: Setup, s: State, x: Session) returns (i: nat, j: nat)
    requires Inv(setup, s) && GoesWell(setup, x) && Ready(setup, s, x)
    ensures var (t, id, v) := (Requested(setup, s, x), |s.gate.sessions|, x.visit);
            && Inv(setup, t) && t.srv.records == s.srv.records && t.srv.inFlight.None?
            && RA.Complete(setup.env, t.srv, j, v) && t.srv.queue == [R.Job(j, v.flow, RA.Attested(setup.env, v))]
            && GA.Awaits(t.gate, i, id, x.contact, [x.contact.data.id]) && t.gate.flows[i].entry.serverSeen
            && At(t, x, |s.conns|, Asked(id, v.nonce),
                  Conn([], [], AwaitingReport(AskOf(x), OwnReport(setup, x)), [AskOf(x)], 1, [], 0), t.srv, t.gate)
  {
    hide RI.Inv, GI.Inv, ConnOk, HoldOk, Apart, VerdictsOk, WorkerOk, DutiesOk, LinkOk, RecordsOk;
    hide GA.Welcome, RA.InTime, GA.InOrder, GA.Heard, RA.Hellos, RA.Complete, Hellos, Sent, Granted, R.Step;
    var (env, v, k, id) := (setup.env, x.visit, |s.conns|, |s.gate.sessions|);
    HellosSeen(setup, s, x);
    var t1 := Hellos(setup, s, x);
    i := GA.ContactHeard(setup.cfg, s.gate, x.contact);
    j := RA.HellosMeet(env, s.srv, v);
    RequestSent(setup, t1, x, id);
    var t2 := Sent(setup, t1, x);
    RA.RequestGranted(env, t2.srv, j, v);
    EndToEnd.InvShaped(setup, t2);
    InTimeStarts(env, v);
    RequestGranted(setup, t2, x, k, Asked(id, v.nonce));
  }

  lemma InTimeStarts(env: R.Env, v: RA.Visit)
    requires RA.InTime(env, v)
    ensures v.start > 0 && v.done > 0
  {
  }

  lemma ServerServes(setup: Setup, s: State, x: Session) returns (i: nat, j: nat, e: R.Entry)
    requires Inv(setup, s) && GoesWell(setup, x) && Ready(setup, s, x)
    ensures var (t, id) := (Served(setup, s, x), |s.gate.sessions|);
            && Inv(setup, t) && t.srv.records == s.srv.records && EntryServed(setup, t.srv, x, j, e)
            && GA.Awaits(t.gate, i, id, x.contact, [x.contact.data.id]) && t.gate.flows[i].entry.serverSeen
            && At(t, x, |s.conns|, Asked(id, x.visit.nonce), Responded(setup, x, e), t.srv, t.gate)
  {
    hide RI.Inv, GI.Inv, ConnOk, HoldOk, Apart, VerdictsOk, WorkerOk, DutiesOk, LinkOk, RecordsOk;
    hide Ready, GoesWell, GA.Awaits, RA.Made, Requested, ReportMade, Answered, R.Deliver, R.MarkSent, R.Step;
    var (env, v, k) := (setup.env, x.visit, |s.conns|);
    i, j := RequestServed(setup, s, x);
    var t3 := Requested(setup, s, x);
    EndToEnd.InvShaped(setup, t3);
    WorkerMakes(setup, t3, x, j);
    WellInTime(setup, x);
    RA.ReportFetched(env, t3.srv, j, v);
    var t4 := ReportMade(setup, t3, x);
    EndToEnd.InvShaped(setup, t4);
    var f := RA.Fetched(env, t3.srv, v);
    e := f.cache[j].entry;
    ReportSent(setup, t4, x, k, Asked(|s.gate.sessions|, v.nonce), e);
    RA.VerdictAnswer(env, f, v.key, x.sent, v.key, true, true);
  }

  lemma WellInTime(setup: Setup, x: Session)
    requires GoesWell(setup, x)
    ensures RA.InTime(setup.env, x.visit)
  {
  }

  /** The gate admits, and the server's record takes the client's answer. */
  lemma GateAdmits(setup: Setup, s: State, x: Session) returns (i: nat, j: nat, e: R.Entry)
    requires Inv(setup, s) && GoesWell(setup, x) && Ready(setup, s, x)
    ensures var (t, id) := (Decided(setup, Served(setup, s, x), x), |s.gate.sessions|);
            && Inv(setup, t) && t.srv.records == s.srv.records && EntryServed(setup, t.srv, x, j, e)
            && GA.Released(t.gate, i, id, x.contact)
            && At(t, x, |s.conns|, Deciding(id, x.visit.nonce, true, RA.Attested(setup.env, x.visit)),
                  Responded(setup, x, e).(toClient := [], heard := 1), t.srv, t.gate)
  {
    hide RI.Inv, GI.Inv, ConnOk, HoldOk, Apart, VerdictsOk, WorkerOk, DutiesOk, LinkOk, RecordsOk;
    hide Ready, GA.Awaits, GA.Released, GA.Judgement, RA.Complete, RA.InTime, GA.InOrder, Served, Decided;
    i, j, e := ServerServes(setup, s, x);
    var (t, id) := (Served(setup, s, x), |s.gate.sessions|);
    EndToEnd.InvShaped(setup, t);
    ResponseJudged(setup, t, x, |s.conns|, id, i, Responded(setup, x, e));
    GA.JudgementAdmits(setup.cfg, t.gate, i, id, x.contact);
  }

  /** The one new record is of this session. */
  predicate RecordOf(x: Session, before: seq<R.Record>, after: seq<R.Record>) {
    && |after| == |before| + 1 && before <= after
    && var r := after[|before|];
       && r.admitted && r.clientReportVerified && r.entry.lookupKey == x.visit.key
       && r.entry.reportKey == x.visit.reportKey && r.entry.nonce == x.visit.nonce && r.entry.report == x.visit.report
  }

  lemma SessionIsRecorded(setup: Setup, srv: R.State, x: Session, j: nat, e: R.Entry)
    requires RI.Inv(setup.env, srv) && EntryServed(setup, srv, x, j, e) && |srv.records| < setup.env.expected
    ensures |srv.cache| == R.CACHE_CAPACITY && |srv.index| == R.INDEX_CAPACITY
    ensures RecordOf(x, srv.records, R.Step(setup.env, srv, R.GotVerdict(x.visit.key, x.visit.key, true, true)).records)
  {
    hide RI.Inv, R.RecordVerdict, RA.Attested;
    RA.InvSized(setup.env, srv);
    RA.VerdictAnswer(setup.env, srv, x.visit.key, 0, x.visit.key, true, true);
  }

  lemma RoomForRecord(setup: Setup, s: State, x: Session)
    requires GoesWell(setup, x) && Ready(setup, s, x)
    ensures |s.srv.records| < setup.env.expected
  {
  }

  lemma ReleasedStaysAdmitted(g: G.State, i: nat, id: nat, c: GA.Contact)
    requires GA.BringsClientHello(c.hello) && c.kernel.cookie.Some? && GA.Released(g, i, id, c)
    ensures var t := G.Finalize(g, id);
            !t.quarantined && GA.GateAt(t, i, c.hello.flow) && t.flows[i].entry.phase == G.Admitted
    ensures id < |g.sessions| && g.sessions[id].gateAllowed && g.sessions[id].decisionApplied
    ensures g.sessions[id].lookupKey == c.hello.clientHello.value
  {
  }

  /** From any state that is ready for it, a session that goes well ends with the client's gate admitted,
      the worker and the connection free for the next job, and one more record at the server: of
      this session, admitted, client-verified, with the keys, nonce and report of this session. */
  lemma SessionCompletes(setup: Setup, s: State, x: Session) returns (i: nat)
    requires Inv(setup, s) && GoesWell(setup, x) && Ready(setup, s, x)
    ensures var t := Completed(setup, s, x);
            && Inv(setup, t) && !t.gate.quarantined
            && GA.GateAt(t.gate, i, x.contact.hello.flow) && t.gate.flows[i].entry.phase == G.Admitted
            && x.worker < |t.workers| && t.workers[x.worker] == Worker(Some(|s.conns|), Free)
            && |s.conns| < |t.conns| && t.conns[|s.conns|].pc == ServerPc.Idle
            && RecordOf(x, s.srv.records, t.srv.records)
  {
    hide RI.Inv, GI.Inv, ConnOk, HoldOk, Apart, VerdictsOk, WorkerOk, DutiesOk, LinkOk, RecordsOk, GA.Released;
    hide Ready, RA.Attested, RA.InTime, GA.InOrder, Served, Decided, Concluded, R.Step, EntryServed, G.Finalize;
    var j, e;
    i, j, e := GateAdmits(setup, s, x);
    RoomForRecord(setup, s, x);
    var (t, id) := (Decided(setup, Served(setup, s, x), x), |s.gate.sessions|);
    EndToEnd.InvShaped(setup, t);
    GoesWellBringsHello(setup, x);
    ReleasedStaysAdmitted(t.gate, i, id, x.contact);
    SessionIsRecorded(setup, t.srv, x, j, e);
    VerdictGiven(setup, t, x, |s.conns|, id, RA.Attested(setup.env, x.visit),
                 Responded(setup, x, e).(toClient := [], heard := 1));
  }

  lemma GoesWellBringsHello(setup: Setup, x: Session)
    requires GoesWell(setup, x)
    ensures GA.BringsClientHello(x.contact.hello) && x.contact.kernel.cookie.Some?
    ensures x.contact.hello.clientHello == Some(x.visit.key)
  {
  }
}
