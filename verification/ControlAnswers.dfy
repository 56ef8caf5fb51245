/** What the two ends of a control connection answer when things go wrong: the server's control thread
    tells every refusal with its own status and closes, and the client's worker ends its job whatever
    fails, withdrawing an admission it can no longer report. */
module ControlAnswers {
  import opened Basics
  import R = Rendezvous
  import RI = RendezvousInvariant
  import RA = RendezvousAnswers
  import G = Gate
  import GI = GateInvariant
  import EndToEnd
  import opened Control
  import opened ControlInvariant

  // ----- the server's control thread -----

  /** The connection is closed after a refusal with this status, which is sent if the client can be
      told. */
  predicate RefusedWith(c: Conn, d: Conn, status: R.Status, told: bool) {
    d == c.(pc := ServerPc.Closed, toClient := c.toClient + if told then [Response(status, Key(0), None)] else [])
  }

  /** A request is granted exactly if its key is there, not yet requested, and the request is timely, and
      the report can still be asked for; it is refused as BAD_BINDING, INTERNAL or NOT_FOUND each for
      its own reason, and otherwise waits. */
  lemma RequestAnswer(setup: Setup, s: State, ev: Event)
    requires Inv(setup, s) && ev.TryRegister? && ev.k < |s.conns| && s.conns[ev.k].pc.Registering?
    ensures Shaped(s)
    ensures var (c, d) := (s.conns[ev.k], NextConn(setup, s, ev, ev.k));
            var (srv, ask) := (s.srv, c.pc.ask);
            && (forall i | 0 <= i < |srv.cache| && RA.Knows(srv.cache[i], ask.key) ::
                  var e := srv.cache[i].entry;
                  if e.requestReceived || !RA.Timely(e, ev.now, ev.cookieNow) then
                    RefusedWith(c, d, R.BadBinding, ev.told)
                  else if srv.stopping && e.startNs == 0 && e.hasReport then RefusedWith(c, d, R.Internal, ev.told)
                  else d == c.(pc := if setup.env.mutual then AwaitingClientReport(ask) else AwaitingReport(ask, None)))
            && (RA.NoneKnows(srv, ask.key) ==>
                  if srv.stopping || ev.expired then RefusedWith(c, d, R.NotFound, ev.told) else d == c)
  {
    hide RI.Inv, GI.Inv, ConnOk, HoldOk, Apart, VerdictsOk, WorkerOk, DutiesOk, LinkOk, RecordsOk, R.Register;
    EndToEnd.InvShaped(setup, s);
    var ask := s.conns[ev.k].pc.ask;
    RA.RegisterAnswer(setup.env, s.srv, ask.key, ask.nonce, ev.began, ev.now, ev.cookieNow, ev.expired, ev.start,
                      ev.done);
  }

  /** The client's report passes: always in one-way mode, and in mutual mode if it came and verifies under
      the key derived for the request. */
  predicate Passes(env: R.Env, ask: Ask, own: Option<Report>) {
    !env.mutual || (own.Some? && env.verify(own.value, env.clientReportKey(ask.key, ask.nonce)))
  }

  /** A delivered report is answered exactly if the client's own report passes, and refused as
      CLIENT_REPORT_INVALID otherwise; a refused delivery is told with its status. */
  lemma DeliveryAnswer(setup: Setup, s: State, ev: Event)
    requires Inv(setup, s) && ev.TryDeliver? && ev.k < |s.conns| && s.conns[ev.k].pc.AwaitingReport?
    ensures var (c, d) := (s.conns[ev.k], NextConn(setup, s, ev, ev.k));
            match R.Deliver(s.srv, c.pc.ask.key, c.pc.ask.nonce, ev.now, ev.cookieNow, ev.expired).1
            case Waiting => d == c
            case Refused(status) => RefusedWith(c, d, status, ev.told)
            case Delivered(e) =>
              if Passes(setup.env, c.pc.ask, c.pc.clientReport) then
                d == c.(pc := Answering(c.pc.ask, e, c.pc.clientReport))
              else RefusedWith(c, d, R.ClientReportInvalid, ev.told)
  {
    hide Inv, R.Deliver;
  }

  /** What is read in the wrong place closes the connection, unread. */
  lemma StrayMessageCloses(setup: Setup, c: Conn)
    requires c.toServer != []
    ensures c.pc.Idle? && !c.toServer[0].Request? ==> Taking(setup, c) == c.(pc := ServerPc.Closed)
    ensures c.pc.Idle? && c.toServer[0].Request? && c.toServer[0].mutual != setup.env.mutual ==>
              Taking(setup, c) == c.(pc := ServerPc.Closed, toServer := c.toServer[1..], taken := c.taken + 1)
    ensures c.pc.AwaitingClientReport? && !c.toServer[0].ClientReport? ==> TakingReport(c) == c.(pc := ServerPc.Closed)
    ensures c.pc.AwaitingVerdict? && !(c.toServer[0].Verdict? && c.toServer[0].ask == c.pc.ask) ==>
              TakingVerdict(c) == c.(pc := ServerPc.Closed)
  {
  }

  // ----- the client's worker -----

  function Then(setup: Setup, s: State, ev: Event): State {
    if Shaped(s) then Step(setup, s, ev) else s
  }

  lemma ThenKeeps(setup: Setup, s: State, ev: Event)
    requires Inv(setup, s) && (Shaped(s) ==> Allowed(setup, s, ev))
    ensures Shaped(s) && Then(setup, s, ev) == Step(setup, s, ev) && Inv(setup, Then(setup, s, ev))
  {
    hide Inv, Step;
    EndToEnd.InvShaped(setup, s);
    EndToEnd.StepKeeps(setup, s, ev);
  }

  /** The next thing the worker tries, and that fails or times out. */
  function Failing(w: nat, pc: WorkerPc): Event {
    match pc
    case Started(_) => SendRequest(w, 0, false, None)
    case Asked(_, _) => Hear(w, false)
    case Checking(_, _, _, _, _) => Check(w, true)
    case Checked(_, _, _, _) => Enqueue(w)
    case Deciding(_, _, _, _) => AwaitGate(w, true)
    case Reporting(_, _, _, _) => SendVerdict(w, false, false)
    case Aborting(_) => AwaitGate(w, true)
    case Free => Check(w, true)
  }

  function Stages(pc: WorkerPc): nat {
    match pc
    case Free => 0
    case Aborting(_) => 1
    case Reporting(_, _, _, _) => 1
    case Deciding(_, _, _, _) => 2
    case Checked(_, _, _, _) => 3
    case Checking(_, _, _, _, _) => 4
    case Asked(_, _) => 5
    case Started(_) => 6
  }

  /** The worker is a stage further with the same session, or done with it; and an admission that it no
      longer waits for is withdrawn. */
  predicate MovedOn(pc: WorkerPc, next: WorkerPc, before: seq<G.Session>, after: seq<G.Session>)
    requires !pc.Free? && pc.id < |before|
  {
    && |after| == |before| && Stages(next) < Stages(pc)
    && (if next.Free? then after[pc.id].finalized else next.id == pc.id)
    && (next.Reporting? && !before[pc.id].decisionApplied ==> !after[pc.id].gateAllowed)
  }

  /** Whatever fails, the worker gets at least one stage further. So a job ends after at most six
      failures. */
  lemma FailureMovesOn(setup: Setup, s: State, w: nat)
    requires Inv(setup, s) && w < |s.workers| && !s.workers[w].pc.Free?
    ensures s.workers[w].pc.id < |s.gate.sessions|
    ensures var (pc, t) := (s.workers[w].pc, Then(setup, s, Failing(w, s.workers[w].pc)));
            && Inv(setup, t) && |t.workers| == |s.workers|
            && MovedOn(pc, t.workers[w].pc, s.gate.sessions, t.gate.sessions)
  {
    hide RI.Inv, GI.Inv, ConnOk, HoldOk, Apart, VerdictsOk, DutiesOk, LinkOk, RecordsOk, Step, MovedOn, Then;
    assert WorkerOk(setup, s.gate.sessions, s.conns, s.workers[w]);
    ThenKeeps(setup, s, Failing(w, s.workers[w].pc));
    FailureMoves(setup, s, w);
  }

  lemma FailureMoves(setup: Setup, s: State, w: nat)
    requires Shaped(s) && w < |s.workers| && !s.workers[w].pc.Free?
    requires WorkerOk(setup, s.gate.sessions, s.conns, s.workers[w])
    ensures var (pc, t) := (s.workers[w].pc, Step(setup, s, Failing(w, s.workers[w].pc)));
            |t.workers| == |s.workers| && MovedOn(pc, t.workers[w].pc, s.gate.sessions, t.gate.sessions)
  {
    hide Step, MovedOn, Heard, HeardAndChecked;
    var pc := s.workers[w].pc;
    if pc.Deciding? || pc.Reporting? || pc.Aborting? {
      LateFailureMoves(setup, s, w);
    } else {
      EarlyFailureMoves(setup, s, w);
    }
  }

  lemma EarlyFailureMoves(setup: Setup, s: State, w: nat)
    requires Shaped(s) && Working(s, w) && (s.workers[w].pc.Started? || s.workers[w].pc.Asked? ==> Usable(s, w))
    requires s.workers[w].pc.Started? || s.workers[w].pc.Asked? || s.workers[w].pc.Checking? || s.workers[w].pc.Checked?
    ensures var (pc, t) := (s.workers[w].pc, Step(setup, s, Failing(w, s.workers[w].pc)));
            |t.workers| == |s.workers| && MovedOn(pc, t.workers[w].pc, s.gate.sessions, t.gate.sessions)
  {
    hide G.Callback, G.DrainOne, G.Expire, G.DropAllFrom, ClientKeyFor, Hearable, G.Expected;
  }

  lemma LateFailureMoves(setup: Setup, s: State, w: nat)
    requires Shaped(s) && Working(s, w) && (s.workers[w].pc.Reporting? ==> Usable(s, w))
    requires s.workers[w].pc.Deciding? || s.workers[w].pc.Reporting? || s.workers[w].pc.Aborting?
    ensures var (pc, t) := (s.workers[w].pc, Step(setup, s, Failing(w, s.workers[w].pc)));
            |t.workers| == |s.workers| && MovedOn(pc, t.workers[w].pc, s.gate.sessions, t.gate.sessions)
  {
    hide G.Callback, G.DrainOne, G.Expire, G.DropAllFrom, G.CheckReport;
  }
}
