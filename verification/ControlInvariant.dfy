/** What every step of the joined system keeps: lock-step on every connection, the link between a
    control thread and the cache entry it serves, and the link between a worker's verdict and the
    admission it reports. */
module ControlInvariant {
  import opened Basics
  import R = Rendezvous
  import RI = RendezvousInvariant
  import RR = RendezvousRuns
  import G = Gate
  import GI = GateInvariant
  import GE = GateEffects
  import opened Control

  // ----- one connection -----

  /** The messages on their way to the server are the tail of what the client sent: requests in
      order from the t-th, each verdict after the request it belongs to. */
  predicate Stream(mutual: bool, msgs: seq<ToServer>, asked: seq<Ask>, t: nat) {
    if msgs == [] then t == |asked|
    else
      match msgs[0]
      case Request(m, ask) => m == mutual && t < |asked| && asked[t] == ask && Stream(mutual, msgs[1..], asked, t + 1)
      case ClientReport(_) => Stream(mutual, msgs[1..], asked, t)
      case Verdict(ask, _, exchange) =>
        exchange + 1 == t && t <= |asked| && asked[exchange] == ask && Stream(mutual, msgs[1..], asked, t)
  }

  /** The messages on their way to the client are the tail of what the server answered. */
  predicate Answers(msgs: seq<ToClient>, responses: seq<Answer>, h: nat) {
    if msgs == [] then h == |responses|
    else if msgs[0].status == R.Okay then
      && h < |responses| && msgs[0].key == responses[h].snapshot.attestKey
      && (msgs[0].body.Some? ==> msgs[0].body.value == responses[h].snapshot.report)
      && Answers(msgs[1..], responses, h + 1)
    else Answers(msgs[1..], responses, h)
  }

  /** The answer is a delivered, sound report for the entry of the request it answers. */
  predicate AnswerSound(env: R.Env, a: Answer) {
    && a.snapshot.lookupKey == a.ask.key && a.snapshot.nonce == a.ask.nonce
    && env.verify(a.snapshot.report, a.snapshot.attestKey) && a.snapshot.attestKey == R.Attest(env, a.snapshot)
  }

  predicate Busy(pc: ServerPc) { !pc.Idle? && !pc.Closed? }

  predicate Unanswered(pc: ServerPc) {
    pc.Registering? || pc.AwaitingClientReport? || pc.AwaitingReport? || pc.Answering?
  }

  predicate PcOk(setup: Setup, c: Conn) {
    && |c.responses| <= c.taken
    && (c.pc.Idle? || c.pc.Answered? || c.pc.AwaitingVerdict? ==> |c.responses| == c.taken)
    && (Unanswered(c.pc) ==> |c.responses| + 1 == c.taken)
    && (Busy(c.pc) ==>
          && 0 < c.taken <= |c.asked| && c.asked[c.taken - 1] == c.pc.ask
          && setup.env.mutual == setup.cfg.mutual)
    && (c.pc.Answering? ==> AnswerSound(setup.env, Answer(c.pc.ask, c.pc.snapshot, c.pc.clientReport)))
  }

  ghost predicate ConnOk(setup: Setup, c: Conn) {
    && Stream(setup.cfg.mutual, c.toServer, c.asked, c.taken)
    && Answers(c.toClient, c.responses, c.heard)
    && PcOk(setup, c)
    && AnswersSound(setup.env, c.responses, c.asked)
  }

  /** Each answer is sound and belongs to the request of the same number. */
  ghost predicate AnswersSound(env: R.Env, responses: seq<Answer>, asked: seq<Ask>) {
    |responses| <= |asked|
    && forall j | 0 <= j < |responses| :: AnswerSound(env, responses[j]) && responses[j].ask == asked[j]
  }

  lemma {:induction false} StreamBound(mutual: bool, msgs: seq<ToServer>, asked: seq<Ask>, t: nat)
    requires Stream(mutual, msgs, asked, t)
    ensures t <= |asked|
  {
    if msgs != [] {
      StreamBound(mutual, msgs[1..], asked, if msgs[0].Request? then t + 1 else t);
    }
  }

  lemma {:induction false} StreamAppend(mutual: bool, msgs: seq<ToServer>, asked: seq<Ask>, t: nat, m: ToServer)
    requires Stream(mutual, msgs, asked, t)
    requires match m
             case Request(x, _) => x == mutual
             case ClientReport(_) => true
             case Verdict(ask, _, exchange) => exchange + 1 == |asked| && asked[exchange] == ask
    ensures Stream(mutual, msgs + [m], if m.Request? then asked + [m.ask] else asked, t)
    decreases |msgs|
  {
    if msgs == [] {
      assert ([m])[1..] == [];
    } else {
      assert (msgs + [m])[0] == msgs[0] && (msgs + [m])[1..] == msgs[1..] + [m];
      StreamAppend(mutual, msgs[1..], asked, if msgs[0].Request? then t + 1 else t, m);
    }
  }

  lemma {:induction false} AnswersAppend(msgs: seq<ToClient>, responses: seq<Answer>, h: nat, m: ToClient, a: Answer)
    requires Answers(msgs, responses, h)
    requires m.status == R.Okay ==>
               m.key == a.snapshot.attestKey && (m.body.Some? ==> m.body.value == a.snapshot.report)
    ensures Answers(msgs + [m], if m.status == R.Okay then responses + [a] else responses, h)
    decreases |msgs|
  {
    if msgs == [] {
      assert ([m])[1..] == [];
    } else {
      assert (msgs + [m])[0] == msgs[0] && (msgs + [m])[1..] == msgs[1..] + [m];
      AnswersAppend(msgs[1..], responses, if msgs[0].status == R.Okay then h + 1 else h, m, a);
    }
  }

  lemma {:induction false} AnswersBound(msgs: seq<ToClient>, responses: seq<Answer>, h: nat)
    requires Answers(msgs, responses, h)
    ensures h <= |responses|
  {
    if msgs != [] {
      AnswersBound(msgs[1..], responses, if msgs[0].status == R.Okay then h + 1 else h);
    }
  }

  lemma RefuseKeeps(setup: Setup, c: Conn, status: R.Status, told: bool)
    requires ConnOk(setup, c) && status != R.Okay
    ensures ConnOk(setup, Refuse(c, status, told))
  {
    if told {
      AnswersAppend(c.toClient, c.responses, c.heard, Response(status, Key(0), None),
                    Answer(Ask(Key(0), 0), R.BLANK, None));
    }
  }

  lemma TakingKeeps(setup: Setup, c: Conn)
    requires ConnOk(setup, c)
    ensures ConnOk(setup, Taking(setup, c))
  {
  }

  lemma RespondingKeeps(setup: Setup, c: Conn, written: Written)
    requires ConnOk(setup, c)
    ensures ConnOk(setup, Responding(c, written))
  {
    if c.pc.Answering? && written != Nothing {
      var body := if written == Everything then Some(c.pc.snapshot.report) else None;
      AnswersAppend(c.toClient, c.responses, c.heard, Response(R.Okay, c.pc.snapshot.attestKey, body),
                    Answer(c.pc.ask, c.pc.snapshot, c.pc.clientReport));
    }
  }

  lemma TakingReportKeeps(setup: Setup, c: Conn)
    requires ConnOk(setup, c)
    ensures ConnOk(setup, TakingReport(c))
  {
  }

  lemma TakingVerdictKeeps(setup: Setup, c: Conn)
    requires ConnOk(setup, c)
    ensures ConnOk(setup, TakingVerdict(c))
  {
  }

  lemma RegisteredKeeps(setup: Setup, c: Conn, status: Option<R.Status>, told: bool)
    requires ConnOk(setup, c) && c.pc.Registering?
    ensures ConnOk(setup, Registered(setup, c, status, told))
  {
    if status.Some? && status.value != R.Okay {
      RefuseKeeps(setup, c, status.value, told);
    }
  }

  lemma DeliveredKeeps(setup: Setup, c: Conn, d: R.Delivery, told: bool)
    requires ConnOk(setup, c) && c.pc.AwaitingReport?
    requires d.Delivered? ==> AnswerSound(setup.env, Answer(c.pc.ask, d.snapshot, c.pc.clientReport))
    requires d.Refused? ==> d.status != R.Okay
    ensures ConnOk(setup, Delivered(setup, c, d, told))
  {
    if d.Refused? {
      RefuseKeeps(setup, c, d.status, told);
    } else if d.Delivered? {
      RefuseKeeps(setup, c, R.ClientReportInvalid, told);
    }
  }

  lemma SendingKeeps(setup: Setup, c: Conn, ask: Ask, report: Option<Report>)
    requires ConnOk(setup, c)
    ensures ConnOk(setup, Sending(setup, c, ask, report))
  {
    SendingKeepsStream(setup, c, ask, report);
    StreamBound(setup.cfg.mutual, c.toServer, c.asked, c.taken);
  }

  lemma SendingKeepsStream(setup: Setup, c: Conn, ask: Ask, report: Option<Report>)
    requires Stream(setup.cfg.mutual, c.toServer, c.asked, c.taken)
    ensures var d := Sending(setup, c, ask, report); Stream(setup.cfg.mutual, d.toServer, d.asked, d.taken)
  {
    var m := Request(setup.cfg.mutual, ask);
    StreamAppend(setup.cfg.mutual, c.toServer, c.asked, c.taken, m);
    if setup.cfg.mutual && report.Some? {
      StreamAppend(setup.cfg.mutual, c.toServer + [m], c.asked + [ask], c.taken, ClientReport(report.value));
    } else {
      assert c.toServer + [m] + [] == c.toServer + [m];
    }
  }

  lemma ClientVerdictKeeps(setup: Setup, c: Conn, ask: Ask, verified: bool)
    requires ConnOk(setup, c) && c.asked != [] && c.asked[|c.asked| - 1] == ask
    ensures ConnOk(setup, ClientVerdict(c, ask, verified))
  {
    StreamAppend(setup.cfg.mutual, c.toServer, c.asked, c.taken, Verdict(ask, verified, |c.asked| - 1));
  }

  // ----- a control thread and the entry it serves -----

  /** The thread owns a registered entry of the cache. */
  predicate Holding(pc: ServerPc) { Busy(pc) && !pc.Registering? }

  /** The snapshot behind the response of the current exchange. */
  function CurrentSnapshot(c: Conn): Option<R.Entry> {
    if c.pc.Answering? then Some(c.pc.snapshot)
    else if (c.pc.Answered? || c.pc.AwaitingVerdict?) && c.responses != [] then
      Some(c.responses[|c.responses| - 1].snapshot)
    else None
  }

  predicate EntryServes(e: R.Entry, c: Conn)
    requires Busy(c.pc)
  {
    && e.requestReceived && e.nonce == c.pc.ask.nonce
    && (CurrentSnapshot(c).Some? ==>
          var x := CurrentSnapshot(c).value;
          e.delivered && e.hasReport && e.startNs > 0 && e.attestKey == x.attestKey && e.reportKey == x.reportKey)
  }

  predicate HoldOk(srv: R.State, c: Conn) {
    Holding(c.pc) ==>
      var i := R.Find(srv, c.pc.ask.key);
      i.Some? && EntryServes(srv.cache[i.value].entry, c)
  }

  /** No step but the recording of its own verdict takes the entry away from its thread. */
  lemma HoldPersists(setup: Setup, srv: R.State, ev: R.Event, c: Conn)
    requires RI.Inv(setup.env, srv) && R.Allowed(setup.env, srv, ev) && HoldOk(srv, c)
    requires Holding(c.pc) ==> !RR.Recycles(setup.env, srv, ev, c.pc.ask.key)
    ensures HoldOk(R.Step(setup.env, srv, ev), c)
  {
    if Holding(c.pc) {
      RR.FoundPersists(setup.env, srv, ev, c.pc.ask.key);
    }
  }

  predicate Apart(c: Conn, d: Conn) {
    Holding(c.pc) && Holding(d.pc) ==> c.pc.ask.key != d.pc.ask.key
  }

  // ----- verdicts and admissions -----

  /** A positive verdict on its way reports an admission for the response it follows. */
  ghost predicate VerdictOk(setup: Setup, gens: seq<G.GenItem>, c: Conn, m: ToServer) {
    m.Verdict? && m.verified ==>
      m.exchange < |c.responses| && GE.Certified(setup.cfg, gens, m.ask.key, c.responses[m.exchange].snapshot.attestKey)
  }

  ghost predicate VerdictsOk(setup: Setup, gens: seq<G.GenItem>, c: Conn) {
    forall p | 0 <= p < |c.toServer| :: VerdictOk(setup, gens, c, c.toServer[p])
  }

  /** A session is admitted only on the key its worker checked, and only in the gate's history. */
  ghost predicate LinkOk(setup: Setup, gate: G.State) {
    forall id | 0 <= id < |gate.sessions| && gate.sessions[id].gateAllowed ::
      var x := gate.sessions[id];
      x.reportVerified
      && GE.Certified(setup.cfg, gate.gens, x.lookupKey, G.Expected(setup.cfg, x.localKey, x.clientKey))
  }

  /** The client admitted the record's lookup key on the very key that the server attested to. */
  ghost predicate RecordOk(setup: Setup, gens: seq<G.GenItem>, r: R.Record) {
    r.admitted ==>
      setup.env.mutual == setup.cfg.mutual
      && GE.Certified(setup.cfg, gens, r.entry.lookupKey, R.Attest(setup.env, r.entry))
  }

  ghost predicate RecordsOk(setup: Setup, gens: seq<G.GenItem>, records: seq<R.Record>) {
    forall r | 0 <= r < |records| :: RecordOk(setup, gens, records[r])
  }

  // ----- workers -----

  predicate Early(pc: WorkerPc) { pc.Started? || pc.Asked? || pc.Checking? }

  /** The worker has accepted a full response to its last request, under this key. */
  predicate Heard(c: Conn, ask: Ask, key: Key) {
    && c.asked != [] && c.asked[|c.asked| - 1] == ask && c.heard == |c.asked| && c.heard <= |c.responses|
    && c.responses[c.heard - 1].snapshot.attestKey == key
  }

  predicate WorkerOk(setup: Setup, sessions: seq<G.Session>, conns: seq<Conn>, x: Worker) {
    && (x.conn.Some? ==> x.conn.value < |conns|)
    && (x.pc.Free? ==> (x.conn.Some? ==> conns[x.conn.value].heard == |conns[x.conn.value].asked|))
    && (!x.pc.Free? ==> x.pc.id < |sessions|)
    && (x.pc.Aborting? ==> x.conn.None?)
    && (!x.pc.Free? && !x.pc.Aborting? ==>
          && x.conn.Some?
          && var c, s := conns[x.conn.value], sessions[x.pc.id];
             match x.pc
             case Started(_) => c.heard == |c.asked|
             case Asked(_, nonce) => c.asked != [] && c.heard + 1 == |c.asked|
                                     && c.asked[|c.asked| - 1] == Ask(s.lookupKey, nonce)
             case Checking(_, nonce, full, key, _) => full ==> Heard(c, Ask(s.lookupKey, nonce), key)
             case Checked(_, nonce, full, key) => HeardAndChecked(setup, s, c, nonce, full, key)
             case Deciding(_, nonce, full, key) => HeardAndChecked(setup, s, c, nonce, full, key)
             case Reporting(_, nonce, full, key) => HeardAndChecked(setup, s, c, nonce, full, key))
  }

  predicate HeardAndChecked(setup: Setup, s: G.Session, c: Conn, nonce: nat, full: bool, key: Key) {
    && (full ==> Heard(c, Ask(s.lookupKey, nonce), key))
    && (s.reportVerified ==> full && s.hasServerHello && G.Expected(setup.cfg, s.localKey, s.clientKey) == key)
  }

  /** A session nobody has checked yet. */
  predicate Untried(gate: G.State, id: nat) {
    id < |gate.sessions| && !gate.sessions[id].gateAllowed && !gate.sessions[id].reportVerified && id !in gate.decisions
  }

  ghost predicate DutiesOk(gate: G.State, workers: seq<Worker>) {
    && (forall j | 0 <= j < |gate.jobs| :: Untried(gate, gate.jobs[j]))
    && (forall w | 0 <= w < |workers| && Early(workers[w].pc) :: Untried(gate, workers[w].pc.id))
    && (forall j | 0 <= j < |gate.decisions| :: gate.decisions[j] < |gate.sessions|)
    && (forall i, j | 0 <= i < j < |gate.jobs| :: gate.jobs[i] != gate.jobs[j])
    && (forall w | 0 <= w < |workers| && !workers[w].pc.Free? :: workers[w].pc.id !in gate.jobs)
    && (forall v, w | 0 <= v < w < |workers| && !workers[v].pc.Free? && !workers[w].pc.Free? ::
          workers[v].pc.id != workers[w].pc.id)
    && (forall v, w | 0 <= v < w < |workers| && workers[v].conn.Some? && workers[w].conn.Some? ::
          workers[v].conn != workers[w].conn)
  }

  ghost predicate Inv(setup: Setup, s: State) {
    && RI.Inv(setup.env, s.srv) && GI.Inv(setup.cfg, s.gate)
    && (forall k | 0 <= k < |s.conns| :: ConnOk(setup, s.conns[k]))
    && (forall k | 0 <= k < |s.conns| :: HoldOk(s.srv, s.conns[k]))
    && (forall k, l | 0 <= k < |s.conns| && 0 <= l < |s.conns| && k != l :: Apart(s.conns[k], s.conns[l]))
    && (forall k | 0 <= k < |s.conns| :: VerdictsOk(setup, s.gate.gens, s.conns[k]))
    && (forall w | 0 <= w < |s.workers| :: WorkerOk(setup, s.gate.sessions, s.conns, s.workers[w]))
    && DutiesOk(s.gate, s.workers)
    && LinkOk(setup, s.gate)
    && RecordsOk(setup, s.gate.gens, s.srv.records)
  }

  lemma InitOk(setup: Setup, workers: nat)
    ensures Inv(setup, Init(workers))
  {
    hide RI.Inv, GI.Inv;
    RI.InitOk(setup.env);
    GI.InitOk(setup.cfg);
  }
}
