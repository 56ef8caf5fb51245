/** The joined system keeps its invariant, and what follows for every run: an admitted session in
    the server's records was admitted by the client on the very ServerHello the server had joined
    with its ClientHello, and a response the client accepts answers the request it sent last. */
module EndToEnd {
  import opened Basics
  import R = Rendezvous
  import RI = RendezvousInvariant
  import RR = RendezvousRuns
  import G = Gate
  import GI = GateInvariant
  import GE = GateEffects
  import opened Control
  import opened ControlInvariant

  // ----- the server on its own -----

  lemma OwnEventsRecordNothing(env: R.Env, s: R.State, ev: R.Event)
    requires |s.cache| == R.CACHE_CAPACITY && |s.index| == R.INDEX_CAPACITY && !ev.GotVerdict?
    ensures R.Step(env, s, ev).records == s.records
  {
  }

  lemma ServerEventKeeps(setup: Setup, s: State, ev: Event)
    requires Inv(setup, s) && ev.ServerEvent? && Allowed(setup, s, ev)
    ensures Inv(setup, Step(setup, s, ev))
  {
    RI.StepKeeps(setup.env, s.srv, ev.sev);
    OwnEventsRecordNothing(setup.env, s.srv, ev.sev);
    forall k | 0 <= k < |s.conns| ensures HoldOk(R.Step(setup.env, s.srv, ev.sev), s.conns[k]) {
      HoldPersists(setup, s.srv, ev.sev, s.conns[k]);
    }
  }

  lemma InvShaped(setup: Setup, s: State)
    requires Inv(setup, s)
    ensures Shaped(s)
  {
  }

  // ----- the client's main thread on its own -----

  lemma VerdictsLater(setup: Setup, gens: seq<G.GenItem>, more: seq<G.GenItem>, c: Conn)
    requires VerdictsOk(setup, gens, c) && gens <= more
    ensures VerdictsOk(setup, more, c)
  {
  }

  lemma RecordsLater(setup: Setup, gens: seq<G.GenItem>, more: seq<G.GenItem>, records: seq<R.Record>)
    requires RecordsOk(setup, gens, records) && gens <= more
    ensures RecordsOk(setup, more, records)
  {
  }

  lemma LinkAfterEffect(setup: Setup, g: G.State, t: G.State)
    requires GI.Inv(setup.cfg, g) && LinkOk(setup, g) && GE.Effect(setup.cfg, g, t)
    ensures LinkOk(setup, t)
  {
  }

  lemma DutiesAfterEffect(setup: Setup, g: G.State, t: G.State, workers: seq<Worker>)
    requires GE.Effect(setup.cfg, g, t) && DutiesOk(g, workers)
    requires forall w | 0 <= w < |workers| && !workers[w].pc.Free? :: workers[w].pc.id < |g.sessions|
    ensures DutiesOk(t, workers)
  {
  }

  lemma WorkerAfterEffect(setup: Setup, g: G.State, t: G.State, conns: seq<Conn>, x: Worker)
    requires GI.Inv(setup.cfg, g) && GE.Effect(setup.cfg, g, t) && WorkerOk(setup, g.sessions, conns, x)
    ensures WorkerOk(setup, t.sessions, conns, x)
  {
  }

  lemma ClientEventKeeps(setup: Setup, s: State, ev: Event)
    requires Inv(setup, s) && ev.ClientEvent? && Allowed(setup, s, ev)
    ensures Inv(setup, Step(setup, s, ev))
  {
    hide RI.Inv, GI.Inv, ConnOk, HoldOk, Apart, G.Step, LinkOk, VerdictsOk, RecordsOk;
    InvShaped(setup, s);
    var t := G.Step(setup.cfg, s.gate, ev.gev);
    GI.StepKeeps(setup.cfg, s.gate, ev.gev);
    GE.MainThreadEffect(setup.cfg, s.gate, ev.gev);
    LinkAfterEffect(setup, s.gate, t);
    forall w | 0 <= w < |s.workers| ensures WorkerOk(setup, t.sessions, s.conns, s.workers[w]) {
      WorkerAfterEffect(setup, s.gate, t, s.conns, s.workers[w]);
    }
    DutiesAfterEffect(setup, s.gate, t, s.workers);
    forall k | 0 <= k < |s.conns| ensures VerdictsOk(setup, t.gens, s.conns[k]) {
      VerdictsLater(setup, s.gate.gens, t.gens, s.conns[k]);
    }
    RecordsLater(setup, s.gate.gens, t.gens, s.srv.records);
  }

  // ----- the server's control threads -----

  /** A control thread only reads from the head of what it was sent and adds to its answers. */
  predicate ServerMoves(c: Conn, d: Conn) {
    && d.asked == c.asked && d.heard == c.heard && c.responses <= d.responses
    && (d.toServer == c.toServer || (c.toServer != [] && d.toServer == c.toServer[1..]))
  }

  lemma VerdictsAfterMove(setup: Setup, gens: seq<G.GenItem>, c: Conn, d: Conn)
    requires VerdictsOk(setup, gens, c) && ServerMoves(c, d)
    ensures VerdictsOk(setup, gens, d)
  {
  }

  lemma WorkersAfterMove(setup: Setup, sessions: seq<G.Session>, conns: seq<Conn>, k: nat, d: Conn, x: Worker)
    requires k < |conns| && ServerMoves(conns[k], d) && WorkerOk(setup, sessions, conns, x)
    ensures WorkerOk(setup, sessions, conns[k := d], x)
  {
  }

  /** A control thread's step, once its own connection is known to be in order. */
  lemma ServerSideKeeps(setup: Setup, s: State, k: nat, srv: R.State, d: Conn)
    requires Inv(setup, s) && k < |s.conns|
    requires RI.Inv(setup.env, srv) && ConnOk(setup, d) && HoldOk(srv, d) && ServerMoves(s.conns[k], d)
    requires forall l | 0 <= l < |s.conns| && l != k :: HoldOk(srv, s.conns[l]) && Apart(d, s.conns[l])
    requires RecordsOk(setup, s.gate.gens, srv.records)
    ensures Inv(setup, s.(srv := srv, conns := s.conns[k := d]))
  {
    VerdictsAfterMove(setup, s.gate.gens, s.conns[k], d);
    forall w | 0 <= w < |s.workers| ensures WorkerOk(setup, s.gate.sessions, s.conns[k := d], s.workers[w]) {
      WorkersAfterMove(setup, s.gate.sessions, s.conns, k, d, s.workers[w]);
    }
  }

  lemma OthersHold(setup: Setup, s: State, k: nat, ev: R.Event)
    requires Inv(setup, s) && k < |s.conns| && R.Allowed(setup.env, s.srv, ev)
    requires forall l | 0 <= l < |s.conns| && l != k && Holding(s.conns[l].pc) ::
               !RR.Recycles(setup.env, s.srv, ev, s.conns[l].pc.ask.key)
    ensures RI.Inv(setup.env, R.Step(setup.env, s.srv, ev))
    ensures forall l | 0 <= l < |s.conns| && l != k :: HoldOk(R.Step(setup.env, s.srv, ev), s.conns[l])
  {
    RI.StepKeeps(setup.env, s.srv, ev);
    forall l | 0 <= l < |s.conns| && l != k ensures HoldOk(R.Step(setup.env, s.srv, ev), s.conns[l]) {
      HoldPersists(setup, s.srv, ev, s.conns[l]);
    }
  }

  /** Registration succeeds only on an entry nobody has registered, and registers it. */
  lemma RegistrationIsFirst(env: R.Env, srv: R.State, ev: R.Event)
    requires RI.Inv(env, srv) && ev.TriedRequest? && R.Allowed(env, srv, ev)
    ensures var r := R.Register(env, srv, ev.key, ev.nonce, ev.began, ev.now, ev.cookieNow, ev.expired, ev.start,
                                ev.done);
            r.1 == Some(R.Okay) ==>
              && R.Find(srv, ev.key).Some? && !srv.cache[R.Find(srv, ev.key).value].entry.requestReceived
              && R.Find(r.0, ev.key) == R.Find(srv, ev.key)
              && var e := r.0.cache[R.Find(srv, ev.key).value].entry; e.requestReceived && e.nonce == ev.nonce
  {
    if R.Find(srv, ev.key).Some? {
      RR.FoundPersists(env, srv, ev, ev.key);
    }
  }

  /** A thread that holds nothing yet, or holds what it held, stays apart from the others. */
  lemma StaysApart(setup: Setup, s: State, k: nat, d: Conn)
    requires Inv(setup, s) && k < |s.conns|
    requires Holding(d.pc) ==> Holding(s.conns[k].pc) && d.pc.ask == s.conns[k].pc.ask
    ensures forall l | 0 <= l < |s.conns| && l != k :: Apart(d, s.conns[l])
  {
  }

  lemma NewHolderApart(setup: Setup, s: State, k: nat, d: Conn)
    requires Inv(setup, s) && k < |s.conns| && Holding(d.pc)
    requires R.Find(s.srv, d.pc.ask.key).Some? && !s.srv.cache[R.Find(s.srv, d.pc.ask.key).value].entry.requestReceived
    ensures forall l | 0 <= l < |s.conns| && l != k :: Apart(d, s.conns[l])
  {
  }

  lemma RegisteredMove(setup: Setup, srv: R.State, c: Conn, status: Option<R.Status>, told: bool)
    requires c.pc.Registering?
    requires status == Some(R.Okay) ==>
               R.Find(srv, c.pc.ask.key).Some?
               && var e := srv.cache[R.Find(srv, c.pc.ask.key).value].entry;
                  e.requestReceived && e.nonce == c.pc.ask.nonce
    ensures var d := Registered(setup, c, status, told);
            && ServerMoves(c, d) && HoldOk(srv, d)
            && (Holding(d.pc) ==> status == Some(R.Okay) && d.pc.ask == c.pc.ask)
  {
  }

  lemma TryRegisterKeeps(setup: Setup, s: State, ev: Event)
    requires Inv(setup, s) && ev.TryRegister? && ev.k < |s.conns| && Allowed(setup, s, ev)
             && s.conns[ev.k].pc.Registering?
    ensures Inv(setup, Step(setup, s, ev))
  {
    hide RI.Inv, GI.Inv, WorkerOk, DutiesOk, LinkOk, RecordsOk, VerdictsOk, ConnOk, HoldOk, R.Register, Registered;
    InvShaped(setup, s);
    var c := s.conns[ev.k];
    var key := c.pc.ask.key;
    var rev := R.TriedRequest(key, c.pc.ask.nonce, ev.began, ev.now, ev.cookieNow, ev.expired, ev.start, ev.done);
    var r := R.Register(setup.env, s.srv, key, c.pc.ask.nonce, ev.began, ev.now, ev.cookieNow, ev.expired, ev.start,
                        ev.done);
    var d := Registered(setup, c, r.1, ev.told);
    OthersHold(setup, s, ev.k, rev);
    OwnEventsRecordNothing(setup.env, s.srv, rev);
    RegisteredKeeps(setup, c, r.1, ev.told);
    RegistrationIsFirst(setup.env, s.srv, rev);
    RegisteredMove(setup, r.0, c, r.1, ev.told);
    if Holding(d.pc) {
      NewHolderApart(setup, s, ev.k, d);
    } else {
      StaysApart(setup, s, ev.k, d);
    }
    ServerSideKeeps(setup, s, ev.k, r.0, d);
  }

  /** What is delivered is a sound answer, and the entry remembers it. */
  lemma DeliveryIsSound(env: R.Env, srv: R.State, ev: R.Event)
    requires RI.Inv(env, srv) && ev.TriedDelivery?
    ensures var r := R.Deliver(srv, ev.key, ev.nonce, ev.now, ev.cookieNow, ev.expired);
            && (r.1.Refused? ==> r.1.status != R.Okay)
            && (r.1.Delivered? ==>
                  && (forall x :: AnswerSound(env, Answer(Ask(ev.key, ev.nonce), r.1.snapshot, x)))
                  && R.Find(r.0, ev.key).Some? && r.0.cache[R.Find(r.0, ev.key).value].entry == r.1.snapshot
                  && r.1.snapshot.delivered && r.1.snapshot.requestReceived
                  && r.1.snapshot.hasReport && r.1.snapshot.startNs > 0)
  {
    if R.Find(srv, ev.key).Some? {
      assert RI.EntryOk(env, srv.cache[R.Find(srv, ev.key).value].entry);
      RR.FoundPersists(env, srv, ev, ev.key);
    }
  }

  lemma DeliveredMove(setup: Setup, srv: R.State, c: Conn, outcome: R.Delivery, told: bool)
    requires c.pc.AwaitingReport? && HoldOk(srv, c)
    requires outcome.Delivered? ==>
               var e := outcome.snapshot;
               && R.Find(srv, c.pc.ask.key).Some? && srv.cache[R.Find(srv, c.pc.ask.key).value].entry == e
               && e.delivered && e.requestReceived && e.hasReport && e.startNs > 0 && e.nonce == c.pc.ask.nonce
    ensures var d := Delivered(setup, c, outcome, told);
            && ServerMoves(c, d) && HoldOk(srv, d)
            && (Holding(d.pc) ==> Holding(c.pc) && d.pc.ask == c.pc.ask)
  {
  }

  lemma TryDeliverKeeps(setup: Setup, s: State, ev: Event)
    requires Inv(setup, s) && ev.TryDeliver? && ev.k < |s.conns| && s.conns[ev.k].pc.AwaitingReport?
    ensures Inv(setup, Step(setup, s, ev))
  {
    hide RI.Inv, GI.Inv, WorkerOk, DutiesOk, LinkOk, RecordsOk, VerdictsOk, ConnOk, HoldOk, R.Deliver, Delivered;
    InvShaped(setup, s);
    var c := s.conns[ev.k];
    var rev := R.TriedDelivery(c.pc.ask.key, c.pc.ask.nonce, ev.now, ev.cookieNow, ev.expired);
    var r := R.Deliver(s.srv, c.pc.ask.key, c.pc.ask.nonce, ev.now, ev.cookieNow, ev.expired);
    OthersHold(setup, s, ev.k, rev);
    OwnEventsRecordNothing(setup.env, s.srv, rev);
    HoldPersists(setup, s.srv, rev, c);
    DeliveryIsSound(setup.env, s.srv, rev);
    assert Ask(c.pc.ask.key, c.pc.ask.nonce) == c.pc.ask;
    DeliveredKeeps(setup, c, r.1, ev.told);
    var d := Delivered(setup, c, r.1, ev.told);
    DeliveredMove(setup, r.0, c, r.1, ev.told);
    StaysApart(setup, s, ev.k, d);
    ServerSideKeeps(setup, s, ev.k, r.0, d);
  }

  lemma MarkedMove(setup: Setup, srv: R.State, c: Conn)
    requires c.pc.Answered? && ConnOk(setup, c) && HoldOk(srv, c)
    ensures var d := c.(pc := AwaitingVerdict(c.pc.ask, c.pc.clientReport));
            ServerMoves(c, d) && ConnOk(setup, d) && HoldOk(srv, d)
  {
  }

  lemma MarkResponseKeeps(setup: Setup, s: State, ev: Event)
    requires Inv(setup, s) && ev.MarkResponse? && ev.k < |s.conns| && s.conns[ev.k].pc.Answered?
    ensures Inv(setup, Step(setup, s, ev))
  {
    hide RI.Inv, GI.Inv, WorkerOk, DutiesOk, LinkOk, RecordsOk, VerdictsOk;
    var c := s.conns[ev.k];
    var rev := R.SentResponse(c.pc.ask.key, ev.now);
    var d := c.(pc := AwaitingVerdict(c.pc.ask, c.pc.clientReport));
    OthersHold(setup, s, ev.k, rev);
    OwnEventsRecordNothing(setup.env, s.srv, rev);
    HoldPersists(setup, s.srv, rev, c);
    StaysApart(setup, s, ev.k, d);
    MarkedMove(setup, R.Step(setup.env, s.srv, rev), c);
    ServerSideKeeps(setup, s, ev.k, R.Step(setup.env, s.srv, rev), d);
  }

  /** The record a positive verdict leaves is matched by the admission it reports. */
  lemma VerdictRecorded(setup: Setup, s: State, k: nat)
    requires Inv(setup, s) && k < |s.conns| && VerdictFits(s.conns[k])
    ensures var c := s.conns[k];
            RecordsOk(setup, s.gate.gens, R.Step(setup.env, s.srv, VerdictEvent(setup, c)).records)
  {
  }

  lemma TakeVerdictKeeps(setup: Setup, s: State, ev: Event)
    requires Inv(setup, s) && ev.TakeVerdict? && ev.k < |s.conns| && VerdictFits(s.conns[ev.k])
    ensures Inv(setup, Step(setup, s, ev))
  {
    hide RI.Inv, GI.Inv, WorkerOk, DutiesOk, LinkOk, RecordsOk, VerdictsOk, ConnOk;
    InvShaped(setup, s);
    var c := s.conns[ev.k];
    var rev := VerdictEvent(setup, c);
    forall l | 0 <= l < |s.conns| && l != ev.k && Holding(s.conns[l].pc)
      ensures !RR.Recycles(setup.env, s.srv, rev, s.conns[l].pc.ask.key)
    {
      assert Apart(c, s.conns[l]);
    }
    OthersHold(setup, s, ev.k, rev);
    VerdictRecorded(setup, s, ev.k);
    TakingVerdictKeeps(setup, c);
    ServerSideKeeps(setup, s, ev.k, R.Step(setup.env, s.srv, rev), TakingVerdict(c));
  }

  lemma PlainMove(setup: Setup, s: State, ev: Event)
    requires ServerSide(ev) && ev.k < |s.conns| && ServerPart(setup, s, ev).None?
    requires ConnOk(setup, s.conns[ev.k]) && HoldOk(s.srv, s.conns[ev.k])
    ensures var c, d := s.conns[ev.k], NextConn(setup, s, ev, ev.k);
            && ServerMoves(c, d) && HoldOk(s.srv, d)
            && (Holding(d.pc) ==> Holding(c.pc) && d.pc.ask == c.pc.ask)
  {
  }

  lemma ClosingKeeps(setup: Setup, c: Conn)
    requires ConnOk(setup, c)
    ensures ConnOk(setup, c.(pc := Closed))
  {
  }

  lemma PlainConnKeeps(setup: Setup, s: State, ev: Event)
    requires ServerSide(ev) && ev.k < |s.conns| && ServerPart(setup, s, ev).None? && ConnOk(setup, s.conns[ev.k])
    ensures ConnOk(setup, NextConn(setup, s, ev, ev.k))
  {
    var c := s.conns[ev.k];
    match ev {
      case TakeRequest(_) => TakingKeeps(setup, c);
      case TakeClientReport(_) => TakingReportKeeps(setup, c);
      case Respond(_, written) => RespondingKeeps(setup, c, written);
      case TakeVerdict(_) => TakingVerdictKeeps(setup, c);
      case CloseConn(_) => ClosingKeeps(setup, c);
      case _ =>
    }
  }

  lemma PlainServerSideKeeps(setup: Setup, s: State, ev: Event)
    requires Inv(setup, s) && ServerSide(ev) && ev.k < |s.conns| && ServerPart(setup, s, ev).None?
    ensures Inv(setup, Step(setup, s, ev))
  {
    hide RI.Inv, GI.Inv, WorkerOk, DutiesOk, LinkOk, RecordsOk, VerdictsOk, ConnOk;
    InvShaped(setup, s);
    var d := NextConn(setup, s, ev, ev.k);
    PlainConnKeeps(setup, s, ev);
    PlainMove(setup, s, ev);
    StaysApart(setup, s, ev.k, d);
    assert forall l | 0 <= l < |s.conns| && l != ev.k :: HoldOk(s.srv, s.conns[l]);
    ServerSideKeeps(setup, s, ev.k, s.srv, d);
  }

  lemma ServerSideStepKeeps(setup: Setup, s: State, ev: Event)
    requires Inv(setup, s) && ServerSide(ev) && Allowed(setup, s, ev)
    ensures Inv(setup, Step(setup, s, ev))
  {
    if ev.k < |s.conns| {
      if ServerPart(setup, s, ev).None? {
        PlainServerSideKeeps(setup, s, ev);
      } else if ev.TryRegister? {
        TryRegisterKeeps(setup, s, ev);
      } else if ev.TryDeliver? {
        TryDeliverKeeps(setup, s, ev);
      } else if ev.MarkResponse? {
        MarkResponseKeeps(setup, s, ev);
      } else {
        TakeVerdictKeeps(setup, s, ev);
      }
    }
  }

  // ----- the client's control workers -----

  predicate SameDuty(was: WorkerPc, now: WorkerPc) {
    now.Free? || (!was.Free? && now.id == was.id && (Early(now) ==> Early(was)))
  }

  lemma DutiesKept(gate: G.State, workers: seq<Worker>, w: nat, x: Worker)
    requires DutiesOk(gate, workers) && w < |workers| && SameDuty(workers[w].pc, x.pc)
    requires x.conn == workers[w].conn || x.conn.None?
             || forall v | 0 <= v < |workers| && v != w :: workers[v].conn != x.conn
    ensures DutiesOk(gate, workers[w := x])
  {
  }

  /** The worker moves on, touching nothing else. */
  lemma SetPcKeeps(setup: Setup, s: State, w: nat, x: Worker)
    requires Inv(setup, s) && w < |s.workers| && SameDuty(s.workers[w].pc, x.pc)
    requires x.conn == s.workers[w].conn || x.conn.None?
    requires WorkerOk(setup, s.gate.sessions, s.conns, x)
    ensures Inv(setup, SetWorker(s, w, x))
  {
    DutiesKept(s.gate, s.workers, w, x);
  }

  /** The client's own moves on a connection leave the server's side of it alone. */
  predicate ClientMoves(c: Conn, d: Conn) { d.pc == c.pc && d.responses == c.responses }

  lemma OtherWorkersUnmoved(setup: Setup, s: State, w: nat, k: nat, d: Conn, v: nat)
    requires Inv(setup, s) && w < |s.workers| && s.workers[w].conn == Some(k) && k < |s.conns|
    requires v < |s.workers| && v != w
    ensures WorkerOk(setup, s.gate.sessions, s.conns[k := d], s.workers[v])
  {
  }

  lemma HoldAfterClientMove(srv: R.State, c: Conn, d: Conn)
    requires HoldOk(srv, c) && ClientMoves(c, d)
    ensures HoldOk(srv, d)
  {
  }

  lemma ClientMoveKeeps(setup: Setup, s: State, w: nat, k: nat, d: Conn, pc: WorkerPc)
    requires Inv(setup, s) && w < |s.workers| && s.workers[w].conn == Some(k) && k < |s.conns|
    requires ConnOk(setup, d) && ClientMoves(s.conns[k], d) && VerdictsOk(setup, s.gate.gens, d)
    requires SameDuty(s.workers[w].pc, pc)
    requires WorkerOk(setup, s.gate.sessions, s.conns[k := d], s.workers[w].(pc := pc))
    ensures Inv(setup, SetPc(s.(conns := s.conns[k := d]), w, pc))
  {
    forall v | 0 <= v < |s.workers| && v != w ensures WorkerOk(setup, s.gate.sessions, s.conns[k := d], s.workers[v]) {
      OtherWorkersUnmoved(setup, s, w, k, d, v);
    }
    HoldAfterClientMove(s.srv, s.conns[k], d);
    forall l | 0 <= l < |s.conns| && l != k ensures Apart(d, s.conns[l]) && Apart(s.conns[l], d) {
      assert Apart(s.conns[k], s.conns[l]) && Apart(s.conns[l], s.conns[k]);
    }
    DutiesKept(s.gate, s.workers, w, s.workers[w].(pc := pc));
  }

  lemma HearingMove(setup: Setup, gens: seq<G.GenItem>, c: Conn)
    requires ConnOk(setup, c) && Hearable(c) && VerdictsOk(setup, gens, c)
    ensures ConnOk(setup, Hearing(c)) && VerdictsOk(setup, gens, Hearing(c)) && Hearing(c).heard <= |c.responses|
  {
    var d := Hearing(c);
    AnswersBound(d.toClient, d.responses, d.heard);
    forall p | 0 <= p < |d.toServer| ensures VerdictOk(setup, gens, d, d.toServer[p]) {
      assert VerdictOk(setup, gens, c, c.toServer[p]);
    }
  }

  lemma HearKeeps(setup: Setup, s: State, ev: Event)
    requires Inv(setup, s) && ev.Hear?
    ensures Inv(setup, Step(setup, s, ev))
  {
    hide RI.Inv, GI.Inv, DutiesOk, LinkOk, RecordsOk;
    if Usable(s, ev.w) && s.workers[ev.w].pc.Asked? {
      var k := s.workers[ev.w].conn.value;
      var c, pc := s.conns[k], s.workers[ev.w].pc;
      assert WorkerOk(setup, s.gate.sessions, s.conns, s.workers[ev.w]) && ConnOk(setup, c);
      if ev.ok && Hearable(c) {
        var d := Hearing(c);
        HearingMove(setup, s.gate.gens, c);
        ClientMoveKeeps(setup, s, ev.w, k, d,
                        Checking(pc.id, pc.nonce, true, c.toClient[0].key, c.toClient[0].body.value));
      } else {
        SetPcKeeps(setup, s, ev.w, s.workers[ev.w].(pc := Checking(pc.id, pc.nonce, false, Key(0), Report(0))));
      }
    }
  }

  lemma SendRequestKeeps(setup: Setup, s: State, ev: Event)
    requires Inv(setup, s) && ev.SendRequest?
    ensures Inv(setup, Step(setup, s, ev))
  {
    hide RI.Inv, GI.Inv, DutiesOk, LinkOk, RecordsOk;
    if Usable(s, ev.w) && Working(s, ev.w) && s.workers[ev.w].pc.Started? {
      var k, id := s.workers[ev.w].conn.value, s.workers[ev.w].pc.id;
      var c := s.conns[k];
      var failed := Checking(id, ev.nonce, false, Key(0), Report(0));
      assert WorkerOk(setup, s.gate.sessions, s.conns, s.workers[ev.w]) && ConnOk(setup, c);
      if ev.sent {
        var d := Sending(setup, c, Ask(s.gate.sessions[id].lookupKey, ev.nonce), ev.report);
        SendingKeeps(setup, c, Ask(s.gate.sessions[id].lookupKey, ev.nonce), ev.report);
        assert VerdictsOk(setup, s.gate.gens, c);
        forall p | 0 <= p < |d.toServer| ensures VerdictOk(setup, s.gate.gens, d, d.toServer[p]) {
          assert p < |c.toServer| ==> VerdictOk(setup, s.gate.gens, c, c.toServer[p]);
        }
        ClientMoveKeeps(setup, s, ev.w, k, d,
                        if setup.cfg.mutual && ev.report.None? then failed else Asked(id, ev.nonce));
      } else {
        SetPcKeeps(setup, s, ev.w, s.workers[ev.w].(pc := failed));
      }
    }
  }

  lemma NewConnOk(setup: Setup, srv: R.State, gens: seq<G.GenItem>)
    ensures ConnOk(setup, NEW_CONN) && HoldOk(srv, NEW_CONN) && VerdictsOk(setup, gens, NEW_CONN)
  {
  }

  lemma ConnectKeeps(setup: Setup, s: State, w: nat, pc: WorkerPc)
    requires Inv(setup, s) && w < |s.workers| && SameDuty(s.workers[w].pc, pc)
    requires WorkerOk(setup, s.gate.sessions, s.conns + [NEW_CONN], Worker(Some(|s.conns|), pc))
    ensures Inv(setup, SetPc(Connected(s, w), w, pc))
  {
    NewConnOk(setup, s.srv, s.gate.gens);
    var t := SetPc(Connected(s, w), w, pc);
    var x := Worker(Some(|s.conns|), pc);
    assert t.workers == s.workers[w := x];
    forall v | 0 <= v < |s.workers| ensures WorkerOk(setup, s.gate.sessions, t.conns, s.workers[v]) {
      assert WorkerOk(setup, s.gate.sessions, s.conns, s.workers[v]);
    }
    forall v | 0 <= v < |s.workers| && v != w ensures s.workers[v].conn != x.conn {
      assert WorkerOk(setup, s.gate.sessions, s.conns, s.workers[v]);
    }
    DutiesKept(s.gate, s.workers, w, x);
    forall k, l | 0 <= k < |t.conns| && 0 <= l < |t.conns| && k != l ensures Apart(t.conns[k], t.conns[l]) {
    }
  }

  /** A worker writes its own session, or the decision queue, on behalf of its session. */
  lemma GateWriteKeeps(setup: Setup, s: State, w: nat, gate: G.State, x: Worker)
    requires Inv(setup, s) && w < |s.workers| && !s.workers[w].pc.Free? && SameDuty(s.workers[w].pc, x.pc)
    requires x.conn == s.workers[w].conn || x.conn.None?
    requires GI.Inv(setup.cfg, gate) && LinkOk(setup, gate)
    requires gate.gens == s.gate.gens && gate.jobs == s.gate.jobs && |gate.sessions| == |s.gate.sessions|
    requires forall id | 0 <= id < |gate.sessions| && id != s.workers[w].pc.id ::
               gate.sessions[id] == s.gate.sessions[id]
    requires gate.decisions == s.gate.decisions || gate.decisions == s.gate.decisions + [s.workers[w].pc.id]
    requires WorkerOk(setup, gate.sessions, s.conns, x) && !Early(x.pc)
    ensures Inv(setup, SetWorker(s.(gate := gate), w, x))
  {
    hide RI.Inv, GI.Inv, RecordsOk, ConnOk, HoldOk, VerdictsOk;
    var id := s.workers[w].pc.id;
    assert WorkerOk(setup, s.gate.sessions, s.conns, s.workers[w]);
    forall v | 0 <= v < |s.workers| && v != w ensures WorkerOk(setup, gate.sessions, s.conns, s.workers[v]) {
      assert WorkerOk(setup, s.gate.sessions, s.conns, s.workers[v]);
    }
    DutiesKept(s.gate, s.workers, w, x);
    var workers := s.workers[w := x];
    forall j | 0 <= j < |gate.jobs| ensures Untried(gate, gate.jobs[j]) {
      assert Untried(s.gate, s.gate.jobs[j]) && s.gate.jobs[j] in s.gate.jobs;
    }
    forall v | 0 <= v < |workers| && Early(workers[v].pc) ensures Untried(gate, workers[v].pc.id) {
      assert v != w && Untried(s.gate, s.workers[v].pc.id) && s.workers[v].pc.id != id;
    }
  }

  /** A report is checked. */
  lemma ReportCheckedKeeps(setup: Setup, s: State, w: nat, pc: WorkerPc)
    requires Inv(setup, s) && Working(s, w) && pc == s.workers[w].pc && pc.Checking?
    requires pc.full && s.gate.sessions[pc.id].hasServerHello
    ensures var key := ClientKeyFor(setup, s.gate.sessions[pc.id].lookupKey, pc.nonce);
            var gate := G.Step(setup.cfg, s.gate, G.Checked(pc.id, pc.key, key, pc.report, setup.cfg.mutual));
            Inv(setup, SetPc(s.(gate := gate), w, Checked(pc.id, pc.nonce, true, pc.key)))
  {
    hide RI.Inv, RecordsOk;
    var key := ClientKeyFor(setup, s.gate.sessions[pc.id].lookupKey, pc.nonce);
    var gev := G.Checked(pc.id, pc.key, key, pc.report, setup.cfg.mutual);
    assert WorkerOk(setup, s.gate.sessions, s.conns, s.workers[w]) && Untried(s.gate, pc.id);
    GI.StepKeeps(setup.cfg, s.gate, gev);
    GateWriteKeeps(setup, s, w, G.Step(setup.cfg, s.gate, gev),
                   s.workers[w].(pc := Checked(pc.id, pc.nonce, true, pc.key)));
  }

  lemma CheckKeeps(setup: Setup, s: State, ev: Event)
    requires Inv(setup, s) && ev.Check?
    ensures Inv(setup, Step(setup, s, ev))
  {
    hide RI.Inv, GI.Inv, RecordsOk, G.Step;
    if Working(s, ev.w) && s.workers[ev.w].pc.Checking? {
      var pc := s.workers[ev.w].pc;
      var x := s.gate.sessions[pc.id];
      assert WorkerOk(setup, s.gate.sessions, s.conns, s.workers[ev.w]);
      if pc.full && x.hasServerHello {
        ReportCheckedKeeps(setup, s, ev.w, pc);
      } else if !pc.full || ev.timedOut {
        SetPcKeeps(setup, s, ev.w, s.workers[ev.w].(pc := Checked(pc.id, pc.nonce, pc.full, pc.key)));
      }
    }
  }

  lemma GiveUpKeeps(setup: Setup, s: State, w: nat, pc: WorkerPc)
    requires Inv(setup, s) && Working(s, w) && pc.Reporting? && pc.id == s.workers[w].pc.id
    requires WorkerOk(setup, s.gate.sessions, s.conns, s.workers[w].(pc := pc))
    ensures Inv(setup, SetPc(s.(gate := G.Step(setup.cfg, s.gate, G.GaveUp(pc.id))), w, pc))
  {
    GI.StepKeeps(setup.cfg, s.gate, G.GaveUp(pc.id));
    GateWriteKeeps(setup, s, w, G.Step(setup.cfg, s.gate, G.GaveUp(pc.id)), s.workers[w].(pc := pc));
  }

  lemma EnqueueKeeps(setup: Setup, s: State, ev: Event)
    requires Inv(setup, s) && ev.Enqueue?
    ensures Inv(setup, Step(setup, s, ev))
  {
    hide RI.Inv, GI.Inv, RecordsOk, ConnOk, HoldOk, VerdictsOk;
    InvShaped(setup, s);
    if Working(s, ev.w) && s.workers[ev.w].pc.Checked? {
      var pc := s.workers[ev.w].pc;
      assert WorkerOk(setup, s.gate.sessions, s.conns, s.workers[ev.w]);
      if |s.gate.decisions| < G.QUEUE_CAPACITY {
        GI.StepKeeps(setup.cfg, s.gate, G.Queued(pc.id));
        GateWriteKeeps(setup, s, ev.w, G.Step(setup.cfg, s.gate, G.Queued(pc.id)),
                       s.workers[ev.w].(pc := Deciding(pc.id, pc.nonce, pc.full, pc.key)));
      } else {
        GiveUpKeeps(setup, s, ev.w, Reporting(pc.id, pc.nonce, pc.full, pc.key));
      }
    }
  }

  lemma FinishKeeps(setup: Setup, s: State, w: nat, x: Worker)
    requires Inv(setup, s) && Working(s, w) && x.pc.Free? && (x.conn == s.workers[w].conn || x.conn.None?)
    requires WorkerOk(setup, s.gate.sessions, s.conns, x)
    ensures Inv(setup, SetWorker(s.(gate := G.Step(setup.cfg, s.gate, G.Finished(s.workers[w].pc.id))), w, x))
  {
    var id := s.workers[w].pc.id;
    GI.StepKeeps(setup.cfg, s.gate, G.Finished(id));
    GateWriteKeeps(setup, s, w, G.Step(setup.cfg, s.gate, G.Finished(id)), x);
  }

  lemma AwaitGateKeeps(setup: Setup, s: State, ev: Event)
    requires Inv(setup, s) && ev.AwaitGate?
    ensures Inv(setup, Step(setup, s, ev))
  {
    hide RI.Inv, GI.Inv, LinkOk, RecordsOk, G.Step, DutiesOk, ConnOk, HoldOk, VerdictsOk;
    if Working(s, ev.w) && s.workers[ev.w].pc.Deciding? {
      var pc := s.workers[ev.w].pc;
      var next := Reporting(pc.id, pc.nonce, pc.full, pc.key);
      assert WorkerOk(setup, s.gate.sessions, s.conns, s.workers[ev.w]);
      if s.gate.sessions[pc.id].decisionApplied {
        SetPcKeeps(setup, s, ev.w, s.workers[ev.w].(pc := next));
      } else if ev.timedOut {
        GiveUpKeeps(setup, s, ev.w, next);
      }
    } else if Working(s, ev.w) && s.workers[ev.w].pc.Aborting? {
      assert WorkerOk(setup, s.gate.sessions, s.conns, s.workers[ev.w]);
      FinishKeeps(setup, s, ev.w, s.workers[ev.w].(pc := Free));
    }
  }

  /** The oldest job goes to a free worker. */
  lemma TakeJobKeeps(setup: Setup, s: State, w: nat, pc: WorkerPc)
    requires Inv(setup, s) && w < |s.workers| && s.workers[w].pc.Free? && s.gate.jobs != []
    requires (pc.Started? || pc.Aborting?) && pc.id == s.gate.jobs[0]
    requires WorkerOk(setup, s.gate.sessions, s.conns, s.workers[w].(pc := pc))
    ensures Inv(setup, SetPc(s.(gate := G.Step(setup.cfg, s.gate, G.TookJob)), w, pc))
  {
    hide RI.Inv, GI.Inv, ConnOk, HoldOk, Apart, VerdictsOk, RecordsOk, GE.Certified;
    InvShaped(setup, s);
    GI.StepKeeps(setup.cfg, s.gate, G.TookJob);
    var gate := G.Step(setup.cfg, s.gate, G.TookJob);
    var workers := s.workers[w := s.workers[w].(pc := pc)];
    assert Untried(s.gate, s.gate.jobs[0]);
    forall j | 0 <= j < |gate.jobs| ensures Untried(gate, gate.jobs[j]) && gate.jobs[j] != pc.id {
      assert Untried(s.gate, s.gate.jobs[j + 1]) && s.gate.jobs[j + 1] != s.gate.jobs[0];
    }
    forall v | 0 <= v < |workers| && Early(workers[v].pc) ensures Untried(gate, workers[v].pc.id) {
      assert v != w ==> Untried(s.gate, s.workers[v].pc.id);
    }
    forall v | 0 <= v < |workers| && v != w && !workers[v].pc.Free?
      ensures workers[v].pc.id != pc.id && workers[v].pc.id !in gate.jobs
    {
      assert s.workers[v].pc.id !in s.gate.jobs;
    }
    assert DutiesOk(gate, workers);
  }

  lemma StartConnectedKeeps(setup: Setup, s: State, w: nat)
    requires Inv(setup, s) && w < |s.workers| && s.workers[w].pc.Free? && s.gate.jobs != []
    ensures Inv(setup,
                SetPc(Connected(s.(gate := G.Step(setup.cfg, s.gate, G.TookJob)), w), w, Started(s.gate.jobs[0])))
  {
    ConnectKeeps(setup, s, w, Free);
    var t := SetPc(Connected(s, w), w, Free);
    assert Untried(s.gate, s.gate.jobs[0]);
    TakeJobKeeps(setup, t, w, Started(s.gate.jobs[0]));
    var u := s.(gate := G.Step(setup.cfg, s.gate, G.TookJob));
    assert SetPc(Connected(u, w), w, Started(s.gate.jobs[0])).workers
        == SetPc(t.(gate := u.gate), w, Started(s.gate.jobs[0])).workers;
  }

  lemma StartAbortedKeeps(setup: Setup, s: State, w: nat)
    requires Inv(setup, s) && w < |s.workers| && s.workers[w].pc.Free? && s.workers[w].conn.None? && s.gate.jobs != []
    ensures var id := s.gate.jobs[0];
            var t := s.(gate := G.Step(setup.cfg, s.gate, G.TookJob));
            Inv(setup, SetPc(t.(gate := G.Step(setup.cfg, t.gate, G.Queued(id))), w, Aborting(id)))
  {
    hide RI.Inv, RecordsOk;
    var id := s.gate.jobs[0];
    assert Untried(s.gate, id);
    TakeJobKeeps(setup, s, w, Aborting(id));
    var took := s.(gate := G.Step(setup.cfg, s.gate, G.TookJob));
    var t := SetPc(took, w, Aborting(id));
    GI.StepKeeps(setup.cfg, t.gate, G.Queued(id));
    var gate := G.Step(setup.cfg, t.gate, G.Queued(id));
    GateWriteKeeps(setup, t, w, gate, t.workers[w]);
    assert SetPc(took.(gate := gate), w, Aborting(id)).workers == SetWorker(t.(gate := gate), w, t.workers[w]).workers;
  }

  lemma StartJobKeeps(setup: Setup, s: State, ev: Event)
    requires Inv(setup, s) && ev.StartJob?
    ensures Inv(setup, Step(setup, s, ev))
  {
    hide RI.Inv, LinkOk, RecordsOk;
    var w := ev.w;
    if w < |s.workers| && s.workers[w].pc.Free? && s.gate.jobs != [] {
      if s.workers[w].conn.Some? {
        assert Untried(s.gate, s.gate.jobs[0]) && WorkerOk(setup, s.gate.sessions, s.conns, s.workers[w]);
        TakeJobKeeps(setup, s, w, Started(s.gate.jobs[0]));
      } else if ev.connected {
        StartConnectedKeeps(setup, s, w);
      } else {
        StartAbortedKeeps(setup, s, w);
      }
    }
  }

  /** A worker's verdict is positive only for an admission on the response it heard. */
  lemma VerdictIsCertified(setup: Setup, s: State, w: nat)
    requires Inv(setup, s) && Usable(s, w) && Working(s, w) && s.workers[w].pc.Reporting? && s.workers[w].pc.full
    ensures var c, pc := s.conns[s.workers[w].conn.value], s.workers[w].pc;
            var x := s.gate.sessions[pc.id];
            && Heard(c, Ask(x.lookupKey, pc.nonce), pc.key)
            && VerdictOk(setup, s.gate.gens, c, Verdict(Ask(x.lookupKey, pc.nonce), x.gateAllowed, |c.asked| - 1))
  {
  }

  lemma VerdictSentKeeps(setup: Setup, s: State, w: nat)
    requires Inv(setup, s) && Usable(s, w) && Working(s, w) && s.workers[w].pc.Reporting? && s.workers[w].pc.full
    ensures var pc, k := s.workers[w].pc, s.workers[w].conn.value;
            var x := s.gate.sessions[pc.id];
            var done := s.(gate := G.Step(setup.cfg, s.gate, G.Finished(pc.id)));
            var d := ClientVerdict(s.conns[k], Ask(x.lookupKey, pc.nonce), x.gateAllowed);
            Inv(setup, SetPc(done.(conns := s.conns[k := d]), w, Free))
  {
    hide RI.Inv, GI.Inv, DutiesOk, LinkOk, RecordsOk;
    var pc, k := s.workers[w].pc, s.workers[w].conn.value;
    var c, x := s.conns[k], s.gate.sessions[pc.id];
    assert WorkerOk(setup, s.gate.sessions, s.conns, s.workers[w]) && ConnOk(setup, c)
           && VerdictsOk(setup, s.gate.gens, c);
    VerdictIsCertified(setup, s, w);
    ClientVerdictKeeps(setup, c, Ask(x.lookupKey, pc.nonce), x.gateAllowed);
    var d := ClientVerdict(c, Ask(x.lookupKey, pc.nonce), x.gateAllowed);
    forall p | 0 <= p < |d.toServer| ensures VerdictOk(setup, s.gate.gens, d, d.toServer[p]) {
      assert p < |c.toServer| ==> VerdictOk(setup, s.gate.gens, c, c.toServer[p]);
    }
    ClientMoveKeeps(setup, s, w, k, d, pc);
    var t := SetPc(s.(conns := s.conns[k := d]), w, pc);
    assert s.workers[w].(pc := pc) == s.workers[w] && t.workers == s.workers;
    FinishKeeps(setup, t, w, t.workers[w].(pc := Free));
  }

  lemma ReconnectedKeeps(setup: Setup, s: State, w: nat)
    requires Inv(setup, s) && Working(s, w)
    ensures var done := s.(gate := G.Step(setup.cfg, s.gate, G.Finished(s.workers[w].pc.id)));
            Inv(setup, SetWorker(done, w, Worker(None, Free))) && Inv(setup, SetPc(Connected(done, w), w, Free))
  {
    hide Inv, G.Step;
    InvShaped(setup, s);
    var done := s.(gate := G.Step(setup.cfg, s.gate, G.Finished(s.workers[w].pc.id)));
    FinishKeeps(setup, s, w, Worker(None, Free));
    var t := SetWorker(done, w, Worker(None, Free));
    ConnectKeeps(setup, t, w, Free);
    assert SetPc(Connected(t, w), w, Free).workers == SetPc(Connected(done, w), w, Free).workers;
  }

  lemma SendVerdictKeeps(setup: Setup, s: State, ev: Event)
    requires Inv(setup, s) && ev.SendVerdict?
    ensures Inv(setup, Step(setup, s, ev))
  {
    hide Inv;
    if Usable(s, ev.w) && Working(s, ev.w) && s.workers[ev.w].pc.Reporting? {
      if s.workers[ev.w].pc.full && ev.sent {
        VerdictSentKeeps(setup, s, ev.w);
      } else {
        ReconnectedKeeps(setup, s, ev.w);
      }
    }
  }

  /** Every step of the joined system keeps the invariant. */
  lemma StepKeeps(setup: Setup, s: State, ev: Event)
    requires Inv(setup, s) && Allowed(setup, s, ev)
    ensures Inv(setup, Step(setup, s, ev))
  {
    if ev.ServerEvent? {
      ServerEventKeeps(setup, s, ev);
    } else if ev.ClientEvent? {
      ClientEventKeeps(setup, s, ev);
    } else if ServerSide(ev) {
      ServerSideStepKeeps(setup, s, ev);
    } else {
      match ev
      case StartJob(_, _) => StartJobKeeps(setup, s, ev);
      case SendRequest(_, _, _, _) => SendRequestKeeps(setup, s, ev);
      case Hear(_, _) => HearKeeps(setup, s, ev);
      case Check(_, _) => CheckKeeps(setup, s, ev);
      case Enqueue(_) => EnqueueKeeps(setup, s, ev);
      case AwaitGate(_, _) => AwaitGateKeeps(setup, s, ev);
      case SendVerdict(_, _, _) => SendVerdictKeeps(setup, s, ev);
    }
  }

  // ----- runs -----

  function After(setup: Setup, workers: nat, evs: seq<Event>): (s: State) {
    if evs == [] then Init(workers)
    else
      var s := After(setup, workers, evs[..|evs| - 1]);
      if Shaped(s) then Step(setup, s, evs[|evs| - 1]) else s
  }

  ghost predicate IsRun(setup: Setup, workers: nat, evs: seq<Event>) {
    forall k | 0 <= k < |evs| ::
      var s := After(setup, workers, evs[..k]); Shaped(s) ==> Allowed(setup, s, evs[k])
  }

  lemma {:induction false} ReachableOk(setup: Setup, workers: nat, evs: seq<Event>, n: nat)
    requires IsRun(setup, workers, evs) && n <= |evs|
    ensures Inv(setup, After(setup, workers, evs[..n]))
  {
    hide Inv, Step, Allowed;
    if n == 0 {
      InitOk(setup, workers);
    } else {
      ReachableOk(setup, workers, evs, n - 1);
      InvShaped(setup, After(setup, workers, evs[..n - 1]));
      assert evs[..n][..n - 1] == evs[..n - 1];
      StepKeeps(setup, After(setup, workers, evs[..n - 1]), evs[n - 1]);
    }
  }

  /** Two different ServerHello keys from which the two sides derive one and the same attested key. */
  predicate Collide(setup: Setup, x: G.GenItem, e: R.Entry)
    requires x.Admit?
  {
    && setup.env.mutual && x.reportKey != e.reportKey
    && setup.cfg.serverReportKey(x.reportKey, x.clientKey)
       == setup.env.serverReportKey(e.reportKey, setup.env.clientReportKey(e.lookupKey, e.nonce))
  }

  /** End-to-end agreement. In every run, a session the server recorded as admitted was admitted by
      the client's gate, earlier in the same run, for the record's lookup key, on a verified report,
      with a ServerHello key in the gate equal to the report key the server had joined with that
      lookup key; in mutual mode, unless the run exhibits a collision of the key derivations. */
  lemma AdmittedRecordsAgree(setup: Setup, workers: nat, evs: seq<Event>, r: nat)
    requires IsRun(setup, workers, evs)
    requires r < |After(setup, workers, evs).srv.records| && After(setup, workers, evs).srv.records[r].admitted
    ensures var s := After(setup, workers, evs);
            var e := s.srv.records[r].entry;
            exists k :: 0 <= k < |s.gate.gens| && s.gate.gens[k].Admit?
                        && s.gate.gens[k].lookupKey == e.lookupKey
                        && (s.gate.gens[k].reportKey == e.reportKey || Collide(setup, s.gate.gens[k], e))
                        && GI.AdmitSound(setup.cfg, s.gate.gens[k])
  {
    hide After, ConnOk, HoldOk, Apart, VerdictsOk, WorkerOk, DutiesOk, LinkOk;
    assert evs[..|evs|] == evs;
    ReachableOk(setup, workers, evs, |evs|);
    var s := After(setup, workers, evs);
    var e := s.srv.records[r].entry;
    assert RecordOk(setup, s.gate.gens, s.srv.records[r]);
    var k :| 0 <= k < |s.gate.gens| && s.gate.gens[k].Admit? && s.gate.gens[k].lookupKey == e.lookupKey
             && G.Expected(setup.cfg, s.gate.gens[k].reportKey, s.gate.gens[k].clientKey) == R.Attest(setup.env, e);
    assert GI.AdmitSound(setup.cfg, s.gate.gens[k]);
  }

  /** Where the record's key collides with that of no admission, the two keys are equal in mutual mode
      too. */
  lemma AdmittedKeysEqual(setup: Setup, workers: nat, evs: seq<Event>, r: nat)
    requires IsRun(setup, workers, evs)
    requires r < |After(setup, workers, evs).srv.records| && After(setup, workers, evs).srv.records[r].admitted
    requires var s := After(setup, workers, evs);
             forall x | x in s.gate.gens && x.Admit? :: !Collide(setup, x, s.srv.records[r].entry)
    ensures var s := After(setup, workers, evs);
            exists k :: 0 <= k < |s.gate.gens| && s.gate.gens[k].Admit?
                        && s.gate.gens[k].lookupKey == s.srv.records[r].entry.lookupKey
                        && s.gate.gens[k].reportKey == s.srv.records[r].entry.reportKey
                        && GI.AdmitSound(setup.cfg, s.gate.gens[k])
  {
    AdmittedRecordsAgree(setup, workers, evs, r);
  }

  predicate AboutToHear(s: State, w: nat) {
    Usable(s, w) && s.workers[w].pc.Asked? && Hearable(s.conns[s.workers[w].conn.value])
  }

  /** The response at the head of worker w's connection answers the request it sent last: a report
      delivered for its own lookup key and nonce, sound under the attested key. */
  predicate HeadAnswersLast(setup: Setup, s: State, w: nat)
    requires AboutToHear(s, w)
  {
    var c, pc := s.conns[s.workers[w].conn.value], s.workers[w].pc;
    && pc.id < |s.gate.sessions| && c.asked != [] && |c.responses| == |c.asked|
    && var last := c.responses[|c.responses| - 1];
       && last.ask == c.asked[|c.asked| - 1] == Ask(s.gate.sessions[pc.id].lookupKey, pc.nonce)
       && AnswerSound(setup.env, last)
       && c.toClient[0].key == last.snapshot.attestKey && c.toClient[0].body == Some(last.snapshot.report)
  }

  lemma LockStep(setup: Setup, s: State, w: nat)
    requires Inv(setup, s) && AboutToHear(s, w)
    ensures HeadAnswersLast(setup, s, w)
  {
    var c := s.conns[s.workers[w].conn.value];
    assert WorkerOk(setup, s.gate.sessions, s.conns, s.workers[w]) && ConnOk(setup, c);
    StreamBound(setup.cfg.mutual, c.toServer, c.asked, c.taken);
  }

  /** Control lock-step. In every run, over any sequence of jobs, failures, refusals and
      reconnections, a full response a worker accepts answers the request it sent last on that
      connection, and the server has by then answered everything it was asked. */
  lemma ResponseAnswersLastRequest(setup: Setup, workers: nat, evs: seq<Event>, w: nat)
    requires IsRun(setup, workers, evs) && AboutToHear(After(setup, workers, evs), w)
    ensures HeadAnswersLast(setup, After(setup, workers, evs), w)
  {
    assert evs[..|evs|] == evs;
    ReachableOk(setup, workers, evs, |evs|);
    LockStep(setup, After(setup, workers, evs), w);
  }
}
