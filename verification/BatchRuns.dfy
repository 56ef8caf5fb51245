/** One batch client and the server, over whole runs: each request uses its own connection, either
    side may fail at any point, and the server may finish what the client has abandoned. */
module BatchRuns {
  import opened Basics
  import opened Batch
  import opened BatchServer

  /** What is under way on the client's connection. */
  datatype Wire =
    | Quiet
    | Asked(q: Request)
    | Greeted(greeting: Reply)
    | Attested(number: int, report: Report)
    | Answered(answer: Reply)

  /** `handler` holds the locals of the mutual server while it waits for the client's report. */
  datatype State = State(server: Server, client: Client, wire: Wire, handler: Option<(Request, string)>)

  datatype Event =
    | Ask(rows: set<Id>, challenge: string)
    | GiveUp
    | CheckStop(rows: set<Id>, late: bool)
    | ServeRequest(readable: bool, o: Oracle)
    | ServeReport(readable: bool, o: Oracle)
    | ReadChallenge(report: Option<Report>)
    | ReadAnswer(filesWritten: bool)

  const START_CLIENT := Client(Idle, 0, {}, [])
  const START_STATE := State(START, START_CLIENT, Quiet, None)

  function AskStep(env: Env, s: State, rows: set<Id>, challenge: string): State {
    if !s.client.phase.Idle? then s
    else
      var r := Batch.Ask(env, s.client, rows, challenge);
      s.(client := r.0, wire := if r.1.Some? then Asked(r.1.value) else s.wire)
  }

  function RequestStep(env: Env, s: State, readable: bool, o: Oracle): State {
    if !s.wire.Asked? || !s.server.alive || s.handler.Some? then s
    else
      var q := if readable then Some(s.wire.q) else None;
      if !env.mutual then
        var r := Serve(env, s.server, q, o);
        s.(server := r.0, wire := Answered(r.1))
      else
        var r := Greet(env, s.server, q, o);
        s.(server := r.0, wire := Greeted(r.1),
           handler := if r.1.Challenge? then Some((s.wire.q, r.1.nonce)) else None)
  }

  function ReportStep(env: Env, s: State, readable: bool, o: Oracle): State {
    if s.handler.None? || !s.server.alive then s
    else
      var got := if readable && s.wire.Attested? then Some((s.wire.number, s.wire.report)) else None;
      var r := Conclude(env, s.server, s.handler.value.0, s.handler.value.1, got, o);
      s.(server := r.0, wire := Answered(r.1), handler := None)
  }

  function ChallengeStep(env: Env, s: State, report: Option<Report>): State {
    if !env.mutual || !s.wire.Greeted? || !s.client.phase.Waiting? then s
    else
      var r := Attest(env, s.client, s.wire.greeting, report);
      s.(client := r.0, wire := if r.1.Some? then Attested(r.1.value.0, r.1.value.1) else Quiet)
  }

  function AnswerStep(env: Env, s: State, filesWritten: bool): State {
    if !s.wire.Answered? || !(if env.mutual then s.client.phase.Attesting? else s.client.phase.Waiting?) then s
    else s.(client := Settle(env, s.client, s.wire.answer, filesWritten), wire := Quiet)
  }

  function GiveUpStep(s: State): State {
    if s.client.phase.Exited? then s else s.(client := Raise(s.client))
  }

  function StopStep(env: Env, s: State, rows: set<Id>, late: bool): State {
    if s.client.phase.Idle? then s.(client := StopCheck(env, s.client, rows, late)) else s
  }

  function Step(env: Env, s: State, ev: Event): State {
    match ev
    case Ask(rows, challenge) => AskStep(env, s, rows, challenge)
    case GiveUp => GiveUpStep(s)
    case CheckStop(rows, late) => StopStep(env, s, rows, late)
    case ServeRequest(readable, o) => RequestStep(env, s, readable, o)
    case ServeReport(readable, o) => ReportStep(env, s, readable, o)
    case ReadChallenge(report) => ChallengeStep(env, s, report)
    case ReadAnswer(filesWritten) => AnswerStep(env, s, filesWritten)
  }

  function After(env: Env, run: seq<Event>): State {
    if run == [] then START_STATE else Step(env, After(env, run[..|run| - 1]), run[|run| - 1])
  }

  // ----- the invariant -----

  /** The client's books: its k-th request is number k, verified in order, covering ASSIGNED. */
  ghost predicate ClientOk(env: Env, c: Client) {
    && c.number == |c.verified| + (if Outstanding(c).Some? then 1 else 0)
    && (forall i | 0 <= i < |c.verified| ::
          c.verified[i].request.number == i + 1 && env.verify(c.verified[i].digest, c.verified[i].report))
    && c.assignedIds == Covered(c.verified)
    && match Outstanding(c)
       case None => true
       case Some(q) => q.number == c.number && Elements(q.ids) !! c.assignedIds
  }

  /** The server is at most one manifest ahead, and that one is the client's outstanding request. */
  ghost predicate InStep(c: Client, accepted: seq<Manifest>) {
    && c.verified <= accepted && |accepted| <= |c.verified| + 1
    && (|accepted| > |c.verified| ==> Outstanding(c) == Some(accepted[|c.verified|].request))
  }

  /** The outstanding request has not been accepted yet. */
  ghost predicate Open(c: Client, accepted: seq<Manifest>, q: Request) {
    Outstanding(c) == Some(q) && |accepted| == |c.verified|
  }

  /** What the mutual client has committed to agrees with what the other side holds. */
  ghost predicate Committed(c: Client, nonce: string, report: Report) {
    c.phase.Attesting? ==> c.phase.nonce == nonce && c.phase.clientReport == report
  }

  ghost predicate WireOk(env: Env, s: State) {
    match s.wire
    case Quiet => !s.client.phase.Waiting? && !s.client.phase.Attesting?
    case Asked(q) => Open(s.client, s.server.accepted, q) && s.handler.None? && !s.client.phase.Attesting?
    case Greeted(r) =>
      && Outstanding(s.client).Some? && Open(s.client, s.server.accepted, Outstanding(s.client).value)
      && !s.client.phase.Attesting? && env.mutual
      && (if r.Challenge? then s.handler == Some((Outstanding(s.client).value, r.nonce)) else s.handler.None?)
    case Attested(n, report) =>
      && s.handler.Some? && n == s.handler.value.0.number && Committed(s.client, s.handler.value.1, report)
    case Answered(r) =>
      && s.handler.None?
      && (r.Granted? ==>
            && |s.server.accepted| == |s.client.verified| + 1
            && var m := s.server.accepted[|s.client.verified|];
               && r == Grant(env, m)
               && (if env.mutual then Committed(s.client, m.nonce, m.clientReport)
                   else m.nonce == "" && m.clientReport == Report(0)))
  }

  ghost predicate HandlerOk(env: Env, s: State) {
    match s.handler
    case None => true
    case Some(h) => env.mutual && Open(s.client, s.server.accepted, h.0) && Fresh(env, s.server, h.0)
  }

  ghost predicate ExitOk(env: Env, s: State) {
    match s.client.phase
    case Exited(rows) => rows <= s.client.assignedIds && (!env.mutual && env.expected > 0 ==> env.expected <= |rows|)
    case _ => true
  }

  ghost predicate Inv(env: Env, s: State) {
    && BatchServer.Inv(env, s.server) && ClientOk(env, s.client) && InStep(s.client, s.server.accepted)
    && WireOk(env, s) && HandlerOk(env, s) && ExitOk(env, s)
  }

  /** Every number SEEN has is one that was accepted, so the next one is new. */
  lemma NextIsNew(env: Env, s: State, q: Request)
    requires BatchServer.Inv(env, s.server) && ClientOk(env, s.client) && InStep(s.client, s.server.accepted)
    requires Open(s.client, s.server.accepted, q)
    ensures q.number !in s.server.seen
    ensures s.server.assignedIds == s.client.assignedIds
  {
    assert s.client.verified == s.server.accepted;
  }

  lemma AskKeeps(env: Env, s: State, rows: set<Id>, challenge: string)
    requires Inv(env, s)
    ensures Inv(env, AskStep(env, s, rows, challenge))
  {
  }

  lemma AcceptReply(env: Env, s: Server, m: Manifest, o: Oracle)
    ensures var (t, r) := Accept(env, s, m, o); t.accepted == s.accepted + [m] && (r == Refused || r == Grant(env, m))
  {
  }

  /** A request whose number is new is refused unless it is accepted. */
  lemma ServeNew(env: Env, s: Server, q: Option<Request>, o: Oracle)
    requires !env.mutual && (q.Some? ==> q.value.number !in s.seen)
    ensures match Served(env, s, q, o)
            case None => SameBooks(s, Serve(env, s, q, o).0) && Serve(env, s, q, o).1 == Refused
            case Some(m) =>
              Serve(env, s, q, o) == Accept(env, s, m, o) && ManifestOk(env, m) && Fresh(env, s, m.request)
  {
  }

  /** Accepting the outstanding request puts the server one manifest ahead. */
  lemma OneAhead(c: Client, accepted: seq<Manifest>, m: Manifest)
    requires InStep(c, accepted) && Open(c, accepted, m.request)
    ensures InStep(c, accepted + [m]) && (accepted + [m])[|c.verified|] == m
  {
  }

  /** A reply goes out: nothing was accepted and it is a refusal, or `m` was. */
  lemma RepliedKeeps(env: Env, s: State, server: Server, r: Reply, m: Option<Manifest>)
    requires Inv(env, s) && BatchServer.Inv(env, server) && Outstanding(s.client).Some?
    requires Open(s.client, s.server.accepted, Outstanding(s.client).value)
    requires match m
             case None => server.accepted == s.server.accepted && r == Refused
             case Some(x) =>
               && server.accepted == s.server.accepted + [x] && x.request == Outstanding(s.client).value
               && (r == Refused || r == Grant(env, x))
               && (if env.mutual then Committed(s.client, x.nonce, x.clientReport)
                   else x.nonce == "" && x.clientReport == Report(0))
    ensures Inv(env, s.(server := server, wire := Answered(r), handler := None))
  {
    if m.Some? {
      OneAhead(s.client, s.server.accepted, m.value);
    }
  }

  lemma OneWayKeeps(env: Env, s: State, readable: bool, o: Oracle)
    requires Inv(env, s) && s.wire.Asked? && s.server.alive && !env.mutual
    ensures Inv(env, RequestStep(env, s, readable, o))
  {
    NextIsNew(env, s, s.wire.q);
    var q := if readable then Some(s.wire.q) else None;
    ServeNew(env, s.server, q, o);
    var m := Served(env, s.server, q, o);
    if m.Some? {
      AcceptKeeps(env, s.server, m.value, o);
      AcceptReply(env, s.server, m.value, o);
    }
    var r := Serve(env, s.server, q, o);
    RepliedKeeps(env, s, r.0, r.1, m);
    assert RequestStep(env, s, readable, o) == s.(server := r.0, wire := Answered(r.1), handler := None);
  }

  lemma GreetKeeps(env: Env, s: State, readable: bool, o: Oracle)
    requires Inv(env, s) && s.wire.Asked? && s.server.alive && env.mutual
    ensures Inv(env, RequestStep(env, s, readable, o))
  {
  }

  lemma RequestKeeps(env: Env, s: State, readable: bool, o: Oracle)
    requires Inv(env, s)
    ensures Inv(env, RequestStep(env, s, readable, o))
  {
    if s.wire.Asked? && s.server.alive {
      if env.mutual {
        GreetKeeps(env, s, readable, o);
      } else {
        OneWayKeeps(env, s, readable, o);
      }
    }
  }

  lemma ConcludeCases(env: Env, s: Server, q: Request, nonce: string, got: Option<(int, Report)>, o: Oracle)
    requires env.mutual && WellFormed(env, q)
    ensures var (t, r) := Conclude(env, s, q, nonce, got, o);
            match Vouched(env, q, nonce, got, o)
            case None => SameBooks(s, t) && r == Refused
            case Some(m) =>
              && (t, r) == Accept(env, s, m, o) && t.accepted == s.accepted + [m] && ManifestOk(env, m)
              && (r == Refused || r == Grant(env, m))
  {
  }

  lemma ReportKeeps(env: Env, s: State, readable: bool, o: Oracle)
    requires Inv(env, s)
    ensures Inv(env, ReportStep(env, s, readable, o))
  {
    if s.handler.Some? && s.server.alive {
      var (q, nonce) := s.handler.value;
      var got := if readable && s.wire.Attested? then Some((s.wire.number, s.wire.report)) else None;
      ConcludeCases(env, s.server, q, nonce, got, o);
      var v := Vouched(env, q, nonce, got, o);
      if v.Some? {
        AcceptKeeps(env, s.server, v.value, o);
      }
      var r := Conclude(env, s.server, q, nonce, got, o);
      RepliedKeeps(env, s, r.0, r.1, v);
    }
  }

  lemma ChallengeKeeps(env: Env, s: State, report: Option<Report>)
    requires Inv(env, s)
    ensures Inv(env, ChallengeStep(env, s, report))
  {
    hide BatchServer.Inv, WellFormed;
  }

  /** What the client verifies is the very manifest the server accepted last. */
  lemma SettledIsAccepted(env: Env, s: State, filesWritten: bool)
    requires Inv(env, s) && s.wire.Answered?
    requires if env.mutual then s.client.phase.Attesting? else s.client.phase.Waiting?
    ensures var c, t := s.client, Settle(env, s.client, s.wire.answer, filesWritten);
            || t == Raise(c)
            || (|s.server.accepted| == |c.verified| + 1
                && var m := s.server.accepted[|c.verified|];
                   && t == Client(Idle, c.number, c.assignedIds + Elements(m.request.ids), c.verified + [m])
                   && env.verify(m.digest, m.report))
  {
  }

  lemma VerifiedNext(env: Env, c: Client, m: Manifest)
    requires ClientOk(env, c) && Outstanding(c) == Some(m.request) && env.verify(m.digest, m.report)
    ensures ClientOk(env, Client(Idle, c.number, c.assignedIds + Elements(m.request.ids), c.verified + [m]))
  {
  }

  lemma AnswerKeeps(env: Env, s: State, filesWritten: bool)
    requires Inv(env, s)
    ensures Inv(env, AnswerStep(env, s, filesWritten))
  {
    if s.wire.Answered? && if env.mutual then s.client.phase.Attesting? else s.client.phase.Waiting? {
      SettledIsAccepted(env, s, filesWritten);
      var c, t := s.client, AnswerStep(env, s, filesWritten);
      if t.client != Raise(c) {
        VerifiedNext(env, c, s.server.accepted[|c.verified|]);
        assert t.client.verified == s.server.accepted;
      }
    }
  }

  lemma GiveUpKeeps(env: Env, s: State)
    requires Inv(env, s)
    ensures Inv(env, GiveUpStep(s))
  {
  }

  lemma StopKeeps(env: Env, s: State, rows: set<Id>, late: bool)
    requires Inv(env, s)
    ensures Inv(env, StopStep(env, s, rows, late))
  {
    hide BatchServer.Inv, WellFormed;
  }

  lemma StepKeeps(env: Env, s: State, ev: Event)
    requires Inv(env, s)
    ensures Inv(env, Step(env, s, ev))
  {
    hide Inv, AskStep, GiveUpStep, StopStep, RequestStep, ReportStep, ChallengeStep, AnswerStep;
    match ev
    case Ask(rows, challenge) => AskKeeps(env, s, rows, challenge);
    case GiveUp => GiveUpKeeps(env, s);
    case CheckStop(rows, late) => StopKeeps(env, s, rows, late);
    case ServeRequest(readable, o) =>
      RequestKeeps(env, s, readable, o);
    case ServeReport(readable, o) => ReportKeeps(env, s, readable, o);
    case ReadChallenge(report) => ChallengeKeeps(env, s, report);
    case ReadAnswer(filesWritten) => AnswerKeeps(env, s, filesWritten);
  }

  lemma {:induction false} ReachableOk(env: Env, run: seq<Event>)
    ensures Inv(env, After(env, run))
  {
    if run != [] {
      ReachableOk(env, run[..|run| - 1]);
      StepKeeps(env, After(env, run[..|run| - 1]), run[|run| - 1]);
    }
  }

  // ----- the results -----

  lemma Agree(c: Client, accepted: seq<Manifest>)
    requires InStep(c, accepted) && c.assignedIds == Covered(c.verified)
    ensures if c.verified == accepted then c.assignedIds == Covered(accepted)
            else Outstanding(c).Some? && Covered(accepted) == c.assignedIds + Elements(Outstanding(c).value.ids)
  {
  }

  /** Over every run the server's ASSIGNED is the client's plus the ids of the one outstanding
      request, if that was accepted; the two parts are disjoint. */
  lemma AssignmentsAgree(env: Env, run: seq<Event>)
    ensures var (server, client) := (After(env, run).server, After(env, run).client);
            && client.verified <= server.accepted
            && (server.assignedIds == client.assignedIds
                || (Outstanding(client).Some?
                    && client.assignedIds !! Elements(Outstanding(client).value.ids)
                    && server.assignedIds == client.assignedIds + Elements(Outstanding(client).value.ids)))
  {
    ReachableOk(env, run);
    Agree(After(env, run).client, After(env, run).server.accepted);
  }

  /** One round as the outside plays it: what is observed, whether each frame can be read, the oracle
      of each server step and, in mutual mode, the report the client generates. */
  datatype Round = Round(
    rows: set<Id>, challenge: string, readable: bool, o: Oracle,
    report: Option<Report>, reportReadable: bool, o2: Oracle, filesWritten: bool)

  /** The steps of a round, one-way and mutual, in the only order in which they can all succeed. */
  function Play(env: Env, s: State, r: Round): State {
    var served := RequestStep(env, AskStep(env, s, r.rows, r.challenge), r.readable, r.o);
    if env.mutual then
      AnswerStep(env, ReportStep(env, ChallengeStep(env, served, r.report), r.reportReadable, r.o2), r.filesWritten)
    else AnswerStep(env, served, r.filesWritten)
  }

  /** The server can read the request and accept its list. */
  ghost predicate Listed(env: Env, s: State, q: Request, readable: bool, o: Oracle) {
    && s.server.alive && readable
    && |q.ids| <= MAX_IDS && env.isHex32(q.challenge) && (forall x | x in q.ids :: env.isIdHex32(x))
    && Elements(q.ids) <= o.observed && o.replySent
  }

  /** The server's report is made, recorded and sent, and satisfies the client, who can store it. */
  ghost predicate Delivered(env: Env, digest: Key, o: Oracle, filesWritten: bool) {
    && o.report.Some? && o.manifestWritten && o.replySent
    && env.verify(digest, o.report.value) && filesWritten
  }

  /** The challenge is well formed and the client's report is made, read and satisfies the server. */
  ghost predicate ClientAttested(env: Env, q: Request, nonce: string, report: Option<Report>, readable: bool) {
    && env.isHex32(nonce) && report.Some? && readable
    && env.reportSize(report.value) == CLIENT_REPORT_SIZE && env.verify(env.clientBinding(q, nonce), report.value)
  }

  /** Everything outside the two programs that one round depends on. */
  ghost predicate RoundConditions(env: Env, s: State, q: Request, r: Round) {
    && Listed(env, s, q, r.readable, r.o)
    && if env.mutual then
         && ClientAttested(env, q, r.o.nonce, r.report, r.reportReadable)
         && Delivered(env, env.serverBinding(q, r.o.nonce, r.report.value), r.o2, r.filesWritten)
       else Delivered(env, env.binding(q), r.o, r.filesWritten)
  }

  /** The request that is on its way is the client's own, in the form it always has. */
  ghost predicate JustAsked(env: Env, s: State) {
    && Inv(env, s) && s.wire.Asked? && s.client.phase == Waiting(s.wire.q)
    && s.wire.q.epoch == env.epoch && Increasing(s.wire.q.ids) && |s.wire.q.ids| == s.wire.q.count > 0
  }

  lemma ServedExactly(env: Env, s: State, readable: bool, o: Oracle)
    requires JustAsked(env, s) && !env.mutual
    ensures var t := RequestStep(env, s, readable, o);
            && t.client == s.client
            && (t.wire.Answered? && t.wire.answer.Granted? <==>
                  Listed(env, s, s.wire.q, readable, o) && o.report.Some? && o.manifestWritten)
            && (t.wire.Answered? && t.wire.answer.Granted? ==> t.wire.answer.report == o.report.value)
  {
    NextIsNew(env, s, s.wire.q);
  }

  lemma AnsweredExactly(env: Env, s: State, filesWritten: bool)
    requires Inv(env, s) && (if env.mutual then s.client.phase.Attesting? else s.client.phase.Waiting?)
    ensures var t, q := AnswerStep(env, s, filesWritten).client, s.client.phase.q;
            var digest := if env.mutual then env.serverBinding(q, s.client.phase.nonce, s.client.phase.clientReport)
                          else env.binding(q);
            if s.wire.Answered? && s.wire.answer.Granted? && env.verify(digest, s.wire.answer.report) && filesWritten
            then t.phase.Idle? && t.assignedIds == s.client.assignedIds + Elements(q.ids)
            else !t.phase.Idle? && t.assignedIds == s.client.assignedIds
  {
    if s.wire.Answered? && s.wire.answer.Granted? {
      var m := s.server.accepted[|s.client.verified|];
      assert ManifestOk(env, m) && m.request == s.client.phase.q;
    }
  }

  /** The mutual server sends its challenge exactly when it can read and accept the list. */
  lemma GreetedExactly(env: Env, s: State, readable: bool, o: Oracle)
    requires JustAsked(env, s) && env.mutual
    ensures var t := RequestStep(env, s, readable, o);
            && t.client == s.client
            && if Listed(env, s, s.wire.q, readable, o)
               then t.server == s.server && t.wire == Greeted(Challenge(s.wire.q.number, o.nonce))
                    && t.handler == Some((s.wire.q, o.nonce))
               else t.handler.None? && (t.wire == s.wire || t.wire == Greeted(Refused))
  {
    NextIsNew(env, s, s.wire.q);
  }

  lemma ConcludedExactly(env: Env, s: State, report: Report, readable: bool, o: Oracle)
    requires Inv(env, s) && env.mutual && s.server.alive && s.handler.Some?
    requires s.wire == Attested(s.handler.value.0.number, report)
    ensures var t, (q, nonce) := ReportStep(env, s, readable, o), s.handler.value;
            && t.client == s.client && t.wire.Answered?
            && (t.wire.answer.Granted? <==>
                  && readable && env.reportSize(report) == CLIENT_REPORT_SIZE
                  && env.verify(env.clientBinding(q, nonce), report)
                  && o.report.Some? && o.manifestWritten && o.replySent)
            && (t.wire.answer.Granted? ==> t.wire.answer.report == o.report.value)
  {
  }

  /** A round that finds new ids covers all it observed exactly when at most 10000 of them are new, the
      server has observed them too, and every step outside the programs succeeds; otherwise the
      client goes on to no further round. */
  lemma RoundCoversExactly(env: Env, run: seq<Event>, r: Round)
    requires After(env, run).client.phase.Idle? && !(r.rows <= After(env, run).client.assignedIds)
    ensures var s := After(env, run);
            var q := Batch.Ask(env, s.client, r.rows, r.challenge).1.value;
            var t := Play(env, s, r).client;
            if RoundConditions(env, s, q, r)
            then t.phase.Idle? && t.assignedIds == s.client.assignedIds + r.rows
            else !t.phase.Idle? && t.assignedIds == s.client.assignedIds
  {
    ReachableOk(env, run);
    var s := After(env, run);
    NewIdsAsked(env, s.client, r.rows, r.challenge);
    AskKeeps(env, s, r.rows, r.challenge);
    if env.mutual {
      MutualRound(env, AskStep(env, s, r.rows, r.challenge), r);
    } else {
      OneWayRound(env, AskStep(env, s, r.rows, r.challenge), r);
    }
  }

  lemma OneWayRound(env: Env, s: State, r: Round)
    requires JustAsked(env, s) && !env.mutual
    ensures var t, q := AnswerStep(env, RequestStep(env, s, r.readable, r.o), r.filesWritten).client, s.wire.q;
            if RoundConditions(env, s, q, r)
            then t.phase.Idle? && t.assignedIds == s.client.assignedIds + Elements(q.ids)
            else !t.phase.Idle? && t.assignedIds == s.client.assignedIds
  {
    ServedExactly(env, s, r.readable, r.o);
    RequestKeeps(env, s, r.readable, r.o);
    AnsweredExactly(env, RequestStep(env, s, r.readable, r.o), r.filesWritten);
  }

  /** The client commits to its report exactly when it gets a challenge it can answer. */
  lemma AttestedExactly(env: Env, s: State, r: Round)
    requires JustAsked(env, s) && env.mutual
    ensures var t, q := ChallengeStep(env, RequestStep(env, s, r.readable, r.o), r.report), s.wire.q;
            && Inv(env, t) && t.client.assignedIds == s.client.assignedIds
            && if Listed(env, s, q, r.readable, r.o) && env.isHex32(r.o.nonce) && r.report.Some?
               then t.client.phase == Attesting(q, r.o.nonce, r.report.value) && t.server == s.server
                    && t.wire == Attested(q.number, r.report.value) && t.handler == Some((q, r.o.nonce))
               else !t.client.phase.Attesting? && !t.client.phase.Idle?
  {
    GreetedExactly(env, s, r.readable, r.o);
    RequestKeeps(env, s, r.readable, r.o);
    ChallengeKeeps(env, RequestStep(env, s, r.readable, r.o), r.report);
  }

  /** The mutual server's conclusion and the client's, once the client has committed. */
  lemma CommittedExactly(env: Env, s: State, report: Report, readable: bool, o: Oracle, filesWritten: bool)
    requires Inv(env, s) && env.mutual && s.server.alive && s.handler.Some?
    requires s.wire == Attested(s.handler.value.0.number, report)
    requires s.client.phase == Attesting(s.handler.value.0, s.handler.value.1, report)
    ensures var t, (q, nonce) := AnswerStep(env, ReportStep(env, s, readable, o), filesWritten).client, s.handler.value;
            if readable && env.reportSize(report) == CLIENT_REPORT_SIZE
               && env.verify(env.clientBinding(q, nonce), report)
               && Delivered(env, env.serverBinding(q, nonce, report), o, filesWritten)
            then t.phase.Idle? && t.assignedIds == s.client.assignedIds + Elements(q.ids)
            else !t.phase.Idle? && t.assignedIds == s.client.assignedIds
  {
    ConcludedExactly(env, s, report, readable, o);
    ReportKeeps(env, s, readable, o);
    AnsweredExactly(env, ReportStep(env, s, readable, o), filesWritten);
  }

  /** A mutual round once the request is on its way. */
  function Rest(env: Env, s: State, r: Round): State {
    var greeted := ChallengeStep(env, RequestStep(env, s, r.readable, r.o), r.report);
    AnswerStep(env, ReportStep(env, greeted, r.reportReadable, r.o2), r.filesWritten)
  }

  lemma MutualRound(env: Env, s: State, r: Round)
    requires JustAsked(env, s) && env.mutual
    ensures var t, q := Rest(env, s, r).client, s.wire.q;
            if RoundConditions(env, s, q, r)
            then t.phase.Idle? && t.assignedIds == s.client.assignedIds + Elements(q.ids)
            else !t.phase.Idle? && t.assignedIds == s.client.assignedIds
  {
    var attested := ChallengeStep(env, RequestStep(env, s, r.readable, r.o), r.report);
    AttestedExactly(env, s, r);
    if attested.client.phase.Attesting? {
      CommittedExactly(env, attested, r.report.value, r.reportReadable, r.o2, r.filesWritten);
    } else {
      ReportLeavesClient(env, attested, r.reportReadable, r.o2);
      NotAttestingStays(env, ReportStep(env, attested, r.reportReadable, r.o2), r.filesWritten);
    }
  }

  lemma ReportLeavesClient(env: Env, s: State, readable: bool, o: Oracle)
    ensures ReportStep(env, s, readable, o).client == s.client
  {
  }

  lemma NotAttestingStays(env: Env, s: State, filesWritten: bool)
    requires env.mutual && !s.client.phase.Attesting?
    ensures AnswerStep(env, s, filesWritten).client == s.client
  {
  }

  lemma NewIdsAsked(env: Env, c: Client, rows: set<Id>, challenge: string)
    requires !(rows <= c.assignedIds)
    ensures var q := Batch.Ask(env, c, rows, challenge).1.value;
            && Elements(q.ids) == rows - c.assignedIds && Increasing(q.ids) && |q.ids| == q.count > 0
            && c.assignedIds + Elements(q.ids) == c.assignedIds + rows
  {
    var q := Batch.Ask(env, c, rows, challenge).1.value;
    NoElements(q.ids);
  }

  /** A client that exits without an error leaves every id of its last snapshot in exactly one
      batch, whose report it verified, which the server accepted and, in mutual mode, granted only
      after verifying the client's report for the same manifest. */
  lemma CleanExitCoversAll(env: Env, run: seq<Event>, x: Id)
    requires After(env, run).client.phase.Exited? && x in After(env, run).client.phase.snapshot
    ensures var s := After(env, run);
            && s.client.verified == s.server.accepted && s.client.assignedIds == s.server.assignedIds
            && exists i | 0 <= i < |s.client.verified| ::
                 var m := s.client.verified[i];
                 && x in m.request.ids && env.verify(m.digest, m.report) && ManifestOk(env, m)
                 && forall j | 0 <= j < |s.client.verified| && j != i :: x !in s.client.verified[j].request.ids
  {
    ReachableOk(env, run);
    var s := After(env, run);
    assert s.client.verified == s.server.accepted;
    InCovered(s.client.verified, x);
    var i :| 0 <= i < |s.client.verified| && x in s.client.verified[i].request.ids;
    forall j | 0 <= j < |s.client.verified| && j != i ensures x !in s.client.verified[j].request.ids {
      assert x in Elements(s.client.verified[i].request.ids);
      assert x !in Elements(s.client.verified[j].request.ids);
    }
  }

  /** Asked to stop between rounds, the client exits exactly if it has observed as many ids as are expected
      (one-way, with an expected count) and all it observes is assigned; it fails exactly if it is
      short of them and late; otherwise it goes on, and nothing changes. */
  lemma StopAnswer(env: Env, run: seq<Event>, rows: set<Id>, late: bool)
    requires After(env, run).client.phase.Idle?
    ensures var (s, t) := (After(env, run), Step(env, After(env, run), CheckStop(rows, late)));
            var short := !env.mutual && 0 < env.expected && |rows| < env.expected;
            && (t.client.phase.Exited? <==> !short && rows <= s.client.assignedIds)
            && (t.client.phase.Raised? <==> short && late)
            && t == s.(client := s.client.(phase := t.client.phase))
            && (t.client.phase.Exited? ==> t.client.phase.snapshot == rows)
            && (!t.client.phase.Exited? && !t.client.phase.Raised? ==> t == s)
  {
  }

  /** The drain: with an expected count, the one-way client exits cleanly only with that many. */
  lemma CleanExitDrained(env: Env, run: seq<Event>)
    requires After(env, run).client.phase.Exited? && !env.mutual
    ensures |After(env, run).client.assignedIds| >= env.expected
  {
    ReachableOk(env, run);
    var s := After(env, run);
    if env.expected > 0 {
      SubsetCardinality(s.client.phase.snapshot, s.client.assignedIds);
    }
  }

  lemma SubsetCardinality(a: set<Id>, b: set<Id>)
    requires a <= b
    ensures |a| <= |b|
  {
    assert b == a + (b - a);
    CardinalityOfUnion(a, b - a);
  }
}
