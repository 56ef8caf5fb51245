/** The batch manifest protocol: one client names the ServerHellos it observed, the server assigns
    each of them to one attested batch. One-way (batch/linux) and mutual (batch/mutual). */
module Batch {
  import opened Basics

  /** Observation identifiers, numbered in the order in which Python sorts them. */
  type Id = int

  datatype Request = Request(epoch: string, number: int, challenge: string, ids: seq<Id>, count: int)

  datatype Reply =
    | Refused
    | Challenge(number: int, nonce: string)
    | Granted(digest: Key, report: Report, count: int, number: int, clientVerified: bool)

  /** The program's arguments, and the functions the protocol only applies. */
  datatype Env = Env(
    mutual: bool,
    epoch: string,
    expected: nat,
    isHex32: string -> bool,
    isIdHex32: Id -> bool,
    binding: Request -> Key,
    clientBinding: (Request, string) -> Key,
    serverBinding: (Request, string, Report) -> Key,
    reportSize: Report -> nat,
    verify: (Key, Report) -> bool)

  const MAX_IDS := 10000
  const CLIENT_REPORT_SIZE := 2548

  function Elements(ids: seq<Id>): set<Id> { set x | x in ids }

  predicate Increasing(ids: seq<Id>) { forall i, j | 0 <= i < j < |ids| :: ids[i] < ids[j] }

  lemma SomeElement(s: set<Id>)
    ensures s == {} || exists x :: x in s
  {
    if forall x :: x !in s {
      assert s == {};
    }
  }

  lemma MinExists(s: set<Id>)
    requires s != {}
    ensures exists m | m in s :: forall x | x in s :: m <= x
  {
    SomeElement(s);
    var x :| x in s;
    var m := Least(s, x);
  }

  lemma {:induction false} Least(s: set<Id>, x: Id) returns (m: Id)
    requires x in s
    ensures m in s && forall z | z in s :: m <= z
  {
    m := x;
    if y :| y in s && y < x {
      m := Least(s - {x}, y);
      assert forall z | z in s :: z == x || z in s - {x};
    }
  }

  lemma PrependMin(m: Id, rest: seq<Id>, s: set<Id>)
    requires m in s && (forall x | x in s :: m <= x) && Increasing(rest) && Elements(rest) == s - {m}
    ensures Increasing([m] + rest) && Elements([m] + rest) == s
  {
    var r := [m] + rest;
    forall i, j | 0 <= i < j < |r| ensures r[i] < r[j] {
      assert r[j] == rest[j - 1] && rest[j - 1] in Elements(rest);
      assert i > 0 ==> r[i] == rest[i - 1];
    }
    forall x ensures x in Elements([m] + rest) <==> x in s {
      assert x in [m] + rest <==> x == m || x in rest;
      assert x in Elements(rest) <==> x in rest;
    }
  }

  /** sorted(). */
  function Sorted(s: set<Id>): (r: seq<Id>)
    ensures Increasing(r) && Elements(r) == s
  {
    if s == {} then []
    else
      MinExists(s);
      var m :| m in s && forall x | x in s :: m <= x;
      var rest := Sorted(s - {m});
      PrependMin(m, rest, s);
      [m] + rest
  }

  /** The program's check, ids == sorted(set(ids)), holds exactly of the strictly increasing lists. */
  lemma {:induction false} SortedExactly(ids: seq<Id>)
    ensures ids == Sorted(Elements(ids)) <==> Increasing(ids)
  {
    if Increasing(ids) {
      SameElements(ids, Sorted(Elements(ids)));
    }
  }

  lemma {:induction false} SameElements(a: seq<Id>, b: seq<Id>)
    requires Increasing(a) && Increasing(b) && Elements(a) == Elements(b)
    ensures a == b
    decreases |a|
  {
    if |a| == 0 || |b| == 0 {
      NoElements(a);
      NoElements(b);
    } else {
      assert a[0] in Elements(b) && b[0] in Elements(a);
      assert a[0] == b[0];
      forall x ensures x in a[1..] <==> x in b[1..] {
        assert x in Elements(a) <==> x in Elements(b);
      }
      SameElements(a[1..], b[1..]);
    }
  }

  lemma NoElements(ids: seq<Id>)
    ensures Elements(ids) == {} <==> ids == []
  {
    if ids != [] {
      assert ids[0] in Elements(ids);
    }
  }

  lemma {:induction false} ElementCount(ids: seq<Id>)
    requires Increasing(ids)
    ensures |Elements(ids)| == |ids|
  {
    if ids != [] {
      ElementCount(ids[1..]);
      assert Elements(ids) == {ids[0]} + Elements(ids[1..]);
    }
  }

  // ----- the server -----

  datatype Seen = Seen(digest: Key, response: Reply)

  datatype Entry = Batch(number: int, count: int, digest: Key) | Error

  /** One accepted request: what its report covers. */
  datatype Manifest = Manifest(request: Request, nonce: string, clientReport: Report, digest: Key, report: Report)

  /** SEEN, ASSIGNED and BATCHES; whether the loop still runs; and, as history, what was accepted. */
  datatype Server = Server(
    alive: bool,
    seen: map<int, Seen>,
    assignedIds: set<Id>,
    batches: seq<Entry>,
    accepted: seq<Manifest>)

  /** What the outside does while one connection is served. */
  datatype Oracle = Oracle(
    observed: set<Id>,
    nonce: string,
    report: Option<Report>,
    manifestWritten: bool,
    replySent: bool,
    errorSent: bool)

  function Digest(env: Env, q: Request, nonce: string, clientReport: Report): Key {
    if env.mutual then env.serverBinding(q, nonce, clientReport) else env.binding(q)
  }

  predicate WellFormed(env: Env, q: Request) {
    && q.epoch == env.epoch
    && Increasing(q.ids) && |q.ids| == q.count && 0 < |q.ids| <= MAX_IDS
    && q.number >= 1 && env.isHex32(q.challenge)
    && forall x | x in q.ids :: env.isIdHex32(x)
  }

  /** The except branch: an error entry and an error reply; if that cannot be sent the loop ends. */
  function Fail(s: Server, o: Oracle): (Server, Reply) {
    (s.(batches := s.batches + [Error], alive := o.errorSent), Refused)
  }

  function Grant(env: Env, m: Manifest): Reply {
    Granted(m.digest, m.report, |m.request.ids|, m.request.number, env.mutual)
  }

  function Assign(env: Env, s: Server, m: Manifest): Server {
    s.(seen := s.seen[m.request.number := Seen(m.digest, Grant(env, m))],
       assignedIds := s.assignedIds + Elements(m.request.ids),
       accepted := s.accepted + [m])
  }

  function LogBatch(s: Server, m: Manifest): Server {
    s.(batches := s.batches + [Batch(m.request.number, |m.request.ids|, m.digest)])
  }

  /** From the server's report on: bookkeeping, the manifest file, the batch entry, the reply. */
  function Accept(env: Env, s: Server, m: Manifest, o: Oracle): (Server, Reply) {
    var s1 := Assign(env, s, m);
    if !o.manifestWritten then Fail(s1, o)
    else
      var s2 := LogBatch(s1, m);
      if o.replySent then (s2, Grant(env, m)) else Fail(s2, o)
  }

  /** The request is new and names only unassigned ids that this side has observed too. */
  predicate Assignable(env: Env, s: Server, q: Request, o: Oracle) {
    WellFormed(env, q) && q.number !in s.seen && s.assignedIds !! Elements(q.ids) && Elements(q.ids) <= o.observed
  }

  /** One connection of the one-way server; None is a frame it could not read or parse. */
  function Serve(env: Env, s: Server, q: Option<Request>, o: Oracle): (Server, Reply) {
    if q.None? || !WellFormed(env, q.value) then Fail(s, o)
    else if q.value.number in s.seen then
      var stored := s.seen[q.value.number];
      if stored.digest != env.binding(q.value) then Fail(s, o)
      else if o.replySent then (s, stored.response)
      else Fail(s, o)
    else if !Assignable(env, s, q.value, o) || o.report.None? then Fail(s, o)
    else Accept(env, s, Manifest(q.value, "", Report(0), env.binding(q.value), o.report.value), o)
  }

  /** The mutual server up to the challenge. */
  function Greet(env: Env, s: Server, q: Option<Request>, o: Oracle): (Server, Reply) {
    if q.None? || !Assignable(env, s, q.value, o) || !o.replySent then Fail(s, o)
    else (s, Challenge(q.value.number, o.nonce))
  }

  /** The mutual server from the client's report on; `q` and `nonce` are the handler's own. */
  function Conclude(env: Env, s: Server, q: Request, nonce: string, got: Option<(int, Report)>, o: Oracle)
    : (Server, Reply)
  {
    if got.None? || got.value.0 != q.number || env.reportSize(got.value.1) != CLIENT_REPORT_SIZE
       || !env.verify(env.clientBinding(q, nonce), got.value.1) || o.report.None?
    then Fail(s, o)
    else
      Accept(env, s, Manifest(q, nonce, got.value.1, env.serverBinding(q, nonce, got.value.1), o.report.value), o)
  }

  // ----- the client -----

  datatype Phase =
    | Idle
    | Waiting(q: Request)
    | Attesting(q: Request, nonce: string, clientReport: Report)
    | Raised(pending: Option<Request>)
    | Exited(snapshot: set<Id>)

  /** `verified` stands for BATCHES together with the manifest and report files. */
  datatype Client = Client(phase: Phase, number: int, assignedIds: set<Id>, verified: seq<Manifest>)

  function Outstanding(c: Client): Option<Request> {
    match c.phase
    case Waiting(q) => Some(q)
    case Attesting(q, _, _) => Some(q)
    case Raised(p) => p
    case _ => None
  }

  /** One round: ask for what was observed and not yet assigned, if anything. */
  function Ask(env: Env, c: Client, rows: set<Id>, challenge: string): (Client, Option<Request>) {
    if rows <= c.assignedIds then (c, None)
    else
      var ids := Sorted(rows - c.assignedIds);
      var q := Request(env.epoch, c.number + 1, challenge, ids, |ids|);
      (c.(phase := Waiting(q), number := c.number + 1), Some(q))
  }

  function Raise(c: Client): Client { c.(phase := Raised(Outstanding(c))) }

  /** The mutual client's answer to a challenge; None is a failed proof or a failed write. */
  function Attest(env: Env, c: Client, r: Reply, report: Option<Report>): (Client, Option<(int, Report)>)
    requires c.phase.Waiting?
  {
    if !r.Challenge? || r.number != c.phase.q.number || !env.isHex32(r.nonce) || report.None? then (Raise(c), None)
    else (c.(phase := Attesting(c.phase.q, r.nonce, report.value)), Some((c.phase.q.number, report.value)))
  }

  /** The final reply: checked, verified, written to disk, and only then assigned. */
  function Settle(env: Env, c: Client, r: Reply, filesWritten: bool): Client
    requires if env.mutual then c.phase.Attesting? else c.phase.Waiting?
  {
    var q := c.phase.q;
    var nonce := if env.mutual then c.phase.nonce else "";
    var clientReport := if env.mutual then c.phase.clientReport else Report(0);
    var digest := Digest(env, q, nonce, clientReport);
    if !r.Granted? || r.digest != digest || r.number != q.number || r.count != |q.ids|
       || (env.mutual && !r.clientVerified) || !env.verify(digest, r.report) || !filesWritten
    then Raise(c)
    else
      c.(phase := Idle, assignedIds := c.assignedIds + Elements(q.ids),
         verified := c.verified + [Manifest(q, nonce, clientReport, digest, r.report)])
  }

  /** The check at the end of a round once a stop was requested. */
  function StopCheck(env: Env, c: Client, rows: set<Id>, late: bool): Client {
    if !env.mutual && env.expected > 0 && |rows| < env.expected then (if late then Raise(c) else c)
    else if rows <= c.assignedIds then c.(phase := Exited(rows))
    else c
  }
}
