/** What the batch server keeps over any sequence of connections, whoever makes them: every accepted
    manifest is its own, every id is in at most one of them, and the books balance. */
module BatchServer {
  import opened Basics
  import opened Batch

  /** The ids covered by some manifests, and how many entries the manifests have together. */
  function Covered(ms: seq<Manifest>): set<Id> {
    if ms == [] then {} else Covered(ms[..|ms| - 1]) + Elements(ms[|ms| - 1].request.ids)
  }

  function Total(ms: seq<Manifest>): nat {
    if ms == [] then 0 else Total(ms[..|ms| - 1]) + |ms[|ms| - 1].request.ids|
  }

  /** The sum of the counts in BATCHES. */
  function Logged(entries: seq<Entry>): int {
    if entries == [] then 0
    else
      var last := entries[|entries| - 1];
      Logged(entries[..|entries| - 1]) + if last.Batch? then last.count else 0
  }

  ghost predicate Disjoint(ms: seq<Manifest>) {
    forall i, j | 0 <= i < j < |ms| :: Elements(ms[i].request.ids) !! Elements(ms[j].request.ids)
  }

  ghost predicate Numbered(ms: seq<Manifest>) {
    forall i, j | 0 <= i < j < |ms| :: ms[i].request.number != ms[j].request.number
  }

  /** The manifest was checked, its digest binds it, and in mutual mode its client was attested. */
  ghost predicate ManifestOk(env: Env, m: Manifest) {
    && WellFormed(env, m.request)
    && m.digest == Digest(env, m.request, m.nonce, m.clientReport)
    && (env.mutual ==> env.verify(env.clientBinding(m.request, m.nonce), m.clientReport))
  }

  ghost predicate AllOk(env: Env, ms: seq<Manifest>) {
    forall i | 0 <= i < |ms| :: ManifestOk(env, ms[i])
  }

  /** SEEN is exactly the accepted manifests, by number. */
  ghost predicate SeenOk(env: Env, seen: map<int, Seen>, ms: seq<Manifest>) {
    && (forall i | 0 <= i < |ms| ::
          ms[i].request.number in seen && seen[ms[i].request.number] == Seen(ms[i].digest, Grant(env, ms[i])))
    && (forall n | n in seen :: exists i | 0 <= i < |ms| :: ms[i].request.number == n)
  }

  ghost predicate Books(env: Env, seen: map<int, Seen>, ids: set<Id>, ms: seq<Manifest>) {
    && AllOk(env, ms) && Disjoint(ms) && Numbered(ms) && SeenOk(env, seen, ms)
    && ids == Covered(ms) && |ids| == Total(ms)
  }

  ghost predicate Inv(env: Env, s: Server) { Books(env, s.seen, s.assignedIds, s.accepted) }

  // ----- coverage -----

  lemma {:induction false} InCovered(ms: seq<Manifest>, x: Id)
    ensures x in Covered(ms) <==> exists i | 0 <= i < |ms| :: x in ms[i].request.ids
  {
    if ms != [] {
      var front := ms[..|ms| - 1];
      InCovered(front, x);
      if x in Covered(front) {
        var i :| 0 <= i < |front| && x in front[i].request.ids;
        assert ms[i] == front[i];
      }
      if i :| 0 <= i < |ms| && x in ms[i].request.ids {
        assert i < |front| ==> front[i] == ms[i];
      }
    }
  }

  lemma CoveredNext(ms: seq<Manifest>, m: Manifest)
    ensures Covered(ms + [m]) == Covered(ms) + Elements(m.request.ids)
    ensures Total(ms + [m]) == Total(ms) + |m.request.ids|
  {
  }

  lemma LoggedNext(entries: seq<Entry>, e: Entry)
    ensures Logged(entries + [e]) == Logged(entries) + if e.Batch? then e.count else 0
  {
  }

  // ----- one connection -----

  /** May this request be assigned now, whatever is observed. */
  ghost predicate Fresh(env: Env, s: Server, q: Request) {
    WellFormed(env, q) && q.number !in s.seen && s.assignedIds !! Elements(q.ids)
  }

  lemma SeenNext(env: Env, seen: map<int, Seen>, ms: seq<Manifest>, m: Manifest)
    requires SeenOk(env, seen, ms) && m.request.number !in seen
    ensures SeenOk(env, seen[m.request.number := Seen(m.digest, Grant(env, m))], ms + [m])
    ensures Numbered(ms) ==> Numbered(ms + [m])
  {
    var now := seen[m.request.number := Seen(m.digest, Grant(env, m))];
    forall n | n in now ensures exists i | 0 <= i < |ms + [m]| :: (ms + [m])[i].request.number == n {
      if n == m.request.number {
        assert (ms + [m])[|ms|] == m;
      } else {
        var i :| 0 <= i < |ms| && ms[i].request.number == n;
        assert (ms + [m])[i] == ms[i];
      }
    }
  }

  lemma DisjointNext(ms: seq<Manifest>, m: Manifest)
    requires Disjoint(ms) && Covered(ms) !! Elements(m.request.ids)
    ensures Disjoint(ms + [m])
  {
    forall i, x | 0 <= i < |ms| && x in ms[i].request.ids ensures x !in Elements(m.request.ids) {
      InCovered(ms, x);
    }
  }

  lemma AllOkNext(env: Env, ms: seq<Manifest>, m: Manifest)
    requires AllOk(env, ms) && ManifestOk(env, m)
    ensures AllOk(env, ms + [m])
  {
  }

  /** A checked request names as many different ids as its list is long. */
  lemma DistinctIds(env: Env, q: Request)
    requires WellFormed(env, q)
    ensures |Elements(q.ids)| == |q.ids| > 0
  {
    ElementCount(q.ids);
  }

  lemma CardinalityOfUnion(a: set<Id>, b: set<Id>)
    requires a !! b
    ensures |a + b| == |a| + |b|
  {
  }

  lemma AssignKeeps(env: Env, s: Server, m: Manifest)
    requires Inv(env, s) && Fresh(env, s, m.request) && ManifestOk(env, m)
    ensures Inv(env, Assign(env, s, m))
  {
    AllOkNext(env, s.accepted, m);
    SeenNext(env, s.seen, s.accepted, m);
    DisjointNext(s.accepted, m);
    CoveredNext(s.accepted, m);
    DistinctIds(env, m.request);
    CardinalityOfUnion(s.assignedIds, Elements(m.request.ids));
  }

  /** Nothing but the log and the loop changed, or exactly `m` was assigned. */
  ghost predicate SameBooks(s: Server, t: Server) {
    t.seen == s.seen && t.assignedIds == s.assignedIds && t.accepted == s.accepted
  }

  lemma AcceptKeeps(env: Env, s: Server, m: Manifest, o: Oracle)
    requires Inv(env, s) && Fresh(env, s, m.request) && ManifestOk(env, m)
    ensures var t := Accept(env, s, m, o).0; Inv(env, t) && SameBooks(Assign(env, s, m), t)
  {
    AssignKeeps(env, s, m);
  }

  // ----- runs -----

  /** One connection: its request, the client's report if it is asked for one, and the outside. */
  datatype Connection = Connection(q: Option<Request>, got: Option<(int, Report)>, o: Oracle, o2: Oracle)

  function Handle(env: Env, s: Server, c: Connection): (Server, Reply) {
    if !s.alive then (s, Refused)
    else if !env.mutual then Serve(env, s, c.q, c.o)
    else
      var g := Greet(env, s, c.q, c.o);
      if g.1.Challenge? then Conclude(env, g.0, c.q.value, c.o.nonce, c.got, c.o2) else g
  }

  /** The oracle that decides the fate of the bookkeeping. */
  function Last(env: Env, c: Connection): Oracle { if env.mutual then c.o2 else c.o }

  /** What the one-way server accepts of a request, if anything. */
  ghost function Served(env: Env, s: Server, q: Option<Request>, o: Oracle): Option<Manifest> {
    if q.Some? && Assignable(env, s, q.value, o) && o.report.Some?
    then Some(Manifest(q.value, "", Report(0), env.binding(q.value), o.report.value))
    else None
  }

  /** What the mutual server accepts once the client's report is in, if anything. */
  ghost function Vouched(env: Env, q: Request, nonce: string, got: Option<(int, Report)>, o: Oracle): Option<Manifest> {
    if got.Some? && got.value.0 == q.number && env.reportSize(got.value.1) == CLIENT_REPORT_SIZE
       && env.verify(env.clientBinding(q, nonce), got.value.1) && o.report.Some?
    then Some(Manifest(q, nonce, got.value.1, env.serverBinding(q, nonce, got.value.1), o.report.value))
    else None
  }

  /** The manifest that a connection gets accepted, if it gets one accepted. */
  ghost function Taken(env: Env, s: Server, c: Connection): Option<Manifest> {
    if !s.alive then None
    else if !env.mutual then Served(env, s, c.q, c.o)
    else if c.q.Some? && Assignable(env, s, c.q.value, c.o) && c.o.replySent then
      Vouched(env, c.q.value, c.o.nonce, c.got, c.o2)
    else None
  }

  lemma OneWayCases(env: Env, s: Server, c: Connection)
    requires !env.mutual
    ensures match Taken(env, s, c)
            case None => SameBooks(s, Handle(env, s, c).0) && Logged(Handle(env, s, c).0.batches) == Logged(s.batches)
            case Some(m) =>
              && Handle(env, s, c) == Accept(env, s, m, Last(env, c))
              && ManifestOk(env, m) && Fresh(env, s, m.request)
  {
    LoggedNext(s.batches, Error);
    hide Logged, WellFormed;
  }

  lemma MutualCases(env: Env, s: Server, c: Connection)
    requires env.mutual
    ensures match Taken(env, s, c)
            case None => SameBooks(s, Handle(env, s, c).0) && Logged(Handle(env, s, c).0.batches) == Logged(s.batches)
            case Some(m) =>
              && Handle(env, s, c) == Accept(env, s, m, Last(env, c))
              && ManifestOk(env, m) && Fresh(env, s, m.request)
  {
    LoggedNext(s.batches, Error);
    hide Logged, WellFormed;
  }

  lemma HandleCases(env: Env, s: Server, c: Connection)
    ensures match Taken(env, s, c)
            case None => SameBooks(s, Handle(env, s, c).0) && Logged(Handle(env, s, c).0.batches) == Logged(s.batches)
            case Some(m) =>
              && Handle(env, s, c) == Accept(env, s, m, Last(env, c))
              && ManifestOk(env, m) && Fresh(env, s, m.request)
  {
    if env.mutual {
      MutualCases(env, s, c);
    } else {
      OneWayCases(env, s, c);
    }
  }

  /** A connection leaves the books alone or adds exactly the manifest it gets accepted. */
  lemma HandleKeeps(env: Env, s: Server, c: Connection)
    requires Inv(env, s)
    ensures var t := Handle(env, s, c).0;
            && Inv(env, t)
            && match Taken(env, s, c) case None => SameBooks(s, t) case Some(m) => SameBooks(Assign(env, s, m), t)
  {
    HandleCases(env, s, c);
    if Taken(env, s, c).Some? {
      AcceptKeeps(env, s, Taken(env, s, c).value, Last(env, c));
    }
  }

  const START := Server(true, map[], {}, [], [])

  function After(env: Env, run: seq<Connection>): Server {
    if run == [] then START else Handle(env, After(env, run[..|run| - 1]), run[|run| - 1]).0
  }

  /** Over every run: no id in two accepted manifests, no number twice, every manifest checked and
      bound by its digest, ASSIGNED their union and as large as their counts together. */
  lemma {:induction false} ReachableOk(env: Env, run: seq<Connection>)
    ensures Inv(env, After(env, run))
  {
    if run != [] {
      ReachableOk(env, run[..|run| - 1]);
      HandleKeeps(env, After(env, run[..|run| - 1]), run[|run| - 1]);
    }
  }

  /** The connection was accepted, but its manifest file could not be written. */
  ghost predicate Loses(env: Env, s: Server, c: Connection) {
    Taken(env, s, c).Some? && !Last(env, c).manifestWritten
  }

  lemma AcceptLogs(env: Env, s: Server, m: Manifest, o: Oracle)
    ensures Logged(Accept(env, s, m, o).0.batches)
         == Logged(s.batches) + if o.manifestWritten then |m.request.ids| else 0
  {
  }

  /** How far the log is behind the assignments. */
  ghost function Gap(s: Server): int { |s.assignedIds| - Logged(s.batches) }

  lemma GapStep(env: Env, s: Server, c: Connection)
    requires Inv(env, s)
    ensures var t := Handle(env, s, c).0; if Loses(env, s, c) then Gap(t) > Gap(s) else Gap(t) == Gap(s)
  {
    HandleCases(env, s, c);
    if Taken(env, s, c).Some? {
      var m := Taken(env, s, c).value;
      AcceptKeeps(env, s, m, Last(env, c));
      AcceptLogs(env, s, m, Last(env, c));
      CoveredNext(s.accepted, m);
      DistinctIds(env, m.request);
    }
  }

  ghost predicate NoneLost(env: Env, run: seq<Connection>) {
    forall k | 0 <= k < |run| :: !Loses(env, After(env, run[..k]), run[k])
  }

  lemma NoneLostNext(env: Env, front: seq<Connection>, c: Connection)
    ensures NoneLost(env, front + [c]) <==> NoneLost(env, front) && !Loses(env, After(env, front), c)
  {
    var run := front + [c];
    assert run[..|front|] == front;
    assert forall k | 0 <= k < |front| :: front[..k] == run[..k] && front[k] == run[k];
  }

  lemma GapAfter(env: Env, front: seq<Connection>, c: Connection)
    ensures var s := After(env, front);
            if Loses(env, s, c) then Gap(After(env, front + [c])) > Gap(s) else Gap(After(env, front + [c])) == Gap(s)
  {
    ReachableOk(env, front);
    GapStep(env, After(env, front), c);
    assert (front + [c])[..|front|] == front;
  }

  lemma {:induction false} GapCountsLosses(env: Env, run: seq<Connection>)
    ensures Gap(After(env, run)) >= 0 && (Gap(After(env, run)) == 0 <==> NoneLost(env, run))
  {
    if run != [] {
      var front, c := run[..|run| - 1], run[|run| - 1];
      assert run == front + [c];
      GapCountsLosses(env, front);
      GapAfter(env, front, c);
      NoneLostNext(env, front, c);
    }
  }

  /** The counts in BATCHES add up to |ASSIGNED| exactly when no accepted connection failed to write
      its manifest file; otherwise they fall short. The accepted manifests always add up. */
  lemma CountsAddUpExactly(env: Env, run: seq<Connection>)
    ensures var s := After(env, run);
            && Logged(s.batches) <= |s.assignedIds| == Total(s.accepted)
            && (Logged(s.batches) == |s.assignedIds| <==> NoneLost(env, run))
  {
    ReachableOk(env, run);
    GapCountsLosses(env, run);
  }

  /** A one-way server whose checks of hexadecimal strings and of reports all pass. */
  function ExampleEnv(): Env {
    Env(false, "e", 0, _ => true, _ => true,
        _ => Key(1), (_, _) => Key(2), (_, _, _) => Key(3), _ => 0, (_, _) => true)
  }

  /** A request for one id whose report is made, but whose manifest file cannot be written. */
  function LostManifest(): Connection {
    var o := Oracle({7}, "", Some(Report(1)), false, true, true);
    Connection(Some(Request("e", 1, "c", [7], 1)), None, o, o)
  }

  /** After it one id is assigned, and the log counts none. */
  lemma LostManifestExample()
    ensures var s := After(ExampleEnv(), [LostManifest()]);
            s.assignedIds == {7} && Logged(s.batches) == 0 && s.batches == [Error]
  {
    var env, c := ExampleEnv(), LostManifest();
    hide Taken, Handle;
    LostManifestTaken();
    HandleCases(env, START, c);
    AcceptLogs(env, START, Taken(env, START, c).value, Last(env, c));
    assert [c][..0] == [] && [c][0] == c;
  }

  lemma LostManifestTaken()
    ensures var q := Request("e", 1, "c", [7], 1);
            Taken(ExampleEnv(), START, LostManifest()) == Some(Manifest(q, "", Report(0), Key(1), Report(1)))
  {
  }

  /** The one-way server answers a number it has seen only if the request has the same digest, and
      then with the reply of the accepted manifest; either way nothing is assigned. */
  lemma ReplayChangesNothing(env: Env, run: seq<Connection>, i: nat, q: Request, o: Oracle)
    requires !env.mutual && i < |After(env, run).accepted|
    requires WellFormed(env, q) && q.number == After(env, run).accepted[i].request.number
    ensures var s := After(env, run);
            var (t, r) := Serve(env, s, Some(q), o);
            && SameBooks(s, t)
            && (r.Granted? <==> env.binding(q) == env.binding(s.accepted[i].request) && o.replySent)
            && (r.Granted? ==> t == s && r == Grant(env, s.accepted[i]))
  {
    ReachableOk(env, run);
  }

  /** What a request for a new number must be: of this epoch, with 1 to 10000 strictly increasing ids that
      are counted right and well spelled, none of them assigned and all of them observed here too. */
  ghost predicate Acceptable(env: Env, s: Server, q: Request, observed: set<Id>) {
    && q.epoch == env.epoch && q.number >= 1 && env.isHex32(q.challenge) && 1 <= |q.ids| == q.count <= 10000
    && (forall i, j | 0 <= i < j < |q.ids| :: q.ids[i] < q.ids[j])
    && (forall x | x in q.ids :: env.isIdHex32(x) && x !in s.assignedIds && x in observed)
  }

  /** A request for a new number is accepted exactly if it is acceptable and the outside does its part:
      one-way the server's report can be made, mutual the challenge can be sent. */
  lemma NewNumberAnswer(env: Env, s: Server, q: Request, o: Oracle)
    requires q.number !in s.seen
    ensures var (t, r) := Serve(env, s, Some(q), o);
            if Acceptable(env, s, q, o.observed) && o.report.Some? then
              && t.accepted == s.accepted + [Manifest(q, "", Report(0), env.binding(q), o.report.value)]
              && t.assignedIds == s.assignedIds + Elements(q.ids)
              && (r.Granted? <==> o.manifestWritten && o.replySent)
            else r == Refused && t.accepted == s.accepted && t.assignedIds == s.assignedIds
    ensures var (t, r) := Greet(env, s, Some(q), o);
            && t.accepted == s.accepted && t.assignedIds == s.assignedIds
            && r == if Acceptable(env, s, q, o.observed) && o.replySent then Challenge(q.number, o.nonce) else Refused
  {
    ApartByElements(q.ids, s.assignedIds);
    WithinByElements(q.ids, o.observed);
  }

  lemma ApartByElements(ids: seq<Id>, b: set<Id>)
    ensures b !! Elements(ids) <==> forall x | x in ids :: x !in b
  {
    if forall x | x in ids :: x !in b {
      SomeElement(b * Elements(ids));
      assert b * Elements(ids) == {};
    }
    assert forall x | x in ids :: x in Elements(ids);
  }

  lemma WithinByElements(ids: seq<Id>, b: set<Id>)
    ensures Elements(ids) <= b <==> forall x | x in ids :: x in b
  {
    if forall x | x in ids :: x in b {
      SomeElement(Elements(ids) - b);
      assert Elements(ids) - b == {};
    }
    assert forall x | x in ids :: x in Elements(ids);
  }

  /** The mutual server refuses any number it has seen before it sends a challenge. */
  lemma MutualNeverReplays(env: Env, run: seq<Connection>, i: nat, c: Connection)
    requires env.mutual && i < |After(env, run).accepted|
    requires c.q.Some? && c.q.value.number == After(env, run).accepted[i].request.number
    ensures Handle(env, After(env, run), c).1 == Refused
            && SameBooks(After(env, run), Handle(env, After(env, run), c).0)
  {
    ReachableOk(env, run);
  }
}
