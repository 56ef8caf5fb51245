/** When the rendezvous cache answers, and what it answers: for each operation, in every state that
    keeps the invariant, the exact conditions of each answer and the whole change that goes with it,
    in terms of the entries alone. A first session shows that the answers fit together. */
module RendezvousAnswers {
  import opened Basics
  import opened ProbeTable
  import opened Rendezvous
  import opened RendezvousInvariant

  // ----- what a cell holds -----

  predicate Knows(c: Cell<Entry>, key: Key) {
    c.Live? && c.entry.hasLookup && c.entry.lookupKey == key
  }

  predicate KnowsReport(c: Cell<Entry>, flow: Flow, key: Key, cookie: nat) {
    c.Live? && c.entry.hasReport && c.entry.reportKey == key && c.entry.flow == flow && c.entry.cookie == cookie
  }

  /** A ServerHello of the socket that no ClientHello has joined. */
  predicate LacksClient(c: Cell<Entry>, flow: Flow, cookie: nat) {
    c.Live? && c.entry.hasReport && !c.entry.hasLookup && c.entry.flow == flow && c.entry.cookie == cookie
  }

  /** A ClientHello of the socket that no ServerHello has joined. */
  predicate LacksServer(c: Cell<Entry>, flow: Flow, cookie: nat) {
    c.Live? && c.entry.hasLookup && !c.entry.hasReport && c.entry.flow == flow && c.entry.cookie == cookie
  }

  predicate NoneKnows(s: State, key: Key) {
    forall i | 0 <= i < |s.cache| :: !Knows(s.cache[i], key)
  }

  predicate OnlyCell(s: State, u: State, i: nat) {
    |u.cache| == |s.cache| && i < |s.cache| && forall j | 0 <= j < |s.cache| && j != i :: u.cache[j] == s.cache[j]
  }

  lemma FindsKnown(env: Env, s: State, key: Key, i: nat)
    requires Inv(env, s) && i < |s.cache| && Knows(s.cache[i], key)
    ensures Find(s, key) == Some(i) && s.cache[i].entry.lookupObserved
  {
    FindIsUnique(env, s.cache, key, i);
    assert EntryOk(env, s.cache[i].entry);
  }

  lemma FindsNone(s: State, key: Key)
    requires NoneKnows(s, key)
    ensures Find(s, key).None?
  {
    if Find(s, key).Some? {
      assert Knows(s.cache[Find(s, key).value], key);
    }
  }

  // ----- a ClientHello is seen -----

  /** The ClientHello joined the newest ServerHello that lacks one, or was stored on its own in a free
      slot; its key is in the index. */
  predicate Stored(s: State, u: State, i: nat, flow: Flow, key: Key, t: nat, cookie: nat) {
    && OnlyCell(s, u, i) && u == s.(cache := u.cache, index := u.index)
    && (if LacksClient(s.cache[i], flow, cookie) then
          && u.cache[i] == Live(s.cache[i].entry.(hasLookup := true, lookupObserved := true, lookupKey := key,
                                                  lookupObservedNs := t))
          && (forall j | 0 <= j < |s.cache| && LacksClient(s.cache[j], flow, cookie) ::
                s.cache[j].entry.observedNs <= s.cache[i].entry.observedNs)
        else
          && !s.cache[i].Live? && (forall j | 0 <= j < |s.cache| :: !LacksClient(s.cache[j], flow, cookie))
          && u.cache[i] == Live(Entry(true, true, false, false, false, false, flow, cookie, key, Key(0), Key(0),
                                      Report(0), 0, 0, t, 0, 0, 0, 0)))
    && FindMatch(u.index, Indexed(key)).Some? && u.index[FindMatch(u.index, Indexed(key)).value].entry.slot == i
  }

  /** A key already known is confirmed exactly on its own socket and nothing changes. A new one is
      taken exactly if a ServerHello of the socket lacks its ClientHello or some slot is free. */
  lemma LookupAnswer(env: Env, s: State, flow: Flow, key: Key, t: nat, cookie: nat)
    requires Inv(env, s)
    ensures var (u, ok) := ObserveLookup(env, s, flow, key, t, cookie);
            && (forall i | 0 <= i < |s.cache| && Knows(s.cache[i], key) ::
                  u == s && (ok <==> s.cache[i].entry.flow == flow && s.cache[i].entry.cookie == cookie))
            && (NoneKnows(s, key) ==>
                  && (ok <==> exists i | 0 <= i < |s.cache| ::
                        LacksClient(s.cache[i], flow, cookie) || !s.cache[i].Live?)
                  && (if ok then exists i :: Stored(s, u, i, flow, key, t, cookie) else u == s))
  {
    var (u, ok) := ObserveLookup(env, s, flow, key, t, cookie);
    forall i | 0 <= i < |s.cache| && Knows(s.cache[i], key)
      ensures u == s && (ok <==> s.cache[i].entry.flow == flow && s.cache[i].entry.cookie == cookie)
    {
      FindsKnown(env, s, key, i);
    }
    if NoneKnows(s, key) {
      NewLookupAnswer(env, s, flow, key, t, cookie);
    }
  }

  lemma NewLookupAnswer(env: Env, s: State, flow: Flow, key: Key, t: nat, cookie: nat)
    requires Inv(env, s) && NoneKnows(s, key)
    ensures var (u, ok) := ObserveLookup(env, s, flow, key, t, cookie);
            && (ok <==> exists i | 0 <= i < |s.cache| :: LacksClient(s.cache[i], flow, cookie) || !s.cache[i].Live?)
            && (if ok then exists i :: Stored(s, u, i, flow, key, t, cookie) else u == s)
  {
    var (u, ok) := ObserveLookup(env, s, flow, key, t, cookie);
    FindsNone(s, key);
    LookupPlace(env, s, flow, key, cookie);
    var target := LookupTarget(env, s, flow, key, cookie);
    if target.Some? {
      var i := target.value;
      LookupFits(env, s, flow, key, t, cookie, i);
      var e := LookupFilled(Base(s.cache, i), flow, key, t, cookie);
      InsertKeepsIndex(env, s.cache, s.index, i, e);
      WriteKeepsTable(env, s.cache, i, e);
      assert Knows(u.cache[i], key);
      FindIsUnique(env, u.cache, key, i);
      IndexAgreesWithScan(env, u.cache, u.index, key);
      assert Stored(s, u, i, flow, key, t, cookie);
    }
  }

  lemma LookupPlace(env: Env, s: State, flow: Flow, key: Key, cookie: nat)
    requires Inv(env, s) && Find(s, key).None?
    ensures var target := LookupTarget(env, s, flow, key, cookie);
            && (target.Some? <==> exists i | 0 <= i < |s.cache| ::
                  LacksClient(s.cache[i], flow, cookie) || !s.cache[i].Live?)
            && (target.Some? ==>
                  && target.value < |s.cache|
                  && (LacksClient(s.cache[target.value], flow, cookie) || !s.cache[target.value].Live?)
                  && (forall j | 0 <= j < |s.cache| && LacksClient(s.cache[j], flow, cookie) ::
                        && LacksClient(s.cache[target.value], flow, cookie)
                        && s.cache[j].entry.observedNs <= s.cache[target.value].entry.observedNs))
  {
    NewestOverWholeTable(s.cache, env.routeHash(flow), Orphan(flow, cookie), ReportTime());
    FullExactly(s.cache, env.routeHash(flow));
    assert forall j | 0 <= j < |s.cache| ::
             LacksClient(s.cache[j], flow, cookie) <==> Matches(s.cache[j], Orphan(flow, cookie));
  }

  // ----- a ServerHello is seen -----

  /** Entry e was written to slot i, and its report is asked for exactly if that is due now: under the
      derived key in mutual mode and the ServerHello's key otherwise, and in vain while stopping. */
  predicate Asked(env: Env, s: State, u: State, i: nat, e: Entry, start: nat, done: nat) {
    var due := e.startNs == 0 && e.hasReport && (env.mutual ==> e.requestReceived);
    var key := if env.mutual then env.serverReportKey(e.reportKey, env.clientReportKey(e.lookupKey, e.nonce))
               else e.reportKey;
    && OnlyCell(s, u, i) && u == s.(cache := u.cache, queue := u.queue)
    && (if !due then u.cache[i] == Live(e) && u.queue == s.queue
        else if s.stopping then
          u.cache[i] == Live(e.(attestKey := key, startNs := start, doneNs := done)) && u.queue == s.queue
        else
          u.cache[i] == Live(e.(attestKey := key, startNs := start)) && u.queue == s.queue + [Job(i, e.flow, key)])
  }

  lemma AsksWhenDue(env: Env, s: State, i: nat, e: Entry, start: nat, done: nat)
    requires Inv(env, s) && i < |s.cache| && (e.startNs == 0 ==> !Pending(s.cache[i]))
    ensures var r := Schedule(env, s.(cache := s.cache[i := Live(e)]), i, start, done);
            && Asked(env, s, r.0, i, e, start, done)
            && (r.1 <==> !(s.stopping && e.startNs == 0 && e.hasReport && (env.mutual ==> e.requestReceived)))
  {
    if e.startNs == 0 {
      QueueNeverFull(s, i);
    }
  }

  /** The ServerHello joined the newest ClientHello that lacks one, or was stored on its own in a free
      slot, and its report was asked for if that is due. */
  predicate Reported(env: Env, s: State, u: State, ok: bool, i: nat, flow: Flow, key: Key, t: nat, cookie: nat,
                     start: nat, done: nat)
  {
    && i < |s.cache|
    && var joined := LacksServer(s.cache[i], flow, cookie);
       var e := if joined then s.cache[i].entry.(hasReport := true, reportKey := key, observedNs := t)
                else Entry(false, false, false, true, false, false, flow, cookie, Key(0), key, Key(0), Report(0),
                           0, t, 0, 0, 0, 0, 0);
       && (if joined then
             forall j | 0 <= j < |s.cache| && LacksServer(s.cache[j], flow, cookie) ::
               s.cache[j].entry.lookupObservedNs <= s.cache[i].entry.lookupObservedNs
           else !s.cache[i].Live? && forall j | 0 <= j < |s.cache| :: !LacksServer(s.cache[j], flow, cookie))
       && Asked(env, s, u, i, e, start, done)
       && (ok <==> !(s.stopping && (env.mutual ==> e.requestReceived)))
  }

  /** A ServerHello already known is confirmed and nothing changes; a new one is refused without a
      change exactly if no ClientHello of the socket lacks it and no slot is free. */
  lemma ReportAnswer(env: Env, s: State, flow: Flow, key: Key, t: nat, cookie: nat, start: nat, done: nat)
    requires Inv(env, s)
    ensures var (u, ok) := ObserveReport(env, s, flow, key, t, cookie, start, done);
            if exists i | 0 <= i < |s.cache| :: KnowsReport(s.cache[i], flow, key, cookie) then u == s && ok
            else if exists i | 0 <= i < |s.cache| :: LacksServer(s.cache[i], flow, cookie) || !s.cache[i].Live? then
              exists i :: Reported(env, s, u, ok, i, flow, key, t, cookie, start, done)
            else u == s && !ok
  {
    var known := FindMatch(s.cache, Generation(flow, key, cookie));
    assert forall i | 0 <= i < |s.cache| ::
             KnowsReport(s.cache[i], flow, key, cookie) <==> Matches(s.cache[i], Generation(flow, key, cookie));
    if known.None? {
      NewReportAnswer(env, s, flow, key, t, cookie, start, done);
    }
  }

  lemma NewReportAnswer(env: Env, s: State, flow: Flow, key: Key, t: nat, cookie: nat, start: nat, done: nat)
    requires Inv(env, s) && FindMatch(s.cache, Generation(flow, key, cookie)).None?
    ensures var (u, ok) := ObserveReport(env, s, flow, key, t, cookie, start, done);
            if exists i | 0 <= i < |s.cache| :: LacksServer(s.cache[i], flow, cookie) || !s.cache[i].Live? then
              exists i :: Reported(env, s, u, ok, i, flow, key, t, cookie, start, done)
            else u == s && !ok
  {
    hide Compatible, WellProbed, IndexOk, FindMatch, Schedule, Asked;
    var (u, ok) := ObserveReport(env, s, flow, key, t, cookie, start, done);
    ReportPlace(env, s, flow, cookie);
    var target := ReportTarget(env, s, flow, cookie);
    if target.Some? {
      var i := target.value;
      var e := ReportFilled(Base(s.cache, i), flow, key, t, cookie);
      assert s.cache[i].Live? ==> EntryOk(env, s.cache[i].entry);
      AsksWhenDue(env, s, i, e, start, done);
      assert Reported(env, s, u, ok, i, flow, key, t, cookie, start, done);
    }
  }

  lemma ReportPlace(env: Env, s: State, flow: Flow, cookie: nat)
    requires Inv(env, s)
    ensures var target := ReportTarget(env, s, flow, cookie);
            && (target.Some? <==> exists i | 0 <= i < |s.cache| ::
                  LacksServer(s.cache[i], flow, cookie) || !s.cache[i].Live?)
            && (target.Some? ==>
                  && target.value < |s.cache|
                  && (LacksServer(s.cache[target.value], flow, cookie) || !s.cache[target.value].Live?)
                  && (forall j | 0 <= j < |s.cache| && LacksServer(s.cache[j], flow, cookie) ::
                        && LacksServer(s.cache[target.value], flow, cookie)
                        && s.cache[j].entry.lookupObservedNs <= s.cache[target.value].entry.lookupObservedNs))
  {
    NewestOverWholeTable(s.cache, env.routeHash(flow), Placeholder(flow, cookie), LookupTime());
    FullExactly(s.cache, env.routeHash(flow));
    forall j | 0 <= j < |s.cache|
      ensures LacksServer(s.cache[j], flow, cookie) <==> Matches(s.cache[j], Placeholder(flow, cookie))
    {
      assert s.cache[j].Live? ==> EntryOk(env, s.cache[j].entry);
    }
  }

  // ----- registration -----

  /** Less than 30 s after the ClientHello was seen, on the socket on which it was. */
  predicate Timely(e: Entry, now: nat, cookieNow: Option<nat>) {
    e.lookupObservedNs <= now < e.lookupObservedNs + 30_000_000_000 && cookieNow == Some(e.cookie)
  }

  /** A request for a key that is there is granted exactly if it is the first and timely; then the
      entry holds its nonce and its report is asked for if that is due, in vain (INTERNAL) exactly
      while stopping. Otherwise it is refused without a change. A request for a key that is not there
      waits, and is refused once the agent stops or the window has passed. */
  lemma RegisterAnswer(env: Env, s: State, key: Key, nonce: nat, began: nat, now: nat, cookieNow: Option<nat>,
                       expired: bool, start: nat, done: nat)
    requires Inv(env, s)
    ensures var (u, r) := Register(env, s, key, nonce, began, now, cookieNow, expired, start, done);
            && (forall i | 0 <= i < |s.cache| && Knows(s.cache[i], key) ::
                  var e := s.cache[i].entry;
                  if !e.requestReceived && Timely(e, now, cookieNow) then
                    && Asked(env, s, u, i, e.(requestReceived := true, requestNs := began, nonce := nonce), start, done)
                    && r == Some(if s.stopping && e.startNs == 0 && e.hasReport then Internal else Okay)
                  else u == s && r == Some(BadBinding))
            && (NoneKnows(s, key) ==> u == s && r == if s.stopping || expired then Some(NotFound) else None)
  {
    var (u, r) := Register(env, s, key, nonce, began, now, cookieNow, expired, start, done);
    forall i | 0 <= i < |s.cache| && Knows(s.cache[i], key)
      ensures var e := s.cache[i].entry;
              if !e.requestReceived && Timely(e, now, cookieNow) then
                && Asked(env, s, u, i, e.(requestReceived := true, requestNs := began, nonce := nonce), start, done)
                && r == Some(if s.stopping && e.startNs == 0 && e.hasReport then Internal else Okay)
              else u == s && r == Some(BadBinding)
    {
      FindsKnown(env, s, key, i);
      var e := s.cache[i].entry.(requestReceived := true, requestNs := began, nonce := nonce);
      AsksWhenDue(env, s, i, e, start, done);
    }
    if NoneKnows(s, key) {
      FindsNone(s, key);
    }
  }

  // ----- delivery -----

  /** What each pass of the wait answers for a key that is there. */
  predicate DeliveryIs(s: State, u: State, i: nat, nonce: nat, now: nat, cookieNow: Option<nat>, expired: bool,
                       d: Delivery)
    requires i < |s.cache| && s.cache[i].Live?
  {
    var e := s.cache[i].entry;
    && (d.Delivered? <==> e.requestReceived && e.ready && !e.delivered && e.nonce == nonce && Timely(e, now, cookieNow))
    && (d == Refused(BadBinding) <==>
          e.requestReceived && e.ready && !e.delivered && !(e.nonce == nonce && Timely(e, now, cookieNow)))
    && (d == Refused(Internal) <==> e.doneNs > 0 && !e.ready)
    && (d == Refused(NotFound) <==>
          (s.stopping || expired) && (if e.ready then !e.requestReceived || e.delivered else e.doneNs == 0))
    && (d == Waiting <==>
          !s.stopping && !expired && (if e.ready then !e.requestReceived || e.delivered else e.doneNs == 0))
    && (if d.Delivered? then
          d.snapshot == e.(delivered := true) && OnlyCell(s, u, i) && u == s.(cache := u.cache)
          && u.cache[i] == Live(d.snapshot)
        else u == s)
  }

  /** The report is handed over exactly if it is ready, was requested with this nonce, has not been
      handed over, and this is timely; every refusal has its own condition and changes nothing. */
  lemma DeliverAnswer(env: Env, s: State, key: Key, nonce: nat, now: nat, cookieNow: Option<nat>, expired: bool)
    requires Inv(env, s)
    ensures var (u, d) := Deliver(s, key, nonce, now, cookieNow, expired);
            && (forall i | 0 <= i < |s.cache| && Knows(s.cache[i], key) ::
                  DeliveryIs(s, u, i, nonce, now, cookieNow, expired, d))
            && (NoneKnows(s, key) ==> u == s && d == if s.stopping || expired then Refused(NotFound) else Waiting)
  {
    var (u, d) := Deliver(s, key, nonce, now, cookieNow, expired);
    forall i | 0 <= i < |s.cache| && Knows(s.cache[i], key)
      ensures DeliveryIs(s, u, i, nonce, now, cookieNow, expired, d)
    {
      FindsKnown(env, s, key, i);
      assert EntryOk(env, s.cache[i].entry);
    }
    if NoneKnows(s, key) {
      FindsNone(s, key);
    }
  }

  // ----- the report worker, the response and the verdict -----

  /** An idle worker takes the oldest job exactly if there is one; finishing its job puts the report
      into the entry the job is for and nothing else changes. */
  lemma WorkerAnswer(env: Env, s: State, ok: bool, report: Report, finished: nat)
    requires Inv(env, s)
    ensures s.inFlight.None? && s.queue != [] ==>
              TakeJob(s) == s.(inFlight := Some(s.queue[0]), queue := s.queue[1..])
    ensures s.inFlight.Some? || s.queue == [] ==> TakeJob(s) == s
    ensures var u := FinishJob(s, ok, report, finished);
            if s.inFlight.None? then u == s
            else
              var i := s.inFlight.value.slot;
              && OnlyCell(s, u, i) && u == s.(inFlight := None, cache := u.cache) && s.cache[i].Live?
              && var e := s.cache[i].entry.(doneNs := finished);
                 u.cache[i] == Live(if ok then e.(ready := true, report := report) else e)
  {
    if s.inFlight.Some? {
      WorkIsStillWanted(env, s);
    }
  }

  /** The send time is noted exactly in a delivered entry. A verdict is recorded exactly if it is on a
      delivered entry, for its own key and within the expected number: with the verdict's own
      answer as admitted, a copy of the entry, and the slot and the key recycled. */
  lemma VerdictAnswer(env: Env, s: State, key: Key, now: nat, verdictKey: Key, verified: bool, clientVerified: bool)
    requires Inv(env, s)
    ensures var (m, u) := (MarkSent(s, key, now), RecordVerdict(env, s, key, verdictKey, verified, clientVerified));
            && (forall i | 0 <= i < |s.cache| && Knows(s.cache[i], key) ::
                  var e := s.cache[i].entry;
                  && m == (if e.delivered then s.(cache := s.cache[i := Live(e.(responseNs := now))]) else s)
                  && (if e.delivered && verdictKey == key && |s.records| < env.expected then
                        && u.records == s.records + [Record(|s.records| + 1, verified, clientVerified, e)]
                        && u == s.(cache := s.cache[i := Tombstone], index := u.index, records := u.records)
                        && NoneKnows(u, key) && FindMatch(u.index, Indexed(key)).None?
                      else u == s))
            && (NoneKnows(s, key) ==> m == s && u == s)
  {
    var u := RecordVerdict(env, s, key, verdictKey, verified, clientVerified);
    forall i | 0 <= i < |s.cache| && Knows(s.cache[i], key)
      ensures Find(s, key) == Some(i)
      ensures var e := s.cache[i].entry;
              e.delivered && verdictKey == key && |s.records| < env.expected ==>
                NoneKnows(u, key) && FindMatch(u.index, Indexed(key)).None?
    {
      FindsKnown(env, s, key, i);
      if s.cache[i].entry.delivered && verdictKey == key && |s.records| < env.expected {
        RecordVerdictKeeps(env, s, key, verdictKey, verified, clientVerified);
        KeyIsGone(env, s, key, i);
        IndexAgreesWithScan(env, u.cache, u.index, key);
      }
    }
    if NoneKnows(s, key) {
      FindsNone(s, key);
    }
  }

  lemma KeyIsGone(env: Env, s: State, key: Key, i: nat)
    requires Inv(env, s) && i < |s.cache| && Knows(s.cache[i], key)
    ensures FindMatch(s.cache[i := Tombstone], WithLookup(key)).None?
    ensures forall j | 0 <= j < |s.cache| && j != i :: !Knows(s.cache[j], key)
  {
    forall j | 0 <= j < |s.cache| && j != i ensures !Knows(s.cache[j], key) {
      if Knows(s.cache[j], key) {
        FindsKnown(env, s, key, i);
        FindsKnown(env, s, key, j);
      }
    }
    FindsNone(s.(cache := s.cache[i := Tombstone]), key);
  }

  // ----- one session from hello to record -----

  /** What the outside does and reads in one session. */
  datatype Visit = Visit(
    flow: Flow, key: Key, reportKey: Key, cookie: nat, seen: nat, answered: nat, start: nat, done: nat,
    nonce: nat, began: nat, asked: nat, report: Report, finished: nat, handed: nat)

  function Attested(env: Env, v: Visit): Key {
    if env.mutual then env.serverReportKey(v.reportKey, env.clientReportKey(v.key, v.nonce)) else v.reportKey
  }

  /** Request and delivery come within 30 s of the ClientHello, and the report verifies. */
  predicate InTime(env: Env, v: Visit) {
    && v.start > 0 && v.done > 0 && v.finished > 0 && env.verify(v.report, Attested(env, v))
    && v.seen <= v.asked < v.seen + 30_000_000_000 && v.seen <= v.handed < v.seen + 30_000_000_000
  }

  /** Nothing is under way on the visit's socket or for its key, the worker is idle, and there is room. */
  predicate Idle(env: Env, s: State, v: Visit) {
    && NoneKnows(s, v.key) && !s.stopping && s.queue == [] && s.inFlight.None? && |s.records| < env.expected
    && (forall i | 0 <= i < |s.cache| ::
          && !KnowsReport(s.cache[i], v.flow, v.reportKey, v.cookie)
          && !LacksClient(s.cache[i], v.flow, v.cookie) && !LacksServer(s.cache[i], v.flow, v.cookie))
    && (exists i | 0 <= i < |s.cache| :: !s.cache[i].Live?)
  }

  function Hellos(env: Env, s: State, v: Visit): State
    requires |s.cache| == CACHE_CAPACITY && |s.index| == INDEX_CAPACITY
  {
    var t := Step(env, s, SawClientHello(v.flow, v.key, v.seen, v.cookie));
    Step(env, t, SawServerHello(v.flow, v.reportKey, v.answered, v.cookie, v.start, v.done))
  }

  function Request(v: Visit): Event {
    TriedRequest(v.key, v.nonce, v.began, v.asked, Some(v.cookie), false, v.start, v.done)
  }

  function Fetch(v: Visit): Event {
    TriedDelivery(v.key, v.nonce, v.handed, Some(v.cookie), false)
  }

  /** After the request the report is made. */
  function Made(env: Env, s: State, v: Visit): (t: State)
    requires |s.cache| == CACHE_CAPACITY && |s.index| == INDEX_CAPACITY
    ensures |t.cache| == CACHE_CAPACITY && |t.index| == INDEX_CAPACITY
  {
    Step(env, Step(env, s, TookJob), FinishedJob(true, v.report, v.finished))
  }

  /** And handed over. */
  function Fetched(env: Env, s: State, v: Visit): State
    requires |s.cache| == CACHE_CAPACITY && |s.index| == INDEX_CAPACITY
  {
    Step(env, Made(env, s, v), Fetch(v))
  }

  /** The whole session: both hellos, the request, the report, the delivery. */
  function Served(env: Env, s: State, v: Visit): State
    requires |s.cache| == CACHE_CAPACITY && |s.index| == INDEX_CAPACITY
  {
    Fetched(env, Step(env, Hellos(env, s, v), Request(v)), v)
  }

  /** The entry at the end of the session, in slot i. */
  predicate Complete(env: Env, u: State, i: nat, v: Visit) {
    && i < |u.cache| && Knows(u.cache[i], v.key)
    && var e := u.cache[i].entry;
       && e.flow == v.flow && e.cookie == v.cookie && e.reportKey == v.reportKey && e.nonce == v.nonce
       && e.requestReceived && e.attestKey == Attested(env, v) && e.lookupObservedNs == v.seen
  }

  /** After the hellos: both in one entry, not yet requested; one-way its job is queued. */
  lemma HellosMeet(env: Env, s: State, v: Visit) returns (i: nat)
    requires Inv(env, s) && Idle(env, s, v) && InTime(env, v)
    ensures var u := Hellos(env, s, v);
            && Inv(env, u) && i < |u.cache| && Knows(u.cache[i], v.key)
            && u == s.(cache := u.cache, index := u.index, queue := u.queue)
            && var e := u.cache[i].entry;
               && e.hasReport && e.flow == v.flow && e.cookie == v.cookie && e.reportKey == v.reportKey
               && !e.requestReceived && !e.ready && !e.delivered && e.lookupObservedNs == v.seen
               && (if env.mutual then e.startNs == 0 && u.queue == []
                   else e.startNs > 0 && e.attestKey == v.reportKey && u.queue == [Job(i, v.flow, v.reportKey)])
  {
    hide ObserveLookup, ObserveReport, Inv;
    InvSized(env, s);
    var t := Step(env, s, SawClientHello(v.flow, v.key, v.seen, v.cookie));
    LookupAnswer(env, s, v.flow, v.key, v.seen, v.cookie);
    StepKeeps(env, s, SawClientHello(v.flow, v.key, v.seen, v.cookie));
    i :| Stored(s, t, i, v.flow, v.key, v.seen, v.cookie);
    assert LacksServer(t.cache[i], v.flow, v.cookie);
    var u := Hellos(env, s, v);
    InvSized(env, t);
    ReportAnswer(env, t, v.flow, v.reportKey, v.answered, v.cookie, v.start, v.done);
    StepKeeps(env, t, SawServerHello(v.flow, v.reportKey, v.answered, v.cookie, v.start, v.done));
    forall j | 0 <= j < |t.cache| ensures !KnowsReport(t.cache[j], v.flow, v.reportKey, v.cookie) {
      assert j != i ==> t.cache[j] == s.cache[j];
    }
    var ok := ObserveReport(env, t, v.flow, v.reportKey, v.answered, v.cookie, v.start, v.done).1;
    var j :| Reported(env, t, u, ok, j, v.flow, v.reportKey, v.answered, v.cookie, v.start, v.done);
    assert j == i;
  }

  lemma InvSized(env: Env, s: State)
    requires Inv(env, s)
    ensures |s.cache| == CACHE_CAPACITY && |s.index| == INDEX_CAPACITY
  {
  }

  /** The request is granted, and the one job is for its report. */
  lemma RequestGranted(env: Env, h: State, i: nat, v: Visit)
    requires Inv(env, h) && InTime(env, v) && i < |h.cache| && Knows(h.cache[i], v.key)
    requires !h.stopping && h.inFlight.None?
    requires var e := h.cache[i].entry;
             && e.hasReport && e.flow == v.flow && e.cookie == v.cookie && e.reportKey == v.reportKey
             && !e.requestReceived && !e.ready && !e.delivered && e.lookupObservedNs == v.seen
             && (if env.mutual then e.startNs == 0 && h.queue == []
                 else e.startNs > 0 && e.attestKey == v.reportKey && h.queue == [Job(i, v.flow, v.reportKey)])
    ensures |h.cache| == CACHE_CAPACITY && |h.index| == INDEX_CAPACITY
    ensures var t := Step(env, h, Request(v));
            && Inv(env, t) && Complete(env, t, i, v) && t.queue == [Job(i, v.flow, Attested(env, v))]
            && t == h.(cache := t.cache, queue := t.queue)
    ensures Register(env, h, v.key, v.nonce, v.began, v.asked, Some(v.cookie), false, v.start, v.done).1 == Some(Okay)
  {
    hide Inv, Register;
    InvSized(env, h);
    RegisterAnswer(env, h, v.key, v.nonce, v.began, v.asked, Some(v.cookie), false, v.start, v.done);
    StepKeeps(env, h, Request(v));
  }

  /** The report is made and handed over. */
  lemma ReportFetched(env: Env, t: State, i: nat, v: Visit)
    requires Inv(env, t) && InTime(env, v) && Complete(env, t, i, v)
    requires t.inFlight.None? && t.queue == [Job(i, v.flow, Attested(env, v))]
    ensures |t.cache| == CACHE_CAPACITY && |t.index| == INDEX_CAPACITY
    ensures var u := Fetched(env, t, v);
            && Inv(env, u) && Complete(env, u, i, v) && u.records == t.records
            && u.cache[i].entry.ready && u.cache[i].entry.report == v.report && u.cache[i].entry.delivered
            && Deliver(Made(env, t, v), v.key, v.nonce, v.handed, Some(v.cookie), false).1
               == Delivered(u.cache[i].entry)
  {
    hide Inv, FinishJob, TakeJob, Deliver;
    InvSized(env, t);
    NotYetDelivered(env, t, i);
    WorkerAnswer(env, t, true, v.report, v.finished);
    StepKeeps(env, t, TookJob);
    var w := Step(env, t, TookJob);
    InvSized(env, w);
    WorkerAnswer(env, w, true, v.report, v.finished);
    StepKeeps(env, w, FinishedJob(true, v.report, v.finished));
    var f := Step(env, w, FinishedJob(true, v.report, v.finished));
    InvSized(env, f);
    DeliverAnswer(env, f, v.key, v.nonce, v.handed, Some(v.cookie), false);
    StepKeeps(env, f, Fetch(v));
  }

  /** An entry with a job outstanding has no report yet. */
  lemma NotYetDelivered(env: Env, t: State, i: nat)
    requires Inv(env, t) && t.inFlight.None? && t.queue != [] && t.queue[0].slot == i
    ensures i < |t.cache| && t.cache[i].Live? && !t.cache[i].entry.ready && !t.cache[i].entry.delivered
  {
    assert JobOk(t.cache, Outstanding(t)[0]);
    assert EntryOk(env, t.cache[i].entry);
  }

  /** From any state with nothing under way on its socket, a timely session is served in both modes:
      the delivery hands over the report that was made for it, to the nonce that asked. */
  lemma SessionServed(env: Env, s: State, v: Visit) returns (i: nat)
    requires Inv(env, s) && Idle(env, s, v) && InTime(env, v)
    ensures |s.cache| == CACHE_CAPACITY && |s.index| == INDEX_CAPACITY
    ensures var u := Served(env, s, v);
            && Inv(env, u) && Complete(env, u, i, v)
            && u.cache[i].entry.ready && u.cache[i].entry.report == v.report && u.cache[i].entry.delivered
            && u.records == s.records
  {
    hide Inv, Hellos, Step, Fetched, Complete, InTime;
    InvSized(env, s);
    i := HellosMeet(env, s, v);
    var h := Hellos(env, s, v);
    RequestGranted(env, h, i, v);
    ReportFetched(env, Step(env, h, Request(v)), i, v);
  }

  /** And its verdict is recorded with the client's own answer. */
  lemma SessionRecorded(env: Env, s: State, v: Visit, admitted: bool, vouched: bool)
    requires Inv(env, s) && Idle(env, s, v) && InTime(env, v)
    ensures var u := Step(env, Served(env, s, v), GotVerdict(v.key, v.key, admitted, vouched));
            && |u.records| == |s.records| + 1 && s.records <= u.records
            && var r := u.records[|s.records|];
               && r.session == |s.records| + 1 && r.admitted == admitted && r.clientReportVerified == vouched
               && r.entry.lookupKey == v.key && r.entry.reportKey == v.reportKey && r.entry.nonce == v.nonce
               && r.entry.flow == v.flow && r.entry.cookie == v.cookie && r.entry.report == v.report
  {
    hide Inv, Served, RecordVerdict;
    InvSized(env, s);
    var i := SessionServed(env, s, v);
    InvSized(env, Served(env, s, v));
    VerdictAnswer(env, Served(env, s, v), v.key, 0, v.key, admitted, vouched);
  }
}
