/** The server agent's rendezvous cache as a state machine on values. Each step is one body the
    agent runs under cache_mutex (with job_mutex taken inside it where a report is enqueued); the
    clock, the kernel's socket cookie and the report generator are inputs of the step. */
module Rendezvous {
  import opened Basics
  import opened ProbeTable

  const CACHE_CAPACITY: nat := 8192
  const INDEX_CAPACITY: nat := 16384
  const JOB_CAPACITY: nat := 8192
  const WINDOW_NS: nat := 30_000_000_000

  type CacheSlot = i: nat | i < CACHE_CAPACITY
  type IndexSlot = i: nat | i < INDEX_CAPACITY

  /** Configuration and the functions the agent is generic in: both table hashes, the two key
      derivations of mutual mode, and report verification. */
  datatype Env = Env(
    mutual: bool,
    expected: nat,
    routeHash: Flow -> CacheSlot,
    keyHash: Key -> IndexSlot,
    clientReportKey: (Key, nat) -> Key,
    serverReportKey: (Key, Key) -> Key,
    verify: (Report, Key) -> bool)

  datatype Entry = Entry(
    hasLookup: bool, lookupObserved: bool, requestReceived: bool, hasReport: bool,
    ready: bool, delivered: bool,
    flow: Flow, cookie: nat, lookupKey: Key, reportKey: Key, attestKey: Key, report: Report,
    nonce: nat, observedNs: nat, lookupObservedNs: nat, startNs: nat, doneNs: nat,
    requestNs: nat, responseNs: nat)

  const BLANK := Entry(false, false, false, false, false, false, Flow(0, 0, 0, 0), 0,
                       Key(0), Key(0), Key(0), Report(0), 0, 0, 0, 0, 0, 0, 0)

  datatype IndexEntry = IndexEntry(key: Key, slot: nat)

  datatype Job = Job(slot: nat, flow: Flow, reportKey: Key)

  /** A completed session; entry is the cache entry it was copied from. */
  datatype Record = Record(session: nat, admitted: bool, clientReportVerified: bool, entry: Entry)

  datatype Status = Okay | NotFound | BadBinding | Internal | ClientReportInvalid

  datatype State = State(
    cache: seq<Cell<Entry>>,
    index: seq<Cell<IndexEntry>>,
    queue: seq<Job>,
    inFlight: Option<Job>,
    stopping: bool,
    records: seq<Record>)

  function Init(): State {
    State(Empty(CACHE_CAPACITY), Empty(INDEX_CAPACITY), [], None, false, [])
  }

  // ----- what the searches look for -----

  function Home(env: Env): Entry -> nat { (e: Entry) => env.routeHash(e.flow) }

  function KeyHome(env: Env): IndexEntry -> nat { (x: IndexEntry) => env.keyHash(x.key) }

  function WithLookup(key: Key): Entry -> bool { (e: Entry) => e.hasLookup && e.lookupKey == key }

  function Indexed(key: Key): IndexEntry -> bool { (x: IndexEntry) => x.key == key }

  function Orphan(flow: Flow, cookie: nat): Entry -> bool {
    (e: Entry) => e.cookie == cookie && !e.hasLookup && e.hasReport && e.flow == flow
  }

  function Placeholder(flow: Flow, cookie: nat): Entry -> bool {
    (e: Entry) => e.cookie == cookie && e.hasLookup && e.lookupObserved && !e.hasReport && e.flow == flow
  }

  function Generation(flow: Flow, reportKey: Key, cookie: nat): Entry -> bool {
    (e: Entry) => e.cookie == cookie && e.hasReport && e.flow == flow && e.reportKey == reportKey
  }

  function ReportTime(): Entry -> nat { (e: Entry) => e.observedNs }

  function LookupTime(): Entry -> nat { (e: Entry) => e.lookupObservedNs }

  // ----- the steps -----

  /** The live entry a lookup key names. */
  function Find(s: State, key: Key): Option<nat> {
    FindMatch(s.cache, WithLookup(key))
  }

  /** The contents of a slot about to be filled: a live entry is amended, any other cell is
      cleared first. */
  function Base(cache: seq<Cell<Entry>>, slot: nat): Entry
    requires slot < |cache|
  {
    if cache[slot].Live? then cache[slot].entry else BLANK
  }

  function InsertIndex(env: Env, index: seq<Cell<IndexEntry>>, key: Key, slot: nat): Option<seq<Cell<IndexEntry>>>
    requires |index| == INDEX_CAPACITY
  {
    match FindMatch(index, Indexed(key))
    case Some(j) => if index[j].entry.slot == slot then Some(index) else None
    case None =>
      match FreeSlot(index, env.keyHash(key))
      case None => None
      case Some(j) => Some(index[j := Live(IndexEntry(key, slot))])
  }

  function DeleteIndex(index: seq<Cell<IndexEntry>>, key: Key): seq<Cell<IndexEntry>> {
    match FindMatch(index, Indexed(key))
    case None => index
    case Some(j) => index[j := Tombstone]
  }

  /** The key the report for an entry is requested under. */
  function Attest(env: Env, e: Entry): Key {
    if env.mutual then env.serverReportKey(e.reportKey, env.clientReportKey(e.lookupKey, e.nonce))
    else e.reportKey
  }

  predicate Due(env: Env, e: Entry) {
    e.startNs == 0 && e.hasReport && (env.mutual ==> e.requestReceived)
  }

  /** schedule_report_locked. */
  function Schedule(env: Env, s: State, slot: nat, start: nat, done: nat): (State, bool)
    requires slot < |s.cache| && s.cache[slot].Live?
  {
    var e := s.cache[slot].entry;
    if !Due(env, e) then (s, true)
    else
      var begun := e.(attestKey := Attest(env, e), startNs := start);
      if |s.queue| < JOB_CAPACITY && !s.stopping then
        (s.(cache := s.cache[slot := Live(begun)], queue := s.queue + [Job(slot, e.flow, begun.attestKey)]), true)
      else
        (s.(cache := s.cache[slot := Live(begun.(doneNs := done))]), false)
  }

  function LookupTarget(env: Env, s: State, flow: Flow, key: Key, cookie: nat): Option<nat>
    requires |s.cache| == CACHE_CAPACITY
  {
    var found := Find(s, key);
    if found.Some? then found
    else
      var orphan := NewestMatch(s.cache, env.routeHash(flow), Orphan(flow, cookie), ReportTime(), |s.cache|);
      if orphan.Some? then orphan else FreeSlot(s.cache, env.routeHash(flow))
  }

  function LookupFilled(e: Entry, flow: Flow, key: Key, t: nat, cookie: nat): Entry {
    e.(flow := flow, cookie := cookie, hasLookup := true, lookupObserved := true, lookupKey := key,
       lookupObservedNs := t)
  }

  /** observe_lookup_key: a ClientHello was seen. */
  function ObserveLookup(env: Env, s: State, flow: Flow, key: Key, t: nat, cookie: nat): (State, bool)
    requires |s.cache| == CACHE_CAPACITY && |s.index| == INDEX_CAPACITY
  {
    var found := Find(s, key);
    if found.Some? && s.cache[found.value].entry.lookupObserved then
      (s, s.cache[found.value].entry.flow == flow && s.cache[found.value].entry.cookie == cookie)
    else
      match LookupTarget(env, s, flow, key, cookie)
      case None => (s, false)
      case Some(slot) =>
        match InsertIndex(env, s.index, key, slot)
        case None => (s.(cache := s.cache[slot := Tombstone]), false)
        case Some(index) =>
          var filled := LookupFilled(Base(s.cache, slot), flow, key, t, cookie);
          (s.(cache := s.cache[slot := Live(filled)], index := index), true)
  }

  function ReportTarget(env: Env, s: State, flow: Flow, cookie: nat): Option<nat>
    requires |s.cache| == CACHE_CAPACITY
  {
    var placeholder := NewestMatch(s.cache, env.routeHash(flow), Placeholder(flow, cookie), LookupTime(), |s.cache|);
    if placeholder.Some? then placeholder else FreeSlot(s.cache, env.routeHash(flow))
  }

  function ReportFilled(e: Entry, flow: Flow, key: Key, t: nat, cookie: nat): Entry {
    e.(flow := flow, hasReport := true, cookie := cookie, reportKey := key, observedNs := t)
  }

  /** observe_report_key: a ServerHello was seen. */
  function ObserveReport(env: Env, s: State, flow: Flow, key: Key, t: nat, cookie: nat, start: nat,
                         done: nat): (State, bool)
    requires |s.cache| == CACHE_CAPACITY
  {
    if FindMatch(s.cache, Generation(flow, key, cookie)).Some? then (s, true)
    else
      match ReportTarget(env, s, flow, cookie)
      case None => (s, false)
      case Some(slot) =>
        var filled := s.(cache := s.cache[slot := Live(ReportFilled(Base(s.cache, slot), flow, key, t, cookie))]);
        Schedule(env, filled, slot, start, done)
  }

  /** The report worker takes the oldest job. */
  function TakeJob(s: State): State {
    if s.inFlight.None? && s.queue != [] then s.(inFlight := Some(s.queue[0]), queue := s.queue[1..]) else s
  }

  /** The worker's re-check, under the mutex, that the slot still holds the entry it worked for. */
  predicate StillWanted(s: State, job: Job) {
    && job.slot < |s.cache| && s.cache[job.slot].Live?
    && s.cache[job.slot].entry.flow == job.flow && s.cache[job.slot].entry.attestKey == job.reportKey
  }

  function Finished(e: Entry, ok: bool, report: Report, finished: nat): Entry {
    if ok then e.(report := report, ready := true, doneNs := finished) else e.(doneNs := finished)
  }

  function FinishJob(s: State, ok: bool, report: Report, finished: nat): State {
    if s.inFlight.None? then s
    else
      var job := s.inFlight.value;
      if StillWanted(s, job) then
        s.(inFlight := None,
           cache := s.cache[job.slot := Live(Finished(s.cache[job.slot].entry, ok, report, finished))])
      else s.(inFlight := None)
  }

  /** The lookup observation is too old, or the flow's socket is no longer the one it was seen on.
      Subtraction is modulo 2^64, so a time before the observation also counts as too old. */
  predicate Stale(e: Entry, now: nat, cookieNow: Option<nat>) {
    now < e.lookupObservedNs || now - e.lookupObservedNs >= WINDOW_NS || cookieNow != Some(e.cookie)
  }

  /** One pass of register_request's loop; None means it waits and tries again. */
  function Register(env: Env, s: State, key: Key, nonce: nat, began: nat, now: nat, cookieNow: Option<nat>,
                    expired: bool, start: nat, done: nat): (State, Option<Status>)
  {
    var found := Find(s, key);
    if found.Some? && s.cache[found.value].entry.lookupObserved && !s.cache[found.value].entry.requestReceived then
      var e := s.cache[found.value].entry;
      if Stale(e, now, cookieNow) then (s, Some(BadBinding))
      else
        var registered := e.(requestReceived := true, requestNs := began, nonce := nonce);
        var asked := s.(cache := s.cache[found.value := Live(registered)]);
        var r := Schedule(env, asked, found.value, start, done);
        (r.0, Some(if r.1 then Okay else Internal))
    else if found.Some? && s.cache[found.value].entry.requestReceived then (s, Some(BadBinding))
    else if s.stopping || expired then (s, Some(NotFound))
    else (s, None)
  }

  datatype Delivery = Waiting | Refused(status: Status) | Delivered(snapshot: Entry)

  /** One pass of wait_for_report's loop. */
  function Deliver(s: State, key: Key, nonce: nat, now: nat, cookieNow: Option<nat>, expired: bool): (State, Delivery) {
    var found := Find(s, key);
    if found.Some? && Deliverable(s.cache[found.value].entry) then
      var e := s.cache[found.value].entry;
      if e.nonce != nonce || Stale(e, now, cookieNow) then (s, Refused(BadBinding))
      else
        var sent := e.(delivered := true);
        (s.(cache := s.cache[found.value := Live(sent)]), Delivered(sent))
    else if found.Some? && s.cache[found.value].entry.doneNs != 0 && !s.cache[found.value].entry.ready then
      (s, Refused(Internal))
    else if s.stopping || expired then (s, Refused(NotFound))
    else (s, Waiting)
  }

  predicate Deliverable(e: Entry) {
    e.requestReceived && e.ready && !e.delivered
  }

  /** mark_response_sent. */
  function MarkSent(s: State, key: Key, now: nat): State {
    var found := Find(s, key);
    if found.Some? && s.cache[found.value].entry.delivered then
      s.(cache := s.cache[found.value := Live(s.cache[found.value].entry.(responseNs := now))])
    else s
  }

  /** record_verdict: the session is recorded and its slot recycled. */
  function RecordVerdict(env: Env, s: State, key: Key, verdictKey: Key, verified: bool, clientVerified: bool): State {
    var found := Find(s, key);
    if found.None? || !s.cache[found.value].entry.delivered || s.cache[found.value].entry.lookupKey != verdictKey
       || |s.records| >= env.expected then s
    else
      s.(cache := s.cache[found.value := Tombstone],
         index := DeleteIndex(s.index, s.cache[found.value].entry.lookupKey),
         records := s.records + [Record(|s.records| + 1, verified, clientVerified, s.cache[found.value].entry)])
  }

  // ----- runs -----

  datatype Event =
    | SawClientHello(flow: Flow, key: Key, t: nat, cookie: nat)
    | SawServerHello(flow: Flow, key: Key, t: nat, cookie: nat, start: nat, done: nat)
    | TookJob
    | FinishedJob(ok: bool, report: Report, finished: nat)
    | TriedRequest(key: Key, nonce: nat, began: nat, now: nat, cookieNow: Option<nat>, expired: bool, start: nat,
                   done: nat)
    | TriedDelivery(key: Key, nonce: nat, now: nat, cookieNow: Option<nat>, expired: bool)
    | SentResponse(key: Key, now: nat)
    | GotVerdict(key: Key, verdictKey: Key, verified: bool, clientVerified: bool)
    | StopRequested

  /** What the environment promises: the monotonic clock never reads 0, and a report the generator
      says it made verifies under the key it was made for. */
  predicate Allowed(env: Env, s: State, ev: Event) {
    match ev
    case SawServerHello(_, _, _, _, start, done) => start > 0 && done > 0
    case FinishedJob(ok, report, finished) =>
      finished > 0 && (ok && s.inFlight.Some? ==> env.verify(report, s.inFlight.value.reportKey))
    case TriedRequest(_, _, _, _, _, _, start, done) => start > 0 && done > 0
    case _ => true
  }

  function Step(env: Env, s: State, ev: Event): (t: State)
    requires |s.cache| == CACHE_CAPACITY && |s.index| == INDEX_CAPACITY
    ensures |t.cache| == CACHE_CAPACITY && |t.index| == INDEX_CAPACITY
  {
    match ev
    case SawClientHello(flow, key, t, cookie) => ObserveLookup(env, s, flow, key, t, cookie).0
    case SawServerHello(flow, key, t, cookie, start, done) => ObserveReport(env, s, flow, key, t, cookie, start, done).0
    case TookJob => TakeJob(s)
    case FinishedJob(ok, report, finished) => FinishJob(s, ok, report, finished)
    case TriedRequest(key, nonce, began, now, cookieNow, expired, start, done) =>
      Register(env, s, key, nonce, began, now, cookieNow, expired, start, done).0
    case TriedDelivery(key, nonce, now, cookieNow, expired) => Deliver(s, key, nonce, now, cookieNow, expired).0
    case SentResponse(key, now) => MarkSent(s, key, now)
    case GotVerdict(key, verdictKey, verified, clientVerified) =>
      RecordVerdict(env, s, key, verdictKey, verified, clientVerified)
    case StopRequested => s.(stopping := true)
  }
}
