/** The server agent itself: the cache, the lookup index and the job ring as arrays updated in
    place, with the probe loops of the C code. Every method is one critical section and is proved
    to take exactly the step the state machine of module Rendezvous takes; the invariant is what
    lets the probe loops stop early and the index stand in for a scan. */
module ServerAgent {
  import opened Basics
  import opened ProbeTable
  import opened JobRing
  import opened Rendezvous
  import opened RendezvousInvariant

  class Server {
    const env: Env
    const cache: array<Cell<Entry>>
    const lookupIndex: array<Cell<IndexEntry>>
    const jobs: Ring<Job>
    var inFlight: Option<Job>
    var stopping: bool
    var records: seq<Record>

    ghost predicate Shape()
      reads this, jobs, jobs.data
    {
      && cache.Length == CACHE_CAPACITY && lookupIndex.Length == INDEX_CAPACITY
      && jobs.Valid() && jobs.data.Length == JOB_CAPACITY
      && cache as object != lookupIndex && cache as object != jobs.data && lookupIndex as object != jobs.data
    }

    ghost function Abs(): State
      reads this, cache, lookupIndex, jobs, jobs.data
      requires Shape()
    {
      State(cache[..], lookupIndex[..], jobs.Contents(), inFlight, stopping, records)
    }

    ghost predicate Valid()
      reads this, cache, lookupIndex, jobs, jobs.data
    {
      Shape() && Inv(env, Abs())
    }

    constructor (env: Env)
      ensures Valid() && this.env == env && Abs() == Init()
      ensures fresh(cache) && fresh(lookupIndex) && fresh(jobs) && fresh(jobs.data)
    {
      this.env := env;
      cache := new Cell<Entry>[CACHE_CAPACITY](_ => Vacant);
      lookupIndex := new Cell<IndexEntry>[INDEX_CAPACITY](_ => Vacant);
      jobs := new Ring<Job>(JOB_CAPACITY, Job(0, Flow(0, 0, 0, 0), Key(0)));
      inFlight, stopping, records := None, false, [];
      new;
      assert cache[..] == Init().cache && lookupIndex[..] == Init().index;
      InitOk(env);
    }

    /** find_lookup_entry: through the index, yet the same as scanning the cache. */
    method FindLookupEntry(key: Key) returns (r: Option<nat>)
      requires Valid()
      ensures r == Find(Abs(), key)
    {
      ghost var s := Abs();
      CoveredBySameHome(s.index, KeyHome(env), env.keyHash(key), Indexed(key));
      IndexAgreesWithScan(env, s.cache, s.index, key);
      var x := ProbeFirst(lookupIndex, env.keyHash(key), Indexed(key));
      if x.None? {
        return None;
      }
      var slot := lookupIndex[x.value].entry.slot;
      IndexKeyUnique(env, s.index, key, x.value);
      if slot >= cache.Length || !cache[slot].Live? || !cache[slot].entry.hasLookup
         || cache[slot].entry.lookupKey != key {
        return None;
      }
      return Some(slot);
    }

    /** insert_lookup_index. */
    method InsertLookupIndex(key: Key, slot: nat) returns (ok: bool)
      requires lookupIndex.Length == INDEX_CAPACITY && IndexProper(env, lookupIndex[..])
      modifies lookupIndex
      ensures var r := InsertIndex(env, old(lookupIndex[..]), key, slot);
              ok == r.Some? && lookupIndex[..] == if ok then r.value else old(lookupIndex[..])
    {
      ghost var view := lookupIndex[..];
      CoveredBySameHome(view, KeyHome(env), env.keyHash(key), Indexed(key));
      var found, at := ProbeMatchOrFree(lookupIndex, env.keyHash(key), Indexed(key));
      if found {
        IndexKeyUnique(env, view, key, at.value);
        return lookupIndex[at.value].entry.slot == slot;
      }
      if at.None? {
        return false;
      }
      lookupIndex[at.value] := Live(IndexEntry(key, slot));
      return true;
    }

    /** delete_lookup_index. */
    method DeleteLookupIndex(key: Key)
      requires lookupIndex.Length == INDEX_CAPACITY && IndexProper(env, lookupIndex[..])
      modifies lookupIndex
      ensures lookupIndex[..] == DeleteIndex(old(lookupIndex[..]), key)
    {
      ghost var view := lookupIndex[..];
      CoveredBySameHome(view, KeyHome(env), env.keyHash(key), Indexed(key));
      var x := ProbeFirst(lookupIndex, env.keyHash(key), Indexed(key));
      if x.Some? {
        IndexKeyUnique(env, view, key, x.value);
        lookupIndex[x.value] := Tombstone;
      }
    }

    /** observe_lookup_key. */
    method ObserveLookupKey(flow: Flow, key: Key, t: nat, cookie: nat) returns (ok: bool)
      requires Valid()
      modifies cache, lookupIndex
      ensures Valid() && (Abs(), ok) == ObserveLookup(env, old(Abs()), flow, key, t, cookie)
    {
      ghost var s := Abs();
      ObserveLookupKeeps(env, s, flow, key, t, cookie);
      var found := FindLookupEntry(key);
      if found.Some? && cache[found.value].entry.lookupObserved {
        return cache[found.value].entry.flow == flow && cache[found.value].entry.cookie == cookie;
      }
      var target := found;
      if target.None? {
        target := LookupPlace(flow, key, cookie);
        if target.None? {
          return false;
        }
      }
      ok := FillLookup(target.value, flow, key, t, cookie);
    }

    /** The end of observe_lookup_key: the entry is filled and indexed, or given up. */
    method FillLookup(slot: nat, flow: Flow, key: Key, t: nat, cookie: nat) returns (ok: bool)
      requires Shape() && slot < cache.Length && IndexProper(env, lookupIndex[..])
      modifies cache, lookupIndex
      ensures var r := InsertIndex(env, old(lookupIndex[..]), key, slot);
              var filled := LookupFilled(Base(old(cache[..]), slot), flow, key, t, cookie);
              && ok == r.Some?
              && lookupIndex[..] == (if ok then r.value else old(lookupIndex[..]))
              && cache[..] == old(cache[..])[slot := if ok then Live(filled) else Tombstone]
    {
      ghost var view := cache[..];
      var entry := if cache[slot].Live? then cache[slot].entry else BLANK;
      cache[slot] := Live(LookupFilled(entry, flow, key, t, cookie));
      ok := InsertLookupIndex(key, slot);
      if !ok {
        cache[slot] := Tombstone;
        assert cache[..] == view[slot := Tombstone];
      }
    }

    /** The searches of observe_lookup_key for a key not in the cache: the newest report orphan,
        else a free slot. */
    method LookupPlace(flow: Flow, key: Key, cookie: nat) returns (target: Option<nat>)
      requires Valid() && Find(Abs(), key).None?
      ensures target == LookupTarget(env, Abs(), flow, key, cookie)
    {
      CoveredBySameHome(cache[..], Home(env), env.routeHash(flow), Orphan(flow, cookie));
      target := ProbeNewest(cache, env.routeHash(flow), Orphan(flow, cookie), ReportTime());
      if target.None? {
        target := ProbeFree(cache, env.routeHash(flow));
      }
    }

    /** enqueue_report. */
    method EnqueueReport(job: Job) returns (ok: bool)
      requires Shape()
      modifies jobs, jobs.data
      ensures Shape() && ok == (|old(jobs.Contents())| < JOB_CAPACITY && !stopping)
      ensures jobs.Contents() == if ok then old(jobs.Contents()) + [job] else old(jobs.Contents())
    {
      ok := false;
      if !stopping {
        ok := jobs.Push(job);
      }
    }

    /** schedule_report_locked; start and done are its clock readings. */
    method ScheduleReport(slot: nat, start: nat, done: nat) returns (ok: bool)
      requires Shape() && slot < cache.Length && cache[slot].Live?
      modifies cache, jobs, jobs.data
      ensures Shape() && (Abs(), ok) == Schedule(env, old(Abs()), slot, start, done)
    {
      ghost var s := Abs();
      var entry := cache[slot].entry;
      if entry.startNs != 0 || !entry.hasReport || (env.mutual && !entry.requestReceived) {
        return true;
      }
      if env.mutual {
        var clientKey := env.clientReportKey(entry.lookupKey, entry.nonce);
        entry := entry.(attestKey := env.serverReportKey(entry.reportKey, clientKey));
      } else {
        entry := entry.(attestKey := entry.reportKey);
      }
      entry := entry.(startNs := start);
      ok := EnqueueReport(Job(slot, entry.flow, entry.attestKey));
      if !ok {
        entry := entry.(doneNs := done);
      }
      cache[slot] := Live(entry);
      assert cache[..] == s.cache[slot := Live(entry)];
    }

    /** observe_report_key. */
    method ObserveReportKey(flow: Flow, key: Key, t: nat, cookie: nat, start: nat, done: nat) returns (ok: bool)
      requires Valid() && start > 0 && done > 0
      modifies cache, jobs, jobs.data
      ensures Valid() && (Abs(), ok) == ObserveReport(env, old(Abs()), flow, key, t, cookie, start, done)
    {
      hide IndexOk, JobsOk, EntryOk, Compatible, WellProbed, FindMatch, Schedule, jobs.Contents;
      ghost var s := Abs();
      ObserveReportKeeps(env, s, flow, key, t, cookie, start, done);
      CoveredBySameHome(s.cache, Home(env), env.routeHash(flow), Generation(flow, key, cookie));
      var known := ProbeFirst(cache, env.routeHash(flow), Generation(flow, key, cookie));
      if known.Some? {
        return true;
      }
      var target := ReportPlace(flow, cookie);
      if target.None? {
        return false;
      }
      var slot := target.value;
      var entry := if cache[slot].Live? then cache[slot].entry else BLANK;
      cache[slot] := Live(ReportFilled(entry, flow, key, t, cookie));
      ok := ScheduleReport(slot, start, done);
    }

    /** The searches of observe_report_key for a new key: the newest placeholder, else a free slot. */
    method ReportPlace(flow: Flow, cookie: nat) returns (target: Option<nat>)
      requires Valid()
      ensures target == ReportTarget(env, Abs(), flow, cookie)
    {
      CoveredBySameHome(cache[..], Home(env), env.routeHash(flow), Placeholder(flow, cookie));
      target := ProbeNewest(cache, env.routeHash(flow), Placeholder(flow, cookie), LookupTime());
      if target.None? {
        target := ProbeFree(cache, env.routeHash(flow));
      }
    }

    /** report_worker_main, first critical section. */
    method DequeueJob()
      requires Valid()
      modifies `inFlight, jobs
      ensures Valid() && Abs() == TakeJob(old(Abs()))
    {
      ghost var s := Abs();
      StepKeeps(env, s, TookJob);
      if inFlight.None? {
        inFlight := jobs.Pop();
      }
    }

    /** report_worker_main, second critical section. */
    method CompleteJob(ok: bool, report: Report, finished: nat)
      requires Valid() && finished > 0
      requires ok && inFlight.Some? ==> env.verify(report, inFlight.value.reportKey)
      modifies `inFlight, cache
      ensures Valid() && Abs() == FinishJob(old(Abs()), ok, report, finished)
    {
      ghost var s := Abs();
      FinishJobKeeps(env, s, ok, report, finished);
      if inFlight.Some? {
        var job := inFlight.value;
        inFlight := None;
        if job.slot < cache.Length && cache[job.slot].Live? && cache[job.slot].entry.flow == job.flow
           && cache[job.slot].entry.attestKey == job.reportKey {
          var entry := cache[job.slot].entry;
          if ok {
            entry := entry.(report := report, ready := true);
          }
          cache[job.slot] := Live(entry.(doneNs := finished));
        }
      }
    }

    /** One pass of register_request's loop. */
    method RegisterRequest(key: Key, nonce: nat, began: nat, now: nat, cookieNow: Option<nat>, expired: bool,
                           start: nat, done: nat) returns (status: Option<Status>)
      requires Valid() && start > 0 && done > 0
      modifies cache, jobs, jobs.data
      ensures Valid()
      ensures (Abs(), status) == Register(env, old(Abs()), key, nonce, began, now, cookieNow, expired, start, done)
    {
      ghost var s := Abs();
      RegisterKeeps(env, s, key, nonce, began, now, cookieNow, expired, start, done);
      var found := FindLookupEntry(key);
      if found.Some? {
        var entry := cache[found.value].entry;
        if entry.lookupObserved && !entry.requestReceived {
          if Stale(entry, now, cookieNow) {
            return Some(BadBinding);
          }
          cache[found.value] := Live(entry.(requestReceived := true, requestNs := began, nonce := nonce));
          var scheduled := ScheduleReport(found.value, start, done);
          return Some(if scheduled then Okay else Internal);
        }
        if entry.requestReceived {
          return Some(BadBinding);
        }
      }
      return if stopping || expired then Some(NotFound) else None;
    }

    /** One pass of wait_for_report's loop. */
    method WaitForReport(key: Key, nonce: nat, now: nat, cookieNow: Option<nat>,
                         expired: bool) returns (outcome: Delivery)
      requires Valid()
      modifies cache
      ensures Valid() && (Abs(), outcome) == Deliver(old(Abs()), key, nonce, now, cookieNow, expired)
    {
      ghost var s := Abs();
      DeliverKeeps(env, s, key, nonce, now, cookieNow, expired);
      var found := FindLookupEntry(key);
      if found.Some? {
        var entry := cache[found.value].entry;
        if entry.requestReceived && entry.ready && !entry.delivered {
          if entry.nonce != nonce || Stale(entry, now, cookieNow) {
            return Refused(BadBinding);
          }
          entry := entry.(delivered := true);
          cache[found.value] := Live(entry);
          return Delivered(entry);
        }
        if entry.doneNs != 0 && !entry.ready {
          return Refused(Internal);
        }
      }
      return if stopping || expired then Refused(NotFound) else Waiting;
    }

    /** mark_response_sent. */
    method MarkResponseSent(key: Key, now: nat)
      requires Valid()
      modifies cache
      ensures Valid() && Abs() == MarkSent(old(Abs()), key, now)
    {
      ghost var s := Abs();
      MarkSentKeeps(env, s, key, now);
      var found := FindLookupEntry(key);
      if found.Some? && cache[found.value].entry.delivered {
        cache[found.value] := Live(cache[found.value].entry.(responseNs := now));
      }
    }

    /** record_verdict. */
    method RecordVerdictOf(key: Key, verdictKey: Key, verified: bool, clientVerified: bool)
      requires Valid()
      modifies cache, lookupIndex, `records
      ensures Valid() && Abs() == RecordVerdict(env, old(Abs()), key, verdictKey, verified, clientVerified)
    {
      ghost var s := Abs();
      RecordVerdictKeeps(env, s, key, verdictKey, verified, clientVerified);
      var found := FindLookupEntry(key);
      if found.None? || !cache[found.value].entry.delivered || cache[found.value].entry.lookupKey != verdictKey
         || |records| >= env.expected {
        return;
      }
      var entry := cache[found.value].entry;
      records := records + [Record(|records| + 1, verified, clientVerified, entry)];
      DeleteLookupIndex(entry.lookupKey);
      cache[found.value] := Tombstone;
    }
  }

  /** At most one index cell holds a key. */
  lemma IndexKeyUnique(env: Env, index: seq<Cell<IndexEntry>>, key: Key, j: nat)
    requires IndexProper(env, index) && j < |index| && Matches(index[j], Indexed(key))
    ensures FindMatch(index, Indexed(key)) == Some(j)
  {
  }
}
