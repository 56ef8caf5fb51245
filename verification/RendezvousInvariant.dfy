/** What every step of the rendezvous cache keeps. The invariant has four parts: the entries and
    how they relate to each other (TableOk), the lookup index (IndexOk), the report jobs (JobsOk)
    and the probing discipline both tables rely on. */
module RendezvousInvariant {
  import opened Basics
  import opened ProbeTable
  import opened Rendezvous

  predicate LookupOnly(e: Entry) { e.hasLookup && !e.hasReport }
  predicate ReportOnly(e: Entry) { e.hasReport && !e.hasLookup }

  /** The history of one entry, readable from its fields alone. */
  predicate EntryOk(env: Env, e: Entry) {
    && e.lookupObserved == e.hasLookup
    && (e.hasLookup || e.hasReport)
    && (e.requestReceived ==> e.hasLookup)
    && (e.startNs > 0 <==> e.hasReport && (env.mutual ==> e.requestReceived))
    && (e.startNs > 0 ==> e.attestKey == Attest(env, e))
    && (e.doneNs > 0 ==> e.startNs > 0)
    && (e.ready ==> e.doneNs > 0 && env.verify(e.report, e.attestKey))
    && (e.delivered ==> e.ready && e.requestReceived)
  }

  /** Two live entries never share a lookup key, never share a report on one socket, and never
      wait for each other. */
  predicate Compatible(a: Entry, b: Entry) {
    && (a.hasLookup && b.hasLookup ==> a.lookupKey != b.lookupKey)
    && (a.flow == b.flow && a.cookie == b.cookie ==>
          && (a.hasReport && b.hasReport ==> a.reportKey != b.reportKey)
          && !(LookupOnly(a) && ReportOnly(b))
          && !(ReportOnly(a) && LookupOnly(b)))
  }

  ghost predicate TableOk(env: Env, cache: seq<Cell<Entry>>) {
    && |cache| == CACHE_CAPACITY
    && WellProbed(cache, Home(env))
    && (forall i | 0 <= i < |cache| && cache[i].Live? :: EntryOk(env, cache[i].entry))
    && (forall i, j | 0 <= i < |cache| && 0 <= j < |cache| && i != j && cache[i].Live? && cache[j].Live? ::
          Compatible(cache[i].entry, cache[j].entry))
  }

  /** The index cell names a live entry that holds its key. */
  predicate IndexCellOk(cache: seq<Cell<Entry>>, x: IndexEntry) {
    && x.slot < |cache| && cache[x.slot].Live?
    && cache[x.slot].entry.hasLookup && cache[x.slot].entry.lookupKey == x.key
  }

  ghost predicate IndexProper(env: Env, index: seq<Cell<IndexEntry>>) {
    && |index| == INDEX_CAPACITY
    && WellProbed(index, KeyHome(env))
    && (forall j, k | 0 <= j < |index| && 0 <= k < |index| && j != k && index[j].Live? && index[k].Live? ::
          index[j].entry.key != index[k].entry.key)
  }

  /** The index and the live entries with a lookup key are in bijection. */
  ghost predicate IndexOk(env: Env, cache: seq<Cell<Entry>>, index: seq<Cell<IndexEntry>>) {
    && IndexProper(env, index)
    && (forall j | 0 <= j < |index| && index[j].Live? :: IndexCellOk(cache, index[j].entry))
    && (forall i | 0 <= i < |cache| && cache[i].Live? && cache[i].entry.hasLookup ::
          Listed(index, cache[i].entry.lookupKey, i))
  }

  ghost predicate Listed(index: seq<Cell<IndexEntry>>, key: Key, slot: nat) {
    exists j :: 0 <= j < |index| && index[j] == Live(IndexEntry(key, slot))
  }

  /** The jobs queued or being worked on, oldest first. */
  function Outstanding(s: State): seq<Job> {
    (if s.inFlight.Some? then [s.inFlight.value] else []) + s.queue
  }

  predicate Pending(c: Cell<Entry>) {
    c.Live? && c.entry.startNs > 0 && c.entry.doneNs == 0
  }

  predicate JobOk(cache: seq<Cell<Entry>>, job: Job) {
    && job.slot < |cache| && Pending(cache[job.slot])
    && cache[job.slot].entry.flow == job.flow && cache[job.slot].entry.attestKey == job.reportKey
  }

  ghost predicate HasJob(jobs: seq<Job>, slot: nat) {
    exists k :: 0 <= k < |jobs| && jobs[k].slot == slot
  }

  /** An entry awaits its report exactly when exactly one job for its slot is outstanding. */
  ghost predicate JobsOk(cache: seq<Cell<Entry>>, jobs: seq<Job>) {
    && (forall k | 0 <= k < |jobs| :: JobOk(cache, jobs[k]))
    && (forall k, l | 0 <= k < |jobs| && 0 <= l < |jobs| && k != l :: jobs[k].slot != jobs[l].slot)
    && (forall i | 0 <= i < |cache| && Pending(cache[i]) :: HasJob(jobs, i))
  }

  ghost predicate Inv(env: Env, s: State) {
    && TableOk(env, s.cache)
    && IndexOk(env, s.cache, s.index)
    && JobsOk(s.cache, Outstanding(s))
    && |s.records| <= env.expected
  }

  // ----- consequences -----

  /** At most one job per slot, so the ring of 8192 jobs never fills: a report is refused only
      while the agent is stopping. */
  lemma QueueNeverFull(s: State, slot: nat)
    requires |s.cache| == CACHE_CAPACITY && JobsOk(s.cache, Outstanding(s))
    requires slot < |s.cache| && !Pending(s.cache[slot])
    ensures |s.queue| < JOB_CAPACITY
  {
    var jobs := Outstanding(s);
    var slots := seq(|jobs| + 1, k requires 0 <= k <= |jobs| => if k < |jobs| then jobs[k].slot else slot);
    assert forall k | 0 <= k < |jobs| :: JobOk(s.cache, jobs[k]);
    Pigeonhole(slots, CACHE_CAPACITY);
  }

  /** Distinct index cells name distinct cache slots, so at most 8192 of 16384 are live and an
      insertion always finds a place. */
  lemma IndexNeverFull(env: Env, cache: seq<Cell<Entry>>, index: seq<Cell<IndexEntry>>)
    requires |cache| == CACHE_CAPACITY && IndexProper(env, index)
    requires forall j | 0 <= j < |index| && index[j].Live? :: IndexCellOk(cache, index[j].entry)
    ensures exists j | 0 <= j < |index| :: !index[j].Live?
  {
    if forall j | 0 <= j < |index| :: index[j].Live? {
      var slots := seq(|index|, j requires 0 <= j < |index| && index[j].Live? => index[j].entry.slot);
      assert forall j | 0 <= j < |index| :: slots[j] == index[j].entry.slot && IndexCellOk(cache, index[j].entry);
      forall j, k | 0 <= j < k < |slots| ensures slots[j] != slots[k] {
        assert index[j].entry.key != index[k].entry.key;
      }
      Pigeonhole(slots, CACHE_CAPACITY);
    }
  }

  /** find_lookup_entry's path through the index agrees with scanning the cache. */
  lemma IndexAgreesWithScan(env: Env, cache: seq<Cell<Entry>>, index: seq<Cell<IndexEntry>>, key: Key)
    requires IndexOk(env, cache, index)
    ensures FindMatch(index, Indexed(key)).Some? <==> FindMatch(cache, WithLookup(key)).Some?
    ensures var x, e := FindMatch(index, Indexed(key)), FindMatch(cache, WithLookup(key));
            x.Some? && TableOk(env, cache) ==> e.Some? && index[x.value].entry.slot == e.value
  {
  }

  /** The linear scan returns the one live entry with the key. */
  lemma FindIsUnique(env: Env, cache: seq<Cell<Entry>>, key: Key, i: nat)
    requires TableOk(env, cache) && i < |cache| && Matches(cache[i], WithLookup(key))
    ensures FindMatch(cache, WithLookup(key)) == Some(i)
  {
  }

  // ----- writing one cell -----

  ghost predicate Fits(cache: seq<Cell<Entry>>, i: nat, e: Entry) {
    forall j | 0 <= j < |cache| && j != i && cache[j].Live? ::
      Compatible(e, cache[j].entry) && Compatible(cache[j].entry, e)
  }

  lemma WriteKeepsTable(env: Env, cache: seq<Cell<Entry>>, i: nat, e: Entry)
    requires TableOk(env, cache) && i < |cache| && EntryOk(env, e) && Fits(cache, i, e)
    requires cache[i].Live? ==> cache[i].entry.flow == e.flow
    requires !cache[i].Live? ==> FreeSlot(cache, env.routeHash(e.flow)) == Some(i)
    ensures TableOk(env, cache[i := Live(e)])
  {
  }

  predicate SameIdentity(a: Entry, b: Entry) {
    && a.hasLookup == b.hasLookup && a.lookupKey == b.lookupKey
    && a.hasReport == b.hasReport && a.reportKey == b.reportKey
    && a.flow == b.flow && a.cookie == b.cookie
  }

  /** A change that touches neither keys, flow nor cookie keeps the table. */
  lemma AmendKeepsTable(env: Env, cache: seq<Cell<Entry>>, i: nat, e: Entry)
    requires TableOk(env, cache)
    requires i < |cache| && cache[i].Live? && SameIdentity(cache[i].entry, e) && EntryOk(env, e)
    ensures TableOk(env, cache[i := Live(e)])
  {
  }

  lemma RemoveKeepsTable(env: Env, cache: seq<Cell<Entry>>, i: nat)
    requires TableOk(env, cache) && i < |cache|
    ensures TableOk(env, cache[i := Tombstone])
  {
  }

  /** A write that gives no entry a lookup key and takes none away keeps the bijection. */
  lemma WriteKeepsIndex(env: Env, cache: seq<Cell<Entry>>, index: seq<Cell<IndexEntry>>, i: nat, e: Entry)
    requires IndexOk(env, cache, index) && i < |cache|
    requires cache[i].Live? ==> cache[i].entry.hasLookup == e.hasLookup && cache[i].entry.lookupKey == e.lookupKey
    requires !cache[i].Live? ==> !e.hasLookup
    ensures IndexOk(env, cache[i := Live(e)], index)
  {
  }

  /** Giving an entry a new lookup key and inserting the key go together; the insertion cannot
      fail. */
  lemma InsertKeepsIndex(env: Env, cache: seq<Cell<Entry>>, index: seq<Cell<IndexEntry>>, i: nat, e: Entry)
    requires |cache| == CACHE_CAPACITY && IndexOk(env, cache, index) && i < |cache|
    requires cache[i].Live? ==> !cache[i].entry.hasLookup
    requires e.hasLookup && FindMatch(cache, WithLookup(e.lookupKey)).None?
    ensures var r := InsertIndex(env, index, e.lookupKey, i);
            r.Some? && IndexOk(env, cache[i := Live(e)], r.value)
  {
    var key := e.lookupKey;
    IndexAgreesWithScan(env, cache, index, key);
    IndexNeverFull(env, cache, index);
    FullExactly(index, env.keyHash(key));
    var j := FreeSlot(index, env.keyHash(key)).value;
    PlaceKeepsProbing(index, j, IndexEntry(key, i), KeyHome(env));
    var after, more := cache[i := Live(e)], index[j := Live(IndexEntry(key, i))];
    forall k | 0 <= k < |more| && more[k].Live? ensures IndexCellOk(after, more[k].entry) {
      assert k != j ==> IndexCellOk(cache, index[k].entry);
    }
    forall k, l | 0 <= k < |more| && 0 <= l < |more| && k != l && more[k].Live? && more[l].Live?
      ensures more[k].entry.key != more[l].entry.key
    {
      assert k != j ==> !Matches(index[k], Indexed(key));
      assert l != j ==> !Matches(index[l], Indexed(key));
    }
    forall k | 0 <= k < |after| && after[k].Live? && after[k].entry.hasLookup
      ensures Listed(more, after[k].entry.lookupKey, k)
    {
      if k == i {
        assert more[j] == Live(IndexEntry(key, i));
      } else {
        assert Listed(index, cache[k].entry.lookupKey, k);
        var l :| 0 <= l < |index| && index[l] == Live(IndexEntry(cache[k].entry.lookupKey, k));
        assert more[l] == index[l];
      }
    }
  }

  /** Recycling an entry and deleting its key go together. */
  lemma DeleteKeepsIndex(env: Env, cache: seq<Cell<Entry>>, index: seq<Cell<IndexEntry>>, i: nat)
    requires TableOk(env, cache) && IndexOk(env, cache, index)
    requires i < |cache| && cache[i].Live? && cache[i].entry.hasLookup
    ensures IndexOk(env, cache[i := Tombstone], DeleteIndex(index, cache[i].entry.lookupKey))
  {
    var key := cache[i].entry.lookupKey;
    assert Matches(cache[i], WithLookup(key));
    FindIsUnique(env, cache, key, i);
    IndexAgreesWithScan(env, cache, index, key);
    var j := FindMatch(index, Indexed(key)).value;
    RemoveKeepsProbing(index, j, KeyHome(env));
    var after, fewer := cache[i := Tombstone], index[j := Tombstone];
    forall k | 0 <= k < |fewer| && fewer[k].Live? ensures IndexCellOk(after, fewer[k].entry) {
      assert IndexCellOk(cache, index[k].entry) && index[k].entry.key != index[j].entry.key;
    }
    forall k | 0 <= k < |after| && after[k].Live? && after[k].entry.hasLookup
      ensures Listed(fewer, after[k].entry.lookupKey, k)
    {
      assert Listed(index, cache[k].entry.lookupKey, k);
      var l :| 0 <= l < |index| && index[l] == Live(IndexEntry(cache[k].entry.lookupKey, k));
      assert fewer[l] == index[l];
    }
  }

  /** A change that leaves an entry's wait for a report as it was keeps the job accounting. */
  lemma AmendKeepsJobs(cache: seq<Cell<Entry>>, jobs: seq<Job>, i: nat, e: Entry)
    requires JobsOk(cache, jobs) && i < |cache|
    requires Pending(Live(e)) == Pending(cache[i])
    requires Pending(cache[i]) ==> cache[i].entry.flow == e.flow && cache[i].entry.attestKey == e.attestKey
    ensures JobsOk(cache[i := Live(e)], jobs)
  {
  }

  /** Starting a report and enqueueing its job go together. */
  lemma EnqueueKeepsJobs(cache: seq<Cell<Entry>>, jobs: seq<Job>, i: nat, e: Entry)
    requires JobsOk(cache, jobs) && i < |cache| && !Pending(cache[i]) && Pending(Live(e))
    ensures JobsOk(cache[i := Live(e)], jobs + [Job(i, e.flow, e.attestKey)])
  {
    var after, more := cache[i := Live(e)], jobs + [Job(i, e.flow, e.attestKey)];
    forall k | 0 <= k < |more| ensures JobOk(after, more[k]) {
      if k < |jobs| {
        assert JobOk(cache, jobs[k]);
      }
    }
    forall k, l | 0 <= k < |more| && 0 <= l < |more| && k != l ensures more[k].slot != more[l].slot {
      assert forall m | 0 <= m < |jobs| :: JobOk(cache, jobs[m]) && jobs[m].slot != i;
    }
    forall j | 0 <= j < |after| && Pending(after[j]) ensures HasJob(more, j) {
      if j == i {
        assert more[|jobs|].slot == i;
      } else {
        assert Pending(cache[j]) && HasJob(jobs, j);
        var k :| 0 <= k < |jobs| && jobs[k].slot == j;
        assert more[k].slot == j;
      }
    }
  }

  /** Finishing the oldest job ends its entry's wait and no other. */
  lemma FinishKeepsJobs(cache: seq<Cell<Entry>>, jobs: seq<Job>, e: Entry)
    requires JobsOk(cache, jobs) && jobs != [] && e.doneNs > 0
    ensures jobs[0].slot < |cache|
    ensures JobsOk(cache[jobs[0].slot := Live(e)], jobs[1..])
  {
  }

  lemma RemoveKeepsJobs(cache: seq<Cell<Entry>>, jobs: seq<Job>, i: nat)
    requires JobsOk(cache, jobs) && i < |cache| && !Pending(cache[i])
    ensures JobsOk(cache[i := Tombstone], jobs)
  {
  }

  // ----- every step keeps the invariant -----

  lemma InitOk(env: Env)
    ensures Inv(env, Init())
  {
  }

  /** A ClientHello finds its report orphan or becomes a placeholder. */
  lemma LookupFits(env: Env, s: State, flow: Flow, key: Key, t: nat, cookie: nat, slot: nat)
    requires Inv(env, s) && Find(s, key).None? && LookupTarget(env, s, flow, key, cookie) == Some(slot)
    ensures slot < |s.cache|
    ensures s.cache[slot].Live? ==> Matches(s.cache[slot], Orphan(flow, cookie))
    ensures !s.cache[slot].Live? ==> FreeSlot(s.cache, env.routeHash(flow)) == Some(slot)
    ensures var e := LookupFilled(Base(s.cache, slot), flow, key, t, cookie);
            EntryOk(env, e) && Fits(s.cache, slot, e)
  {
    NewestOverWholeTable(s.cache, env.routeHash(flow), Orphan(flow, cookie), ReportTime());
    var e := LookupFilled(Base(s.cache, slot), flow, key, t, cookie);
    forall j | 0 <= j < |s.cache| && j != slot && s.cache[j].Live?
      ensures Compatible(e, s.cache[j].entry) && Compatible(s.cache[j].entry, e)
    {
      assert !Matches(s.cache[j], WithLookup(key));
      if s.cache[slot].Live? {
        assert Compatible(s.cache[slot].entry, s.cache[j].entry);
      } else {
        assert !Matches(s.cache[j], Orphan(flow, cookie));
      }
    }
  }

  lemma ObserveLookupKeeps(env: Env, s: State, flow: Flow, key: Key, t: nat, cookie: nat)
    requires Inv(env, s)
    ensures Inv(env, ObserveLookup(env, s, flow, key, t, cookie).0)
  {
    var target := LookupTarget(env, s, flow, key, cookie);
    if Find(s, key).None? && target.Some? {
      var slot := target.value;
      LookupFits(env, s, flow, key, t, cookie, slot);
      var e := LookupFilled(Base(s.cache, slot), flow, key, t, cookie);
      WriteKeepsTable(env, s.cache, slot, e);
      InsertKeepsIndex(env, s.cache, s.index, slot, e);
      AmendKeepsJobs(s.cache, Outstanding(s), slot, e);
    }
  }

  /** A ServerHello finds its placeholder or becomes a report orphan. */
  lemma ReportFits(env: Env, s: State, flow: Flow, key: Key, t: nat, cookie: nat, slot: nat)
    requires Inv(env, s) && FindMatch(s.cache, Generation(flow, key, cookie)).None?
    requires ReportTarget(env, s, flow, cookie) == Some(slot)
    ensures slot < |s.cache|
    ensures s.cache[slot].Live? ==> Matches(s.cache[slot], Placeholder(flow, cookie))
    ensures !s.cache[slot].Live? ==> FreeSlot(s.cache, env.routeHash(flow)) == Some(slot)
    ensures Fits(s.cache, slot, ReportFilled(Base(s.cache, slot), flow, key, t, cookie))
  {
    NewestOverWholeTable(s.cache, env.routeHash(flow), Placeholder(flow, cookie), LookupTime());
    var e := ReportFilled(Base(s.cache, slot), flow, key, t, cookie);
    forall j | 0 <= j < |s.cache| && j != slot && s.cache[j].Live?
      ensures Compatible(e, s.cache[j].entry) && Compatible(s.cache[j].entry, e)
    {
      assert !Matches(s.cache[j], Generation(flow, key, cookie));
      if s.cache[slot].Live? {
        assert Compatible(s.cache[slot].entry, s.cache[j].entry);
      } else {
        assert !Matches(s.cache[j], Placeholder(flow, cookie));
      }
    }
  }

  /** Writing an entry and scheduling its report at once. */
  lemma ScheduleKeeps(env: Env, s: State, slot: nat, e: Entry, start: nat, done: nat)
    requires Inv(env, s) && slot < |s.cache| && !Pending(s.cache[slot]) && start > 0 && done > 0
    requires s.cache[slot].Live? ==>
               && s.cache[slot].entry.flow == e.flow
               && s.cache[slot].entry.hasLookup == e.hasLookup && s.cache[slot].entry.lookupKey == e.lookupKey
    requires !s.cache[slot].Live? ==> !e.hasLookup && FreeSlot(s.cache, env.routeHash(e.flow)) == Some(slot)
    requires Fits(s.cache, slot, e)
    requires Due(env, e) ==> e.doneNs == 0 && !e.ready && !e.delivered && e.lookupObserved == e.hasLookup
                             && (e.requestReceived ==> e.hasLookup)
    requires !Due(env, e) ==> EntryOk(env, e) && !Pending(Live(e))
    ensures Inv(env, Schedule(env, s.(cache := s.cache[slot := Live(e)]), slot, start, done).0)
  {
    var begun := e.(attestKey := Attest(env, e), startNs := start);
    QueueNeverFull(s, slot);
    if !Due(env, e) {
      WriteKeepsTable(env, s.cache, slot, e);
      WriteKeepsIndex(env, s.cache, s.index, slot, e);
      AmendKeepsJobs(s.cache, Outstanding(s), slot, e);
    } else if !s.stopping {
      WriteKeepsTable(env, s.cache, slot, begun);
      WriteKeepsIndex(env, s.cache, s.index, slot, begun);
      EnqueueKeepsJobs(s.cache, Outstanding(s), slot, begun);
      var after := Schedule(env, s.(cache := s.cache[slot := Live(e)]), slot, start, done).0;
      assert after.cache == s.cache[slot := Live(begun)];
      assert Outstanding(after) == Outstanding(s) + [Job(slot, e.flow, begun.attestKey)];
    } else {
      var failed := begun.(doneNs := done);
      WriteKeepsTable(env, s.cache, slot, failed);
      WriteKeepsIndex(env, s.cache, s.index, slot, failed);
      AmendKeepsJobs(s.cache, Outstanding(s), slot, failed);
      var after := Schedule(env, s.(cache := s.cache[slot := Live(e)]), slot, start, done).0;
      assert after.cache == s.cache[slot := Live(failed)];
    }
  }

  lemma ObserveReportKeeps(env: Env, s: State, flow: Flow, key: Key, t: nat, cookie: nat, start: nat, done: nat)
    requires Inv(env, s) && start > 0 && done > 0
    ensures Inv(env, ObserveReport(env, s, flow, key, t, cookie, start, done).0)
  {
    var target := ReportTarget(env, s, flow, cookie);
    if FindMatch(s.cache, Generation(flow, key, cookie)).None? && target.Some? {
      ReportFits(env, s, flow, key, t, cookie, target.value);
      ScheduleKeeps(env, s, target.value, ReportFilled(Base(s.cache, target.value), flow, key, t, cookie), start, done);
    }
  }

  /** The worker's re-check always succeeds: no report is generated in vain. */
  lemma WorkIsStillWanted(env: Env, s: State)
    requires Inv(env, s) && s.inFlight.Some?
    ensures StillWanted(s, s.inFlight.value) && Pending(s.cache[s.inFlight.value.slot])
  {
    assert JobOk(s.cache, Outstanding(s)[0]);
  }

  lemma FinishJobKeeps(env: Env, s: State, ok: bool, report: Report, finished: nat)
    requires Inv(env, s) && finished > 0
    requires ok && s.inFlight.Some? ==> env.verify(report, s.inFlight.value.reportKey)
    ensures Inv(env, FinishJob(s, ok, report, finished))
  {
    if s.inFlight.Some? {
      WorkIsStillWanted(env, s);
      var slot := s.inFlight.value.slot;
      var e := Finished(s.cache[slot].entry, ok, report, finished);
      AmendKeepsTable(env, s.cache, slot, e);
      WriteKeepsIndex(env, s.cache, s.index, slot, e);
      FinishKeepsJobs(s.cache, Outstanding(s), e);
      assert Outstanding(FinishJob(s, ok, report, finished)) == Outstanding(s)[1..];
    }
  }

  lemma RegisterKeeps(env: Env, s: State, key: Key, nonce: nat, began: nat, now: nat, cookieNow: Option<nat>,
                      expired: bool, start: nat, done: nat)
    requires Inv(env, s) && start > 0 && done > 0
    ensures Inv(env, Register(env, s, key, nonce, began, now, cookieNow, expired, start, done).0)
  {
    var found := Find(s, key);
    if found.Some? && !s.cache[found.value].entry.requestReceived
       && !Stale(s.cache[found.value].entry, now, cookieNow) {
      var was := s.cache[found.value].entry;
      var e := was.(requestReceived := true, requestNs := began, nonce := nonce);
      forall j | 0 <= j < |s.cache| && j != found.value && s.cache[j].Live?
        ensures Compatible(e, s.cache[j].entry) && Compatible(s.cache[j].entry, e)
      {
        assert Compatible(was, s.cache[j].entry) && Compatible(s.cache[j].entry, was);
      }
      if Pending(s.cache[found.value]) {
        AmendKeepsTable(env, s.cache, found.value, e);
        WriteKeepsIndex(env, s.cache, s.index, found.value, e);
        AmendKeepsJobs(s.cache, Outstanding(s), found.value, e);
      } else {
        ScheduleKeeps(env, s, found.value, e, start, done);
      }
    }
  }

  /** Setting flags that neither join, schedule nor recycle. */
  lemma FlagsKeep(env: Env, s: State, slot: nat, e: Entry)
    requires Inv(env, s) && slot < |s.cache| && s.cache[slot].Live?
    requires SameIdentity(s.cache[slot].entry, e) && EntryOk(env, e)
    requires s.cache[slot].entry.startNs == e.startNs && s.cache[slot].entry.doneNs == e.doneNs
             && s.cache[slot].entry.attestKey == e.attestKey
    ensures Inv(env, s.(cache := s.cache[slot := Live(e)]))
  {
    AmendKeepsTable(env, s.cache, slot, e);
    WriteKeepsIndex(env, s.cache, s.index, slot, e);
    AmendKeepsJobs(s.cache, Outstanding(s), slot, e);
  }

  lemma DeliverKeeps(env: Env, s: State, key: Key, nonce: nat, now: nat, cookieNow: Option<nat>, expired: bool)
    requires Inv(env, s)
    ensures Inv(env, Deliver(s, key, nonce, now, cookieNow, expired).0)
  {
    var found := Find(s, key);
    if found.Some? && Deliverable(s.cache[found.value].entry) {
      FlagsKeep(env, s, found.value, s.cache[found.value].entry.(delivered := true));
    }
  }

  lemma MarkSentKeeps(env: Env, s: State, key: Key, now: nat)
    requires Inv(env, s)
    ensures Inv(env, MarkSent(s, key, now))
  {
    var found := Find(s, key);
    if found.Some? {
      FlagsKeep(env, s, found.value, s.cache[found.value].entry.(responseNs := now));
    }
  }

  lemma RecordVerdictKeeps(env: Env, s: State, key: Key, verdictKey: Key, verified: bool, clientVerified: bool)
    requires Inv(env, s)
    ensures Inv(env, RecordVerdict(env, s, key, verdictKey, verified, clientVerified))
  {
    var found := Find(s, key);
    if found.Some? && s.cache[found.value].entry.delivered {
      RemoveKeepsTable(env, s.cache, found.value);
      DeleteKeepsIndex(env, s.cache, s.index, found.value);
      RemoveKeepsJobs(s.cache, Outstanding(s), found.value);
    }
  }

  /** Every step keeps the invariant. */
  lemma StepKeeps(env: Env, s: State, ev: Event)
    requires Inv(env, s) && Allowed(env, s, ev)
    ensures Inv(env, Step(env, s, ev))
  {
    match ev
    case SawClientHello(flow, key, t, cookie) => ObserveLookupKeeps(env, s, flow, key, t, cookie);
    case SawServerHello(flow, key, t, cookie, start, done) =>
      ObserveReportKeeps(env, s, flow, key, t, cookie, start, done);
    case TookJob => assert Outstanding(TakeJob(s)) == Outstanding(s);
    case FinishedJob(ok, report, finished) => FinishJobKeeps(env, s, ok, report, finished);
    case TriedRequest(key, nonce, began, now, cookieNow, expired, start, done) =>
      RegisterKeeps(env, s, key, nonce, began, now, cookieNow, expired, start, done);
    case TriedDelivery(key, nonce, now, cookieNow, expired) =>
      DeliverKeeps(env, s, key, nonce, now, cookieNow, expired);
    case SentResponse(key, now) => MarkSentKeeps(env, s, key, now);
    case GotVerdict(key, verdictKey, verified, clientVerified) =>
      RecordVerdictKeeps(env, s, key, verdictKey, verified, clientVerified);
    case StopRequested =>
  }
}
