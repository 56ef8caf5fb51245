/** Safety of the rendezvous cache over whole runs: accounting of report jobs, where the two keys
    of an entry come from, soundness of delivered reports and at-most-once delivery. */
module RendezvousRuns {
  import opened Basics
  import opened ProbeTable
  import opened Rendezvous
  import opened RendezvousInvariant

  /** The state after the steps evs. */
  function After(env: Env, evs: seq<Event>): (s: State)
    ensures |s.cache| == CACHE_CAPACITY && |s.index| == INDEX_CAPACITY
  {
    if evs == [] then Init()
    else Step(env, After(env, evs[..|evs| - 1]), evs[|evs| - 1])
  }

  ghost predicate IsRun(env: Env, evs: seq<Event>) {
    forall k | 0 <= k < |evs| :: Allowed(env, After(env, evs[..k]), evs[k])
  }

  lemma AfterNext(env: Env, evs: seq<Event>, k: nat)
    requires k < |evs|
    ensures After(env, evs[..k + 1]) == Step(env, After(env, evs[..k]), evs[k])
  {
    assert evs[..k + 1][..k] == evs[..k];
  }

  /** The invariant holds in every reachable state. */
  lemma {:induction false} ReachableOk(env: Env, evs: seq<Event>, k: nat)
    requires IsRun(env, evs) && k <= |evs|
    ensures Inv(env, After(env, evs[..k]))
  {
    if k == 0 {
      InitOk(env);
    } else {
      ReachableOk(env, evs, k - 1);
      AfterNext(env, evs, k - 1);
      StepKeeps(env, After(env, evs[..k - 1]), evs[k - 1]);
    }
  }

  // ----- matching and the lookup index -----

  /** In every reachable state no two live entries hold the same lookup key or the same report key
      of one socket, and no entry still waiting for its report key faces one on the same socket
      still waiting for its lookup key: they would have been joined. */
  lemma LiveEntriesMatched(env: Env, evs: seq<Event>, i: nat, j: nat)
    requires IsRun(env, evs) && i < CACHE_CAPACITY && j < CACHE_CAPACITY && i != j
    requires After(env, evs).cache[i].Live? && After(env, evs).cache[j].Live?
    ensures var (a, b) := (After(env, evs).cache[i].entry, After(env, evs).cache[j].entry);
            && (a.hasLookup || a.hasReport)
            && (a.hasLookup && b.hasLookup ==> a.lookupKey != b.lookupKey)
            && (a.hasReport && b.hasReport && a.flow == b.flow && a.cookie == b.cookie ==> a.reportKey != b.reportKey)
            && (a.hasLookup && !a.hasReport && !b.hasLookup ==> a.flow != b.flow || a.cookie != b.cookie)
  {
    assert evs[..|evs|] == evs;
    ReachableOk(env, evs, |evs|);
    var s := After(env, evs);
    assert EntryOk(env, s.cache[i].entry) && EntryOk(env, s.cache[j].entry);
    assert Compatible(s.cache[i].entry, s.cache[j].entry);
  }

  lemma LeadsToEntry(env: Env, cache: seq<Cell<Entry>>, index: seq<Cell<IndexEntry>>, key: Key)
    requires TableOk(env, cache) && IndexOk(env, cache, index)
    ensures match FindMatch(index, Indexed(key))
            case None => forall i | 0 <= i < |cache| :: !Matches(cache[i], WithLookup(key))
            case Some(j) =>
              && j < |index| && index[j].Live?
              && forall i | 0 <= i < |cache| :: Matches(cache[i], WithLookup(key)) <==> i == index[j].entry.slot
  {
  }

  /** In every reachable state the index leads from a key to the one live entry that holds it, and
      to none only if no live entry does; it always has room for one more. */
  lemma IndexIsExact(env: Env, evs: seq<Event>, key: Key)
    requires IsRun(env, evs)
    ensures exists j | 0 <= j < INDEX_CAPACITY :: !After(env, evs).index[j].Live?
    ensures var (cache, index) := (After(env, evs).cache, After(env, evs).index);
            match FindMatch(index, Indexed(key))
            case None => forall i | 0 <= i < |cache| :: !Matches(cache[i], WithLookup(key))
            case Some(j) =>
              && j < |index| && index[j].Live?
              && forall i | 0 <= i < |cache| :: Matches(cache[i], WithLookup(key)) <==> i == index[j].entry.slot
  {
    assert evs[..|evs|] == evs;
    ReachableOk(env, evs, |evs|);
    IndexNeverFull(env, After(env, evs).cache, After(env, evs).index);
    LeadsToEntry(env, After(env, evs).cache, After(env, evs).index, key);
  }

  // ----- job accounting -----

  function JobsFor(jobs: seq<Job>, slot: nat): (n: nat) {
    if jobs == [] then 0 else (if jobs[0].slot == slot then 1 else 0) + JobsFor(jobs[1..], slot)
  }

  lemma {:induction false} CountOnce(jobs: seq<Job>, slot: nat)
    requires forall k, l | 0 <= k < |jobs| && 0 <= l < |jobs| && k != l :: jobs[k].slot != jobs[l].slot
    ensures JobsFor(jobs, slot) == if HasJob(jobs, slot) then 1 else 0
  {
    if jobs != [] {
      CountOnce(jobs[1..], slot);
      if HasJob(jobs, slot) {
        var k :| 0 <= k < |jobs| && jobs[k].slot == slot;
        assert k > 0 ==> jobs[1..][k - 1].slot == slot;
      }
      if HasJob(jobs[1..], slot) {
        var k :| 0 <= k < |jobs[1..]| && jobs[1..][k].slot == slot;
        assert jobs[k + 1].slot == slot && jobs[0].slot != slot;
      }
    }
  }

  /** In every reachable state a slot's entry has a report begun and not ended exactly when one
      job for the slot is queued or in the worker's hands; otherwise there is none. */
  lemma JobAccounting(env: Env, evs: seq<Event>, slot: nat)
    requires IsRun(env, evs) && slot < CACHE_CAPACITY
    ensures var s := After(env, evs);
            JobsFor(Outstanding(s), slot) == if Pending(s.cache[slot]) then 1 else 0
  {
    assert evs[..|evs|] == evs;
    ReachableOk(env, evs, |evs|);
    var s := After(env, evs);
    CountOnce(Outstanding(s), slot);
    if HasJob(Outstanding(s), slot) {
      var k :| 0 <= k < |Outstanding(s)| && Outstanding(s)[k].slot == slot;
      assert JobOk(s.cache, Outstanding(s)[k]);
    }
  }

  /** No generated report is discarded: in every reachable state the worker's job still matches
      the entry in its slot, despite slot reuse, and finishing it ends that entry's wait. */
  lemma NoReportDiscarded(env: Env, evs: seq<Event>, ok: bool, report: Report, finished: nat)
    requires IsRun(env, evs) && After(env, evs).inFlight.Some? && finished > 0
    ensures var s := After(env, evs);
            var slot := s.inFlight.value.slot;
            var t := Step(env, s, FinishedJob(ok, report, finished));
            && slot < |t.cache| && t.cache[slot].Live? && t.cache[slot].entry.doneNs == finished
            && t.cache[slot].entry.ready == ok && (ok ==> t.cache[slot].entry.report == report)
  {
    hide Inv, Step, After, IsRun;
    assert evs[..|evs|] == evs;
    ReachableOk(env, evs, |evs|);
    FinishingRecords(env, After(env, evs), ok, report, finished);
  }

  lemma FinishingRecords(env: Env, s: State, ok: bool, report: Report, finished: nat)
    requires Inv(env, s) && s.inFlight.Some?
    ensures var slot := s.inFlight.value.slot;
            var t := Step(env, s, FinishedJob(ok, report, finished));
            && slot < |t.cache| && t.cache[slot].Live? && t.cache[slot].entry.doneNs == finished
            && t.cache[slot].entry.ready == ok && (ok ==> t.cache[slot].entry.report == report)
  {
    hide IndexOk, JobsOk, WellProbed, Compatible;
    WorkIsStillWanted(env, s);
    assert EntryOk(env, s.cache[s.inFlight.value.slot].entry);
  }

  // ----- one step, one entry -----

  /** What may change in an entry between its creation and its recycling. */
  predicate Evolves(a: Entry, b: Entry) {
    && a.flow == b.flow && a.cookie == b.cookie
    && (a.hasLookup ==> b.hasLookup && b.lookupKey == a.lookupKey)
    && (a.hasReport ==> b.hasReport && b.reportKey == a.reportKey)
    && (a.requestReceived ==> b.requestReceived && b.nonce == a.nonce)
    && (a.startNs > 0 ==> b.startNs == a.startNs && b.attestKey == a.attestKey)
    && (a.ready ==> b.ready && b.report == a.report)
    && (a.delivered ==> b.delivered)
  }

  /** The step records the verdict on key and recycles its slot. */
  predicate Recycles(env: Env, s: State, ev: Event, key: Key) {
    && ev.GotVerdict? && ev.key == key
    && RecordVerdict(env, s, key, ev.verdictKey, ev.verified, ev.clientVerified) != s
  }

  predicate SeesLookup(ev: Event, flow: Flow, cookie: nat, key: Key) {
    ev.SawClientHello? && ev.flow == flow && ev.cookie == cookie && ev.key == key
  }

  predicate SeesReport(ev: Event, flow: Flow, cookie: nat, key: Key) {
    ev.SawServerHello? && ev.flow == flow && ev.cookie == cookie && ev.key == key
  }

  /** What the step from s to t does to cell i: a live entry evolves or is recycled, and every key
      an entry holds was there before, on the same socket, or was just observed on it. */
  predicate EffectOk(env: Env, s: State, ev: Event, t: State, i: nat)
    requires i < |s.cache| == |t.cache|
  {
    && (s.cache[i].Live? ==>
          || (t.cache[i].Live? && Evolves(s.cache[i].entry, t.cache[i].entry))
          || (s.cache[i].entry.hasLookup && Recycles(env, s, ev, s.cache[i].entry.lookupKey)))
    && (t.cache[i].Live? ==>
          var e := t.cache[i].entry;
          var kept := s.cache[i].Live? && s.cache[i].entry.flow == e.flow && s.cache[i].entry.cookie == e.cookie;
          && (e.hasLookup ==> SeesLookup(ev, e.flow, e.cookie, e.lookupKey)
                              || (kept && s.cache[i].entry.hasLookup && s.cache[i].entry.lookupKey == e.lookupKey))
          && (e.hasReport ==> SeesReport(ev, e.flow, e.cookie, e.reportKey)
                              || (kept && s.cache[i].entry.hasReport && s.cache[i].entry.reportKey == e.reportKey)))
  }

  lemma LookupEffect(env: Env, s: State, ev: Event, i: nat)
    requires Inv(env, s) && ev.SawClientHello? && i < |s.cache|
    ensures EffectOk(env, s, ev, ObserveLookup(env, s, ev.flow, ev.key, ev.t, ev.cookie).0, i)
  {
    var target := LookupTarget(env, s, ev.flow, ev.key, ev.cookie);
    if Find(s, ev.key).None? && target.Some? {
      LookupFits(env, s, ev.flow, ev.key, ev.t, ev.cookie, target.value);
      InsertKeepsIndex(env, s.cache, s.index, target.value,
                       LookupFilled(Base(s.cache, target.value), ev.flow, ev.key, ev.t, ev.cookie));
    }
  }

  /** Scheduling a report touches one entry and none of its keys. */
  lemma ScheduledEntry(env: Env, s: State, slot: nat, start: nat, done: nat, i: nat)
    requires slot < |s.cache| && s.cache[slot].Live? && i < |s.cache|
    ensures var t := Schedule(env, s, slot, start, done).0;
            && |t.cache| == |s.cache|
            && (i != slot ==> t.cache[i] == s.cache[i])
            && t.cache[slot].Live?
            && var (a, b) := (s.cache[slot].entry, t.cache[slot].entry);
               && Evolves(a, b) && b.hasLookup == a.hasLookup && b.hasReport == a.hasReport
               && b.lookupKey == a.lookupKey && b.reportKey == a.reportKey
  {
  }

  lemma ReportEffect(env: Env, s: State, ev: Event, i: nat)
    requires Inv(env, s) && ev.SawServerHello? && i < |s.cache|
    ensures EffectOk(env, s, ev, ObserveReport(env, s, ev.flow, ev.key, ev.t, ev.cookie, ev.start, ev.done).0, i)
  {
    var target := ReportTarget(env, s, ev.flow, ev.cookie);
    if FindMatch(s.cache, Generation(ev.flow, ev.key, ev.cookie)).None? && target.Some? {
      var slot := target.value;
      var e := ReportFilled(Base(s.cache, slot), ev.flow, ev.key, ev.t, ev.cookie);
      ReportFits(env, s, ev.flow, ev.key, ev.t, ev.cookie, slot);
      assert s.cache[slot].Live? ==> EntryOk(env, s.cache[slot].entry);
      ScheduledEntry(env, s.(cache := s.cache[slot := Live(e)]), slot, ev.start, ev.done, i);
    }
  }

  lemma FinishEffect(env: Env, s: State, ev: Event, i: nat)
    requires Inv(env, s) && ev.FinishedJob? && i < |s.cache|
    ensures EffectOk(env, s, ev, FinishJob(s, ev.ok, ev.report, ev.finished), i)
  {
    if s.inFlight.Some? {
      WorkIsStillWanted(env, s);
      assert EntryOk(env, s.cache[s.inFlight.value.slot].entry);
    }
  }

  lemma RegisterEffect(env: Env, s: State, ev: Event, i: nat)
    requires Inv(env, s) && ev.TriedRequest? && i < |s.cache|
    ensures EffectOk(env, s, ev,
                     Register(env, s, ev.key, ev.nonce, ev.began, ev.now, ev.cookieNow, ev.expired, ev.start,
                              ev.done).0, i)
  {
  }

  lemma VerdictEffect(env: Env, s: State, ev: Event, i: nat)
    requires Inv(env, s) && ev.GotVerdict? && i < |s.cache|
    ensures EffectOk(env, s, ev, RecordVerdict(env, s, ev.key, ev.verdictKey, ev.verified, ev.clientVerified), i)
  {
    var t := RecordVerdict(env, s, ev.key, ev.verdictKey, ev.verified, ev.clientVerified);
    assert t != s ==> |t.records| == |s.records| + 1;
  }

  lemma StepEffect(env: Env, s: State, ev: Event, i: nat)
    requires Inv(env, s) && i < |s.cache|
    ensures EffectOk(env, s, ev, Step(env, s, ev), i)
  {
    hide IndexOk, JobsOk, EntryOk, Compatible, WellProbed, ObserveLookup, ObserveReport, FinishJob, Register,
         RecordVerdict;
    match ev
    case SawClientHello(_, _, _, _) => LookupEffect(env, s, ev, i);
    case SawServerHello(_, _, _, _, _, _) => ReportEffect(env, s, ev, i);
    case FinishedJob(_, _, _) => FinishEffect(env, s, ev, i);
    case TriedRequest(_, _, _, _, _, _, _, _) => RegisterEffect(env, s, ev, i);
    case GotVerdict(_, _, _, _) => VerdictEffect(env, s, ev, i);
    case _ =>
  }

  /** A lookup key keeps finding the same entry until its verdict is recorded. */
  lemma FoundPersists(env: Env, s: State, ev: Event, key: Key)
    requires Inv(env, s) && Allowed(env, s, ev)
    requires Find(s, key).Some? && !Recycles(env, s, ev, key)
    ensures var t := Step(env, s, ev);
            && Find(t, key) == Find(s, key)
            && Evolves(s.cache[Find(s, key).value].entry, t.cache[Find(s, key).value].entry)
  {
    var i := Find(s, key).value;
    StepKeeps(env, s, ev);
    StepEffect(env, s, ev, i);
    var t := Step(env, s, ev);
    assert Matches(t.cache[i], WithLookup(key));
    FindIsUnique(env, t.cache, key, i);
  }

  // ----- where an entry's keys come from -----

  ghost predicate LookupSeen(evs: seq<Event>, flow: Flow, cookie: nat, key: Key) {
    exists k :: 0 <= k < |evs| && SeesLookup(evs[k], flow, cookie, key)
  }

  ghost predicate ReportSeen(evs: seq<Event>, flow: Flow, cookie: nat, key: Key) {
    exists k :: 0 <= k < |evs| && SeesReport(evs[k], flow, cookie, key)
  }

  lemma PrefixIsRun(env: Env, evs: seq<Event>, n: nat)
    requires IsRun(env, evs) && n <= |evs|
    ensures IsRun(env, evs[..n])
  {
    forall k | 0 <= k < n ensures Allowed(env, After(env, evs[..n][..k]), evs[..n][k]) {
      assert evs[..n][..k] == evs[..k];
    }
  }

  lemma SeenLater(evs: seq<Event>, n: nat, flow: Flow, cookie: nat, key: Key)
    requires n <= |evs|
    ensures LookupSeen(evs[..n], flow, cookie, key) ==> LookupSeen(evs, flow, cookie, key)
    ensures ReportSeen(evs[..n], flow, cookie, key) ==> ReportSeen(evs, flow, cookie, key)
  {
  }

  /** In every run, a live entry's lookup key came from a ClientHello and its report key from a
      ServerHello, both seen on the entry's own route and socket: a joined entry pairs two
      messages of one connection. */
  lemma {:induction false} JoinedOnOneSocket(env: Env, evs: seq<Event>, i: nat)
    requires IsRun(env, evs) && i < CACHE_CAPACITY && After(env, evs).cache[i].Live?
    ensures var e := After(env, evs).cache[i].entry;
            && (e.hasLookup ==> LookupSeen(evs, e.flow, e.cookie, e.lookupKey))
            && (e.hasReport ==> ReportSeen(evs, e.flow, e.cookie, e.reportKey))
  {
    if evs != [] {
      var n := |evs| - 1;
      var s := After(env, evs[..n]);
      var e := After(env, evs).cache[i].entry;
      PrefixIsRun(env, evs, n);
      ReachableOk(env, evs, n);
      StepEffect(env, s, evs[n], i);
      SeenLater(evs, n, e.flow, e.cookie, e.lookupKey);
      SeenLater(evs, n, e.flow, e.cookie, e.reportKey);
      if s.cache[i].Live? {
        JoinedOnOneSocket(env, evs[..n], i);
      }
    }
  }

  // ----- delivery -----

  predicate RegistersAt(env: Env, evs: seq<Event>, k: nat, key: Key, nonce: nat) {
    && k < |evs| && evs[k].TriedRequest? && evs[k].key == key && evs[k].nonce == nonce
    && Register(env, After(env, evs[..k]), key, nonce, evs[k].began, evs[k].now, evs[k].cookieNow, evs[k].expired,
                evs[k].start, evs[k].done).1 == Some(Okay)
  }

  predicate DeliversAt(env: Env, evs: seq<Event>, k: nat, key: Key) {
    && k < |evs| && evs[k].TriedDelivery? && evs[k].key == key
    && Deliver(After(env, evs[..k]), key, evs[k].nonce, evs[k].now, evs[k].cookieNow, evs[k].expired).1.Delivered?
  }

  function Snapshot(env: Env, evs: seq<Event>, k: nat): Entry
    requires k < |evs| && evs[k].TriedDelivery? && DeliversAt(env, evs, k, evs[k].key)
  {
    Deliver(After(env, evs[..k]), evs[k].key, evs[k].nonce, evs[k].now, evs[k].cookieNow, evs[k].expired).1.snapshot
  }

  /** Some step from i on, before j, records the verdict on key. */
  ghost predicate RecycledBetween(env: Env, evs: seq<Event>, i: nat, j: nat, key: Key)
    requires j <= |evs|
  {
    exists k :: i <= k < j && Recycles(env, After(env, evs[..k]), evs[k], key)
  }

  /** From step i to step j an entry evolves, unless its verdict is recorded meanwhile. */
  lemma {:induction false} EvolvesBetween(env: Env, evs: seq<Event>, i: nat, j: nat, key: Key)
    requires IsRun(env, evs) && i <= j <= |evs|
    requires Find(After(env, evs[..i]), key).Some? && !RecycledBetween(env, evs, i, j, key)
    ensures var a, b := After(env, evs[..i]), After(env, evs[..j]);
            Find(b, key) == Find(a, key)
            && Evolves(a.cache[Find(a, key).value].entry, b.cache[Find(a, key).value].entry)
    decreases j - i
  {
    hide After, Step, Allowed, Recycles, Find, Inv;
    if i < j {
      assert !RecycledBetween(env, evs, i, j - 1, key);
      EvolvesBetween(env, evs, i, j - 1, key);
      ReachableOk(env, evs, j - 1);
      AfterNext(env, evs, j - 1);
      FoundPersists(env, After(env, evs[..j - 1]), evs[j - 1], key);
    }
  }

  /** A delivered report verifies under the key derived from the entry's own report key (and, in
      mutual mode, its lookup key and nonce), and goes to the nonce the entry was registered
      with. */
  lemma DeliverySound(env: Env, evs: seq<Event>, k: nat)
    requires IsRun(env, evs) && k < |evs| && evs[k].TriedDelivery? && DeliversAt(env, evs, k, evs[k].key)
    ensures var e := Snapshot(env, evs, k);
            && e.lookupKey == evs[k].key && e.nonce == evs[k].nonce && e.requestReceived
            && env.verify(e.report, e.attestKey) && e.attestKey == Attest(env, e)
            && Find(After(env, evs[..k + 1]), evs[k].key).Some?
            && After(env, evs[..k + 1]).cache[Find(After(env, evs[..k]), evs[k].key).value] == Live(e)
  {
    ReachableOk(env, evs, k);
    AfterNext(env, evs, k);
    FoundPersists(env, After(env, evs[..k]), evs[k], evs[k].key);
  }

  /** Two deliveries for one lookup key are separated by the verdict that recycles its entry. */
  lemma DeliveredAtMostOnce(env: Env, evs: seq<Event>, i: nat, j: nat, key: Key)
    requires IsRun(env, evs) && i < j < |evs| && DeliversAt(env, evs, i, key) && DeliversAt(env, evs, j, key)
    ensures RecycledBetween(env, evs, i + 1, j, key)
  {
    DeliverySound(env, evs, i);
    if !RecycledBetween(env, evs, i + 1, j, key) {
      ReachableOk(env, evs, i);
      EvolvesBetween(env, evs, i + 1, j, key);
      AfterNext(env, evs, i);
      FoundPersists(env, After(env, evs[..i]), evs[i], key);
    }
  }

  lemma RegisteredEntry(env: Env, evs: seq<Event>, i: nat, key: Key, nonce: nat)
    requires IsRun(env, evs) && RegistersAt(env, evs, i, key, nonce)
    ensures var s := After(env, evs[..i + 1]);
            && Find(s, key).Some? && s.cache[Find(s, key).value].entry.requestReceived
            && s.cache[Find(s, key).value].entry.nonce == nonce
  {
    ReachableOk(env, evs, i);
    AfterNext(env, evs, i);
    FoundPersists(env, After(env, evs[..i]), evs[i], key);
  }

  /** Registration succeeds at most once for an entry. */
  lemma RegisteredAtMostOnce(env: Env, evs: seq<Event>, i: nat, j: nat, key: Key, m: nat, n: nat)
    requires IsRun(env, evs) && i < j && RegistersAt(env, evs, i, key, m) && RegistersAt(env, evs, j, key, n)
    ensures RecycledBetween(env, evs, i + 1, j, key)
  {
    RegisteredEntry(env, evs, i, key, m);
    if !RecycledBetween(env, evs, i + 1, j, key) {
      EvolvesBetween(env, evs, i + 1, j, key);
    }
  }

  /** A delivery goes only to the nonce that was registered, as long as the entry lives. */
  lemma DeliveredToRegistered(env: Env, evs: seq<Event>, i: nat, j: nat, key: Key, nonce: nat)
    requires IsRun(env, evs) && i < j && RegistersAt(env, evs, i, key, nonce) && DeliversAt(env, evs, j, key)
    ensures RecycledBetween(env, evs, i + 1, j, key) || evs[j].nonce == nonce
  {
    RegisteredEntry(env, evs, i, key, nonce);
    if !RecycledBetween(env, evs, i + 1, j, key) {
      EvolvesBetween(env, evs, i + 1, j, key);
      DeliverySound(env, evs, j);
    }
  }
}
