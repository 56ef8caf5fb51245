/** What stands behind a completed session on the server's side: in mutual mode a client report that
    verified under the key derived from the session's lookup key and nonce. */
module Vouching {
  import opened Basics
  import R = Rendezvous
  import opened Control
  import opened ControlInvariant
  import EndToEnd

  predicate Answering(pc: ServerPc) { pc.Answering? || pc.Answered? || pc.AwaitingVerdict? }

  /** The thread answers only what is vouched for, and remembers with what. */
  ghost predicate ConnVouched(env: R.Env, c: Conn) {
    && (Answering(c.pc) ==> Vouched(env, c.pc.ask, c.pc.clientReport))
    && (c.pc.Answered? || c.pc.AwaitingVerdict? ==>
          exists j :: 0 <= j < |c.responses| && c.responses[j].ask == c.pc.ask)
    && (forall j | 0 <= j < |c.responses| :: Vouched(env, c.responses[j].ask, c.responses[j].clientReport))
  }

  /** The record says that the client was verified, and some connection answered its request. */
  ghost predicate RecordVouched(conns: seq<Conn>, r: R.Record) {
    && r.clientReportVerified
    && exists k, j :: 0 <= k < |conns| && 0 <= j < |conns[k].responses|
                      && conns[k].responses[j].ask == Ask(r.entry.lookupKey, r.entry.nonce)
  }

  ghost predicate AllVouched(env: R.Env, s: State) {
    && (forall k | 0 <= k < |s.conns| :: ConnVouched(env, s.conns[k]))
    && (forall r | 0 <= r < |s.srv.records| :: RecordVouched(s.conns, s.srv.records[r]))
  }

  /** A connection is new, unchanged for the server, or makes its control thread's move. */
  predicate ConnMoves(setup: Setup, s: State, ev: Event, k: nat, d: Conn) {
    if k >= |s.conns| then d == NEW_CONN
    else (d.pc == s.conns[k].pc && d.responses == s.conns[k].responses) || d == NextConn(setup, s, ev, k)
  }

  lemma StepMoves(setup: Setup, s: State, ev: Event, k: nat)
    requires Shaped(s) && k < |Step(setup, s, ev).conns|
    ensures |s.conns| <= |Step(setup, s, ev).conns| && ConnMoves(setup, s, ev, k, Step(setup, s, ev).conns[k])
  {
    hide R.Step;
  }

  lemma NextConnVouched(setup: Setup, s: State, ev: Event, k: nat)
    requires k < |s.conns| && ConnVouched(setup.env, s.conns[k])
    ensures ConnVouched(setup.env, NextConn(setup, s, ev, k))
    ensures s.conns[k].responses <= NextConn(setup, s, ev, k).responses
  {
    var c, d := s.conns[k], NextConn(setup, s, ev, k);
    if d.responses != c.responses {
      assert d.responses[|c.responses|].ask == c.pc.ask;
    }
  }

  /** Connections stay, and only gain answers. */
  predicate Grown(conns: seq<Conn>, more: seq<Conn>) {
    |conns| <= |more| && forall k | 0 <= k < |conns| :: conns[k].responses <= more[k].responses
  }

  lemma RecordStays(conns: seq<Conn>, more: seq<Conn>, r: R.Record)
    requires RecordVouched(conns, r) && Grown(conns, more)
    ensures RecordVouched(more, r)
  {
    var k, j :| 0 <= k < |conns| && 0 <= j < |conns[k].responses|
                && conns[k].responses[j].ask == Ask(r.entry.lookupKey, r.entry.nonce);
    assert more[k].responses[j] == conns[k].responses[j];
  }

  /** A step records nothing, or the verdict of a control thread on the entry that it serves. */
  lemma RecordsGrow(setup: Setup, s: State, ev: Event)
    requires Inv(setup, s) && Allowed(setup, s, ev)
    ensures var t := Step(setup, s, ev);
            || t.srv.records == s.srv.records
            || (ev.TakeVerdict? && ev.k < |s.conns| && VerdictFits(s.conns[ev.k])
                && |t.srv.records| == |s.srv.records| + 1 && s.srv.records <= t.srv.records
                && var (r, c) := (t.srv.records[|s.srv.records|], s.conns[ev.k]);
                   && r.clientReportVerified == Vouched(setup.env, c.pc.ask, c.pc.clientReport)
                   && c.pc.ask == Ask(r.entry.lookupKey, r.entry.nonce))
  {
    hide GI.Inv, ConnOk, VerdictsOk, WorkerOk, DutiesOk, LinkOk, RecordsOk;
    if ev.TakeVerdict? && ev.k < |s.conns| && VerdictFits(s.conns[ev.k]) {
      var c := s.conns[ev.k];
      assert HoldOk(s.srv, c);
      assert c.pc.ask == Ask(c.pc.ask.key, c.pc.ask.nonce);
    } else {
      NothingRecorded(setup, s, ev);
    }
  }

  lemma NothingRecorded(setup: Setup, s: State, ev: Event)
    requires Inv(setup, s) && Allowed(setup, s, ev)
    requires !(ev.TakeVerdict? && ev.k < |s.conns| && VerdictFits(s.conns[ev.k]))
    ensures Step(setup, s, ev).srv.records == s.srv.records
  {
    hide GI.Inv, ConnOk, VerdictsOk, WorkerOk, DutiesOk, LinkOk, RecordsOk;
    var sev := ServerPart(setup, s, ev);
    if sev.Some? {
      EndToEnd.OwnEventsRecordNothing(setup.env, s.srv, sev.value);
    }
  }

  lemma ConnStaysVouched(setup: Setup, s: State, ev: Event, k: nat)
    requires Shaped(s) && AllVouched(setup.env, s) && k < |Step(setup, s, ev).conns|
    ensures var d := Step(setup, s, ev).conns[k];
            ConnVouched(setup.env, d) && (k < |s.conns| ==> s.conns[k].responses <= d.responses)
  {
    StepMoves(setup, s, ev, k);
    if k < |s.conns| {
      NextConnVouched(setup, s, ev, k);
    }
  }

  lemma ConnsGrow(setup: Setup, s: State, ev: Event)
    requires Shaped(s) && AllVouched(setup.env, s)
    ensures Grown(s.conns, Step(setup, s, ev).conns)
  {
    var conns := Step(setup, s, ev).conns;
    NoConnLost(setup, s, ev);
    forall k | 0 <= k < |s.conns| ensures s.conns[k].responses <= conns[k].responses {
      ConnStaysVouched(setup, s, ev, k);
    }
  }

  lemma NoConnLost(setup: Setup, s: State, ev: Event)
    requires Shaped(s)
    ensures |s.conns| <= |Step(setup, s, ev).conns|
  {
  }

  lemma RecordStaysVouched(setup: Setup, s: State, ev: Event, r: nat)
    requires Inv(setup, s) && Allowed(setup, s, ev) && AllVouched(setup.env, s)
    requires r < |Step(setup, s, ev).srv.records|
    ensures RecordVouched(Step(setup, s, ev).conns, Step(setup, s, ev).srv.records[r])
  {
    hide Step, Allowed, ConnOk, HoldOk, WorkerOk, DutiesOk, LinkOk, RecordsOk, VerdictsOk;
    var conns, record := Step(setup, s, ev).conns, Step(setup, s, ev).srv.records[r];
    RecordsGrow(setup, s, ev);
    ConnsGrow(setup, s, ev);
    if r < |s.srv.records| {
      assert record == s.srv.records[r];
    } else {
      assert ConnVouched(setup.env, s.conns[ev.k]);
    }
    assert RecordVouched(s.conns, record);
    RecordStays(s.conns, conns, record);
  }

  lemma StepKeeps(setup: Setup, s: State, ev: Event)
    requires Inv(setup, s) && Allowed(setup, s, ev) && AllVouched(setup.env, s)
    ensures AllVouched(setup.env, Step(setup, s, ev))
  {
    forall k | 0 <= k < |Step(setup, s, ev).conns| ensures ConnVouched(setup.env, Step(setup, s, ev).conns[k]) {
      ConnStaysVouched(setup, s, ev, k);
    }
    forall r | 0 <= r < |Step(setup, s, ev).srv.records|
      ensures RecordVouched(Step(setup, s, ev).conns, Step(setup, s, ev).srv.records[r])
    {
      RecordStaysVouched(setup, s, ev, r);
    }
  }

  lemma {:induction false} ReachableOk(setup: Setup, workers: nat, evs: seq<Event>)
    requires EndToEnd.IsRun(setup, workers, evs)
    ensures AllVouched(setup.env, EndToEnd.After(setup, workers, evs))
  {
    if evs != [] {
      var n := |evs| - 1;
      assert EndToEnd.IsRun(setup, workers, evs[..n]) by {
        assert forall k | 0 <= k < n :: evs[..n][..k] == evs[..k];
      }
      ReachableOk(setup, workers, evs[..n]);
      EndToEnd.ReachableOk(setup, workers, evs, n);
      StepKeeps(setup, EndToEnd.After(setup, workers, evs[..n]), evs[n]);
    }
  }

  /** In every run, every session the server recorded has its client report marked as verified, and
      was answered on a control connection whose client had sent a report for the session's lookup
      key and nonce that verifies under the key derived from the two, if the server runs in mutual
      mode. */
  lemma RecordsRestOnClientReports(setup: Setup, workers: nat, evs: seq<Event>, r: nat)
    requires EndToEnd.IsRun(setup, workers, evs)
    requires r < |EndToEnd.After(setup, workers, evs).srv.records|
    ensures var s := EndToEnd.After(setup, workers, evs);
            var e := s.srv.records[r].entry;
            && s.srv.records[r].clientReportVerified
            && exists k, j :: 0 <= k < |s.conns| && 0 <= j < |s.conns[k].responses|
                 && var a := s.conns[k].responses[j];
                    && a.ask == Ask(e.lookupKey, e.nonce)
                    && (setup.env.mutual ==>
                          a.clientReport.Some?
                          && setup.env.verify(a.clientReport.value, setup.env.clientReportKey(e.lookupKey, e.nonce)))
  {
    ReachableOk(setup, workers, evs);
    var s := EndToEnd.After(setup, workers, evs);
    assert RecordVouched(s.conns, s.srv.records[r]);
    var k, j :| 0 <= k < |s.conns| && 0 <= j < |s.conns[k].responses|
                && s.conns[k].responses[j].ask == Ask(s.srv.records[r].entry.lookupKey, s.srv.records[r].entry.nonce);
    assert ConnVouched(setup.env, s.conns[k]);
  }
}
