/** What the observer reports: a ClientHello record that comes in one packet, or cut into consecutive
    segments, is reported exactly once and whole, at its last segment if the socket is found and at the
    ServerHello that acknowledges its end if not; and what expires or is not acknowledged is given
    up. */
module ReassemblyRuns {
  import opened Basics
  import opened Tls
  import opened Reassembly

  function Then(s: State, ev: Event): State {
    if |s.stashes| == SLOTS then Step(s, ev) else s
  }

  lemma ThenKeeps(s: State, ev: Event)
    requires Inv(s) && Allowed(ev)
    ensures |s.stashes| == SLOTS && Then(s, ev) == Step(s, ev) && Inv(Then(s, ev))
  {
    hide Step;
    StepKeeps(s, ev);
  }

  /** The packets of a client, one after the other. */
  function Fed(s: State, segs: seq<Segment>, os: seq<Oracle>, n: nat): State
    requires n <= |segs| == |os|
  {
    if n == 0 then s else Then(Fed(s, segs, os, n - 1), FromClient(segs[n - 1], os[n - 1]))
  }

  // ----- the flow's stash -----

  predicate Keeps(s: State, i: nat, x: Stash) {
    i < |s.stashes| && s.stashes[i] == x && x.used
  }

  /** No more than 10 s after the stash was begun. */
  predicate Fresh(x: Stash, now: nat) { x.bornNs <= now <= x.bornNs + 10_000_000_000 }

  lemma FindsFresh(s: State, i: nat, x: Stash, now: nat)
    requires Inv(s) && Keeps(s, i, x) && Fresh(x, now)
    ensures var r := Find(s.stashes, x.flow, now); r.1 == Some(i) && r.0[i] == x && |r.0| == SLOTS
  {
    hide FindFrom, StashOk;
    FindOk(s.stashes, x.flow, now);
  }

  /** No stash serves the flow. */
  predicate NoneFor(s: State, flow: Flow) {
    forall j | 0 <= j < |s.stashes| && s.stashes[j].used :: s.stashes[j].flow != flow
  }

  lemma FindsNoStale(s: State, i: nat, x: Stash, now: nat)
    requires Inv(s) && Keeps(s, i, x) && !Fresh(x, now)
    ensures var r := Find(s.stashes, x.flow, now); r.1.None? && NoneFor(s.(stashes := r.0), x.flow)
  {
    hide StashOk;
    StaleIsNotFound(s.stashes, x.flow, now, 0, i);
    FindOk(s.stashes, x.flow, now);
  }

  lemma {:induction false} StaleIsNotFound(st: seq<Stash>, flow: Flow, now: nat, k: nat, i: nat)
    requires k <= |st| && i < |st| && !Fresh(st[i], now)
    requires forall j | 0 <= j < |st| && j != i && st[j].used :: st[j].flow != flow
    ensures FindFrom(st, flow, now, k).1.None?
    decreases |st| - k
  {
    if k < |st| {
      if st[k].used && Stale(st[k], now) {
        StaleIsNotFound(st[k := st[k].(used := false)], flow, now, k + 1, i);
      } else {
        StaleIsNotFound(st, flow, now, k + 1, i);
      }
    }
  }

  // ----- a record and its pieces -----

  /** One complete record of at most 2048 bytes with a ClientHello in it. */
  predicate HelloRecord(record: seq<Byte>) {
    && 5 <= |record| <= 2048 && record[0] == 22 && |record| == 5 + Be16(record, 3)
    && LinuxFind(record, CLIENT_HELLO).Some?
  }

  /** The record cut into consecutive segments of one flow with equally long headers: at least two, the
      first with the record's header, and none of the others looking like the start of a record. */
  predicate Cut(record: seq<Byte>, segs: seq<Segment>, flow: Flow) {
    && |segs| >= 2 && |segs[0].payload| >= 5 && Concat(segs) == record
    && (forall k | 0 <= k < |segs| ::
          SegmentOk(segs[k]) && segs[k].flow == flow && segs[k].payload != [] && segs[k].header == segs[0].header)
    && (forall k | 0 < k < |segs| ::
          && segs[k].rawSeq == (segs[k - 1].rawSeq + |segs[k - 1].payload|) % WRAP
          && !(|segs[k].payload| >= 5 && segs[k].payload[0] == 22))
  }

  /** All in time after the first. */
  predicate Prompt(os: seq<Oracle>) {
    os != [] && forall k | 0 < k < |os| :: os[0].born <= os[k].now <= os[0].born + 10_000_000_000
  }

  lemma {:induction false} PrefixGathered(segs: seq<Segment>, n: nat, m: nat)
    requires n <= m <= |segs| && forall k | 0 <= k < |segs| :: segs[k].payload != []
    ensures Concat(segs[..n]) <= Concat(segs[..m]) && (n < m ==> |Concat(segs[..n])| < |Concat(segs[..m])|)
  {
    hide Concat;
    if n < m {
      PrefixGathered(segs, n, m - 1);
      assert segs[..m] == segs[..m - 1] + [segs[m - 1]];
      ConcatNext(segs[..m - 1], segs[m - 1]);
    }
  }

  /** The stash after the first n segments. */
  function Gathered(segs: seq<Segment>, n: nat, needed: nat, born: nat): Stash
    requires 0 < n <= |segs|
  {
    var last := segs[n - 1];
    Stash(true, false, 0, last.flow, (Sequence(last) + |last.payload|) % WRAP, needed, born, Concat(segs[..n]),
          segs[..n])
  }

  /** Bytes that hold no complete record hold no hello. */
  lemma IncompleteIsNoHello(data: seq<Byte>, cookie: Option<nat>)
    requires |data| < 5 || 5 + Be16(data, 3) > |data|
    ensures EmitOf(data, cookie) == NotHello
  {
  }

  lemma FirstPiece(s: State, record: seq<Byte>, segs: seq<Segment>, flow: Flow, o: Oracle) returns (i: nat)
    requires Inv(s) && HelloRecord(record) && Cut(record, segs, flow)
    ensures var t := Then(s, FromClient(segs[0], o));
            Inv(t) && t.lookups == s.lookups && Keeps(t, i, Gathered(segs, 1, |record|, o.born))
  {
    hide Inv, LinuxFind, Records, FindFrom, EmitOf, Concat;
    ThenKeeps(s, FromClient(segs[0], o));
    PrefixGathered(segs, 1, |segs|);
    assert segs[..|segs|] == segs && segs[..1] == [segs[0]];
    ConcatOne(segs[0]);
    var g := segs[0];
    assert Be16(g.payload, 3) == Be16(record, 3);
    IncompleteIsNoHello(g.payload, o.cookie);
    i := Claim(s.stashes, flow, o.now).1;
    ClaimSized(s.stashes, flow, o.now);
  }

  lemma ClaimSized(st: seq<Stash>, flow: Flow, now: nat)
    requires |st| > 0
    ensures |Claim(st, flow, now).0| == |st| && Claim(st, flow, now).1 < |st|
  {
  }

  /** A continuation reaches the flow's fresh stash. */
  lemma PieceReaches(t: State, i: nat, x: Stash, g: Segment, o: Oracle)
    requires Inv(t) && Keeps(t, i, x) && Fresh(x, o.now) && SegmentOk(g) && g.flow == x.flow && g.payload != []
    requires !(|g.payload| >= 5 && g.payload[0] == 22)
    ensures var found := Find(t.stashes, g.flow, o.now);
            && |found.0| == SLOTS && found.0[i] == x
            && Then(t, FromClient(g, o)) == FeedNext(t.(stashes := found.0), i, g, o)
  {
    hide Inv, LinuxFind, FindFrom, EmitOf, FeedNext;
    FindsFresh(t, i, x, o.now);
    InvSized(t);
  }

  lemma InvSized(s: State)
    requires Inv(s)
    ensures |s.stashes| == SLOTS
  {
  }

  /** The next segment extends what is gathered, as its sequence number is the awaited one. */
  lemma PieceExtends(record: seq<Byte>, segs: seq<Segment>, flow: Flow, n: nat, born: nat)
    requires Cut(record, segs, flow) && 0 < n < |segs|
    ensures var (x, g) := (Gathered(segs, n, |record|, born), segs[n]);
            && Sequence(g) == x.nextSeq && |x.buf| + |g.payload| <= |record|
            && Extended(x, g) == Gathered(segs, n + 1, |record|, born)
            && (|x.buf| + |g.payload| == |record| <==> n + 1 == |segs|)
            && (n + 1 == |segs| ==> Extended(x, g).buf == record)
  {
    hide Concat, LinuxFind;
    PrefixGathered(segs, n + 1, |segs|);
    assert segs[..|segs|] == segs && segs[..n + 1] == segs[..n] + [segs[n]];
    ConcatNext(segs[..n], segs[n]);
    AcceptedExactly(segs[n - 1], segs[n]);
  }

  lemma NextPiece(t: State, i: nat, record: seq<Byte>, segs: seq<Segment>, flow: Flow, n: nat, born: nat, o: Oracle)
    requires Inv(t) && HelloRecord(record) && Cut(record, segs, flow) && 0 < n < |segs| - 1
    requires Keeps(t, i, Gathered(segs, n, |record|, born)) && born <= o.now <= born + 10_000_000_000
    ensures var u := Then(t, FromClient(segs[n], o));
            Inv(u) && u.lookups == t.lookups && Keeps(u, i, Gathered(segs, n + 1, |record|, born))
  {
    hide Inv, LinuxFind, FindFrom, EmitOf, Concat, Sequence, Extended, Then;
    var x := Gathered(segs, n, |record|, born);
    ThenKeeps(t, FromClient(segs[n], o));
    PieceReaches(t, i, x, segs[n], o);
    PieceExtends(record, segs, flow, n, born);
    assert |Extended(x, segs[n]).buf| == |x.buf| + |segs[n].payload| && Extended(x, segs[n]).needed == |record| by {
      ExtendedSized(x, segs[n]);
    }
  }

  lemma ExtendedSized(x: Stash, g: Segment)
    ensures |Extended(x, g).buf| == |x.buf| + |g.payload| && Extended(x, g).needed == x.needed
  {
  }

  /** The end of the record on the wire. */
  function End(segs: seq<Segment>): nat
    requires segs != []
  {
    var last := segs[|segs| - 1];
    (last.rawSeq + |last.payload|) % WRAP
  }

  /** The stash of a record whose socket could not be found. */
  function Put(segs: seq<Segment>, needed: nat, born: nat): Stash
    requires segs != []
  {
    Gathered(segs, |segs|, needed, born).(deferred := true, rawEnd := End(segs))
  }

  lemma LastPiece(t: State, i: nat, record: seq<Byte>, segs: seq<Segment>, flow: Flow, born: nat, o: Oracle)
    requires Inv(t) && HelloRecord(record) && Cut(record, segs, flow)
    requires Keeps(t, i, Gathered(segs, |segs| - 1, |record|, born)) && born <= o.now <= born + 10_000_000_000
    ensures var u := Then(t, FromClient(segs[|segs| - 1], o));
            && Inv(u)
            && (if o.cookie.Some? then
                  u.lookups == t.lookups + [Lookup(flow, record, o.now, o.cookie.value, segs, true)]
                else u.lookups == t.lookups && Keeps(u, i, Put(segs, |record|, born)))
  {
    hide Inv, LinuxFind, FindFrom, Concat, Sequence, Extended, Then;
    var n := |segs| - 1;
    var x := Gathered(segs, n, |record|, born);
    ThenKeeps(t, FromClient(segs[n], o));
    PieceReaches(t, i, x, segs[n], o);
    PieceExtends(record, segs, flow, n, born);
    ExtendedSized(x, segs[n]);
    assert segs[..|segs|] == segs;
  }

  lemma {:induction false} PiecesGather(s: State, record: seq<Byte>, segs: seq<Segment>, flow: Flow, os: seq<Oracle>,
                                        n: nat)
    returns (i: nat)
    requires Inv(s) && HelloRecord(record) && Cut(record, segs, flow) && |os| == |segs| && Prompt(os)
    requires 0 < n < |segs|
    ensures var t := Fed(s, segs, os, n);
            Inv(t) && t.lookups == s.lookups && Keeps(t, i, Gathered(segs, n, |record|, os[0].born))
  {
    hide Inv, HelloRecord, Then, Gathered;
    if n == 1 {
      i := FirstPiece(s, record, segs, flow, os[0]);
      assert Fed(s, segs, os, 0) == s;
    } else {
      i := PiecesGather(s, record, segs, flow, os, n - 1);
      NextPiece(Fed(s, segs, os, n - 1), i, record, segs, flow, n - 1, os[0].born, os[n - 1]);
    }
  }

  /** A cut record is reported exactly once, whole, with the last segment, if its socket is found then;
      otherwise nothing is reported and the record is put aside. */
  lemma {:induction false} CutRecordReported(s: State, record: seq<Byte>, segs: seq<Segment>, flow: Flow,
                                             os: seq<Oracle>)
    returns (i: nat)
    requires Inv(s) && HelloRecord(record) && Cut(record, segs, flow) && |os| == |segs| && Prompt(os)
    ensures var (t, o) := (Fed(s, segs, os, |segs|), os[|segs| - 1]);
            && Inv(t)
            && (if o.cookie.Some? then
                  t.lookups == s.lookups + [Lookup(flow, record, o.now, o.cookie.value, segs, true)]
                else t.lookups == s.lookups && Keeps(t, i, Put(segs, |record|, os[0].born)))
  {
    hide Inv, HelloRecord, Then, Gathered, Put;
    var n := |segs| - 1;
    i := PiecesGather(s, record, segs, flow, os, n);
    LastPiece(Fed(s, segs, os, n), i, record, segs, flow, os[0].born, os[n]);
  }

  // ----- a record that was put aside -----

  /** A ServerHello on a socket that is found settles the record put aside for its flow: it is reported,
      with the time it was begun, exactly if the ServerHello comes in time, acknowledges the record's
      end, and the socket is still the same; and no stash is left for the flow either way. */
  lemma PutAsideSettled(t: State, i: nat, x: Stash, g: Segment, o: Oracle, again: Option<nat>)
    requires Inv(t) && Keeps(t, i, x) && x.deferred && SegmentOk(g) && g.flow == x.flow && o.cookie.Some?
    ensures var u := Then(t, FromServer(g, o, again));
            && NoneFor(u, x.flow)
            && u.lookups == t.lookups
                            + if Fresh(x, o.now) && g.ack == x.rawEnd && again == o.cookie then
                                [Lookup(x.flow, x.buf, x.bornNs, o.cookie.value, x.parts, true)]
                              else []
  {
    hide FindFrom, LinuxFind, Concat, Records;
    ThenKeeps(t, FromServer(g, o, again));
    assert StashOk(x);
    if Fresh(x, o.now) {
      FindsFresh(t, i, x, o.now);
      FindOk(t.stashes, x.flow, o.now);
    } else {
      FindsNoStale(t, i, x, o.now);
    }
  }

  /** So a cut record whose socket is not found at its end is reported whole at the ServerHello that
      acknowledges that end. */
  lemma {:induction false} CutRecordRecovered(s: State, record: seq<Byte>, segs: seq<Segment>, flow: Flow,
                                              os: seq<Oracle>, g: Segment, o: Oracle)
    requires Inv(s) && HelloRecord(record) && Cut(record, segs, flow) && |os| == |segs| && Prompt(os)
    requires os[|segs| - 1].cookie.None? && SegmentOk(g) && g.flow == flow && g.ack == End(segs) && o.cookie.Some?
    requires os[0].born <= o.now <= os[0].born + 10_000_000_000
    ensures Then(Fed(s, segs, os, |segs|), FromServer(g, o, o.cookie)).lookups
         == s.lookups + [Lookup(flow, record, os[0].born, o.cookie.value, segs, true)]
  {
    hide Inv, HelloRecord, Then, Fed;
    var i := CutRecordReported(s, record, segs, flow, os);
    var (t, x) := (Fed(s, segs, os, |segs|), Put(segs, |record|, os[0].born));
    assert segs[..|segs|] == segs;
    assert x.deferred && x.flow == flow && x.buf == record && x.parts == segs;
    PutAsideSettled(t, i, x, g, o, o.cookie);
  }

  // ----- a record in one packet -----

  /** A packet that starts a record and has a ClientHello is reported at once if its socket is found.
      If not, its first record is put aside if that is complete, at most 2048 bytes and has the
      ClientHello. */
  lemma PacketReported(s: State, g: Segment, o: Oracle) returns (i: nat)
    requires Inv(s) && SegmentOk(g) && |g.payload| > 5 && g.payload[0] == 22
    requires LinuxFind(g.payload, CLIENT_HELLO).Some?
    ensures var t := Then(s, FromClient(g, o));
            && Inv(t)
            && (if o.cookie.Some? then
                  && t.lookups == s.lookups + [Lookup(g.flow, g.payload, o.now, o.cookie.value, [g], false)]
                  && NoneFor(t, g.flow)
                else
                  && t.lookups == s.lookups
                  && var n := 5 + Be16(g.payload, 3);
                     n <= |g.payload| && HelloRecord(g.payload[..n]) ==>
                       Keeps(t, i, Stash(true, true, End([g]), g.flow, 0, n, o.born, g.payload[..n], [g])))
  {
    hide Inv, FindFrom, LinuxFind, Concat, Records;
    ThenKeeps(s, FromClient(g, o));
    i := Claim(s.stashes, g.flow, o.now).1;
    ClaimSized(s.stashes, g.flow, o.now);
    ClearLeavesNone(s, g.flow, o.now);
    assert |g.payload| >= 5 + Be16(g.payload, 3) ==>
             Be16(g.payload[..5 + Be16(g.payload, 3)], 3) == Be16(g.payload, 3);
  }

  lemma ClearLeavesNone(s: State, flow: Flow, now: nat)
    requires Inv(s)
    ensures |Clear(s.stashes, flow, now)| == |s.stashes| && NoneFor(s.(stashes := Clear(s.stashes, flow, now)), flow)
  {
    ClearOk(s.stashes, flow, now);
  }

  /** A continuation that comes too late finds nothing: nothing is reported and the stash is given up. */
  lemma LatePieceLost(t: State, i: nat, x: Stash, g: Segment, o: Oracle)
    requires Inv(t) && Keeps(t, i, x) && !Fresh(x, o.now) && SegmentOk(g) && g.flow == x.flow
    requires g.payload != [] && !(|g.payload| >= 5 && g.payload[0] == 22)
    ensures var u := Then(t, FromClient(g, o)); u.lookups == t.lookups && NoneFor(u, x.flow)
  {
    hide Inv, FindFrom, LinuxFind, EmitOf;
    InvSized(t);
    FindsNoStale(t, i, x, o.now);
  }
}
