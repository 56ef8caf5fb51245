/** ClientHello reassembly in the packet observer: 128 stashes, one per flow, that rebuild a record
    split over segments, hold it back while the socket cannot be found, and give up after 10 s.
    parts is a history field: the segments whose bytes a stash holds. */
module Reassembly {
  import opened Basics
  import opened Tls

  const SLOTS: nat := 128
  const RECORD_MAX: nat := 2048
  const TTL_NS: nat := 10_000_000_000
  const WRAP: nat := 0x1_0000_0000

  /** A TCP segment: the sequence number on the wire, the TCP header length in bytes, and the
      acknowledgement number. */
  datatype Segment = Segment(flow: Flow, rawSeq: nat, header: nat, ack: nat, payload: seq<Byte>)

  /** The parser reports the sequence number with the TCP header length added to it. */
  function Sequence(g: Segment): nat { (g.rawSeq + g.header) % WRAP }

  predicate SegmentOk(g: Segment) { g.rawSeq < WRAP && 20 <= g.header <= 60 }

  datatype Stash = Stash(
    used: bool, deferred: bool, rawEnd: nat, flow: Flow, nextSeq: nat, needed: nat, bornNs: nat,
    buf: seq<Byte>, parts: seq<Segment>)

  const CLEARED := Stash(false, false, 0, Flow(0, 0, 0, 0), 0, 0, 0, [], [])

  /** A call of the lookup callback: the record it is for and the segments the record came from. */
  datatype Lookup = Lookup(flow: Flow, record: seq<Byte>, t: nat, cookie: nat, parts: seq<Segment>, stashed: bool)

  datatype State = State(stashes: seq<Stash>, lookups: seq<Lookup>)

  function Init(): State { State(seq(SLOTS, _ => CLEARED), []) }

  /** now - born is modulo 2^64, so a reading before born counts as expired. */
  predicate Stale(x: Stash, now: nat) { now < x.bornNs || now - x.bornNs > TTL_NS }

  /** ch_find_stash from slot i on: expired stashes met on the way are given up. */
  function FindFrom(st: seq<Stash>, flow: Flow, now: nat, i: nat): (r: (seq<Stash>, Option<nat>))
    requires i <= |st|
    ensures |r.0| == |st| && (r.1.Some? ==> r.1.value < |st|)
    decreases |st| - i
  {
    if i == |st| then (st, None)
    else if !st[i].used then FindFrom(st, flow, now, i + 1)
    else if Stale(st[i], now) then FindFrom(st[i := st[i].(used := false)], flow, now, i + 1)
    else if st[i].flow == flow then (st, Some(i))
    else FindFrom(st, flow, now, i + 1)
  }

  function Find(st: seq<Stash>, flow: Flow, now: nat): (r: (seq<Stash>, Option<nat>))
    ensures |r.0| == |st| && (r.1.Some? ==> r.1.value < |st|)
  {
    FindFrom(st, flow, now, 0)
  }

  /** ch_clear_stash. */
  function Clear(st: seq<Stash>, flow: Flow, now: nat): seq<Stash> {
    var r := Find(st, flow, now);
    if r.1.Some? then r.0[r.1.value := r.0[r.1.value].(used := false)] else r.0
  }

  /** The slot ch_claim_stash takes for a flow without one: the first unused, else the oldest. */
  function VictimFrom(st: seq<Stash>, i: nat, best: nat): (v: nat)
    requires i <= |st| && best < |st|
    ensures v < |st|
    decreases |st| - i
  {
    if i == |st| then best
    else if !st[i].used then i
    else VictimFrom(st, i + 1, if st[i].bornNs < st[best].bornNs then i else best)
  }

  /** ch_claim_stash, before the new record's bytes are copied in. */
  function Claim(st: seq<Stash>, flow: Flow, now: nat): (seq<Stash>, nat)
    requires |st| > 0
  {
    var r := Find(st, flow, now);
    (r.0, if r.1.Some? then r.1.value else VictimFrom(r.0, 0, 0))
  }

  datatype Emit = NotHello | NoSocket | Emitted

  /** ch_emit. */
  function EmitOf(record: seq<Byte>, cookie: Option<nat>): Emit {
    if LinuxFind(record, CLIENT_HELLO).None? then NotHello
    else if cookie.None? then NoSocket
    else Emitted
  }

  function Whole(g: Segment, needed: nat, born: nat): Stash
    requires needed <= |g.payload|
  {
    Stash(true, true, (g.rawSeq + |g.payload|) % WRAP, g.flow, 0, needed, born, g.payload[..needed], [g])
  }

  function Begun(g: Segment, needed: nat, born: nat): Stash {
    Stash(true, false, 0, g.flow, (Sequence(g) + |g.payload|) % WRAP, needed, born, g.payload, [g])
  }

  function Extended(x: Stash, g: Segment): Stash {
    x.(buf := x.buf + g.payload, nextSeq := (x.nextSeq + |g.payload|) % WRAP, parts := x.parts + [g])
  }

  /** Clock readings and socket lookups of one call. */
  datatype Oracle = Oracle(now: nat, born: nat, cookie: Option<nat>)

  function Needed(g: Segment): nat
    requires |g.payload| >= 5
  {
    5 + Be16(g.payload, 3)
  }

  /** ch_feed. */
  function Feed(s: State, g: Segment, o: Oracle): State
    requires |s.stashes| == SLOTS
  {
    if |g.payload| >= 5 && g.payload[0] == HANDSHAKE then
      var needed := Needed(g);
      if needed <= |g.payload| then
        if needed <= RECORD_MAX && LinuxFind(g.payload[..needed], CLIENT_HELLO).Some? then
          var c := Claim(s.stashes, g.flow, o.now);
          s.(stashes := c.0[c.1 := Whole(g, needed, o.born)])
        else s.(stashes := Clear(s.stashes, g.flow, o.now))
      else if needed > RECORD_MAX then s.(stashes := Clear(s.stashes, g.flow, o.now))
      else
        var c := Claim(s.stashes, g.flow, o.now);
        s.(stashes := c.0[c.1 := Begun(g, needed, o.born)])
    else
      var r := Find(s.stashes, g.flow, o.now);
      if r.1.None? then s.(stashes := r.0)
      else FeedNext(s.(stashes := r.0), r.1.value, g, o)
  }

  /** The continuation of a split record. */
  function FeedNext(s: State, i: nat, g: Segment, o: Oracle): State
    requires i < |s.stashes|
  {
    var x := s.stashes[i];
    if Sequence(g) != x.nextSeq || |x.buf| + |g.payload| > x.needed then s
    else
      var y := Extended(x, g);
      if |y.buf| != y.needed then s.(stashes := s.stashes[i := y])
      else
        match EmitOf(y.buf, o.cookie)
        case NoSocket =>
          s.(stashes := s.stashes[i := y.(deferred := true, rawEnd := (g.rawSeq + |g.payload|) % WRAP)])
        case NotHello => s.(stashes := s.stashes[i := y.(used := false)])
        case Emitted =>
          State(s.stashes[i := y.(used := false)],
                s.lookups + [Lookup(g.flow, y.buf, o.now, o.cookie.value, y.parts, true)])
  }

  /** capture_packet, client side: a packet with a hello of its own is reported at once. */
  function ClientPacket(s: State, g: Segment, o: Oracle): State
    requires |s.stashes| == SLOTS
  {
    if g.payload == [] then s
    else if |g.payload| > 5 && g.payload[0] == HANDSHAKE && EmitOf(g.payload, o.cookie) == Emitted then
      State(Clear(s.stashes, g.flow, o.now), s.lookups + [Lookup(g.flow, g.payload, o.now, o.cookie.value, [g], false)])
    else Feed(s, g, o)
  }

  /** capture_packet, server side: a ServerHello that acknowledges exactly the end of a deferred
      record, on an unchanged socket, recovers it; any other ServerHello gives it up. */
  function ServerHelloPacket(s: State, g: Segment, o: Oracle, again: Option<nat>): State {
    if o.cookie.None? then s
    else
      var r := Find(s.stashes, g.flow, o.now);
      if r.1.None? || !r.0[r.1.value].deferred then s.(stashes := r.0)
      else
        var x := r.0[r.1.value];
        var done := r.0[r.1.value := x.(used := false)];
        if x.rawEnd == g.ack && again == o.cookie && LinuxFind(x.buf, CLIENT_HELLO).Some? then
          State(done, s.lookups + [Lookup(g.flow, x.buf, x.bornNs, o.cookie.value, x.parts, true)])
        else s.(stashes := done)
  }

  datatype Event =
    | FromClient(segment: Segment, oracle: Oracle)
    | FromServer(segment: Segment, oracle: Oracle, again: Option<nat>)

  function Step(s: State, ev: Event): State
    requires |s.stashes| == SLOTS
  {
    match ev
    case FromClient(g, o) => ClientPacket(s, g, o)
    case FromServer(g, o, again) => ServerHelloPacket(s, g, o, again)
  }

  // ----- what a stash holds -----

  function Concat(parts: seq<Segment>): seq<Byte> {
    if parts == [] then [] else Concat(parts[..|parts| - 1]) + parts[|parts| - 1].payload
  }

  /** Each segment was accepted as the continuation of the one before. */
  predicate Chained(parts: seq<Segment>) {
    forall k | 0 < k < |parts| :: Sequence(parts[k]) == (Sequence(parts[k - 1]) + |parts[k - 1].payload|) % WRAP
  }

  predicate PartsOk(parts: seq<Segment>, flow: Flow) {
    && parts != [] && Chained(parts)
    && (forall k | 0 <= k < |parts| :: SegmentOk(parts[k]) && parts[k].flow == flow)
  }

  /** The bytes are the start of a record of this length. */
  predicate RecordPrefix(buf: seq<Byte>, needed: nat) {
    |buf| >= 5 && buf[0] == HANDSHAKE && needed == 5 + Be16(buf, 3) && |buf| <= needed
  }

  predicate StashOk(x: Stash) {
    x.used ==>
      && RecordPrefix(x.buf, x.needed) && x.needed <= RECORD_MAX
      && PartsOk(x.parts, x.flow)
      && (x.deferred ==> |x.buf| == x.needed && LinuxFind(x.buf, CLIENT_HELLO).Some?
                         && (|x.parts| == 1 || x.buf == Concat(x.parts)))
      && (!x.deferred ==> |x.buf| < x.needed && x.buf == Concat(x.parts)
                          && x.nextSeq == (Sequence(x.parts[|x.parts| - 1]) + |x.parts[|x.parts| - 1].payload|) % WRAP)
      && x.buf <= Concat(x.parts)
  }

  ghost predicate StashesOk(st: seq<Stash>) {
    && |st| == SLOTS
    && (forall i | 0 <= i < |st| :: StashOk(st[i]))
    && (forall i, j | 0 <= i < |st| && 0 <= j < |st| && i != j && st[i].used && st[j].used :: st[i].flow != st[j].flow)
  }

  /** What was reported from a stash is one complete record with a ClientHello in it: exactly the bytes
      of consecutive segments of the flow, or, deferred from a single segment, the front of that. */
  predicate LookupOk(l: Lookup) {
    l.stashed ==>
      && |l.record| >= 5 && |l.record| == 5 + Be16(l.record, 3) && l.record[0] == HANDSHAKE
      && PartsOk(l.parts, l.flow)
      && l.record <= Concat(l.parts) && (|l.parts| == 1 || l.record == Concat(l.parts))
      && LinuxFind(l.record, CLIENT_HELLO).Some?
  }

  ghost predicate Inv(s: State) {
    StashesOk(s.stashes) && forall k | 0 <= k < |s.lookups| :: LookupOk(s.lookups[k])
  }

  // ----- searching, clearing, claiming -----

  /** Some stashes of `st` that were stale have been given up. */
  predicate GaveUpStale(st: seq<Stash>, left: seq<Stash>, now: nat) {
    |left| == |st|
    && forall j | 0 <= j < |st| :: left[j] == st[j] || (left[j] == st[j].(used := false) && Stale(st[j], now))
  }

  lemma GivingUpKeeps(st: seq<Stash>, left: seq<Stash>, now: nat)
    requires StashesOk(st) && GaveUpStale(st, left, now)
    ensures StashesOk(left)
  {
  }

  /** The search stops at a stash of the flow, and otherwise leaves none of it in use. */
  lemma {:induction false} FindFromOk(st: seq<Stash>, flow: Flow, now: nat, i: nat)
    requires i <= |st| && forall j | 0 <= j < i && st[j].used :: st[j].flow != flow
    ensures var r := FindFrom(st, flow, now, i);
            && GaveUpStale(st, r.0, now)
            && (r.1.Some? ==> r.0[r.1.value].used && r.0[r.1.value].flow == flow)
            && (r.1.None? ==> forall j | 0 <= j < |st| && r.0[j].used :: r.0[j].flow != flow)
    decreases |st| - i
  {
    if i < |st| {
      if st[i].used && Stale(st[i], now) {
        FindFromOk(st[i := st[i].(used := false)], flow, now, i + 1);
      } else if !st[i].used || st[i].flow != flow {
        FindFromOk(st, flow, now, i + 1);
      }
    }
  }

  /** The search only gives up stale stashes; it finds the flow's one live stash or leaves none. */
  lemma FindOk(st: seq<Stash>, flow: Flow, now: nat)
    requires StashesOk(st)
    ensures var r := Find(st, flow, now);
            && StashesOk(r.0) && GaveUpStale(st, r.0, now)
            && (r.1.Some? ==> r.0[r.1.value].used && r.0[r.1.value].flow == flow)
            && (r.1.None? ==> forall j | 0 <= j < |st| && r.0[j].used :: r.0[j].flow != flow)
  {
    FindFromOk(st, flow, now, 0);
    GivingUpKeeps(st, Find(st, flow, now).0, now);
  }

  /** The victim is unused, or every slot is in use and none is older. */
  lemma {:induction false} VictimOk(st: seq<Stash>, i: nat, best: nat)
    requires i <= |st| && best < |st|
    requires forall j | 0 <= j < i :: st[j].used && st[best].bornNs <= st[j].bornNs
    requires i == 0 ==> best == 0
    ensures var v := VictimFrom(st, i, best);
            !st[v].used || forall j | 0 <= j < |st| :: st[j].used && st[v].bornNs <= st[j].bornNs
    decreases |st| - i
  {
    if i < |st| && st[i].used {
      VictimOk(st, i + 1, if st[i].bornNs < st[best].bornNs then i else best);
    }
  }

  /** Eviction: a claim takes the flow's own stash, an unused slot, or, only when all slots are in
      use by other flows, the oldest. */
  lemma ClaimOk(st: seq<Stash>, flow: Flow, now: nat)
    requires StashesOk(st)
    ensures var c := Claim(st, flow, now);
            && StashesOk(c.0) && c.1 < |c.0|
            && (forall j | 0 <= j < |c.0| && j != c.1 && c.0[j].used :: c.0[j].flow != flow)
            && (c.0[c.1].used ==>
                  c.0[c.1].flow == flow || forall j | 0 <= j < |c.0| :: c.0[j].used && c.0[c.1].bornNs <= c.0[j].bornNs)
  {
    FindOk(st, flow, now);
    var r := Find(st, flow, now);
    if r.1.None? {
      VictimOk(r.0, 0, 0);
    }
  }

  lemma WriteOk(st: seq<Stash>, i: nat, x: Stash)
    requires StashesOk(st) && i < |st| && StashOk(x)
    requires x.used ==> forall j | 0 <= j < |st| && j != i && st[j].used :: st[j].flow != x.flow
    ensures StashesOk(st[i := x])
  {
  }

  lemma ClearOk(st: seq<Stash>, flow: Flow, now: nat)
    requires StashesOk(st)
    ensures StashesOk(Clear(st, flow, now))
    ensures forall j | 0 <= j < |st| && Clear(st, flow, now)[j].used :: Clear(st, flow, now)[j].flow != flow
  {
    FindOk(st, flow, now);
    var r := Find(st, flow, now);
    if r.1.Some? {
      WriteOk(r.0, r.1.value, r.0[r.1.value].(used := false));
    }
  }

  // ----- every step keeps the invariant -----

  lemma ConcatNext(parts: seq<Segment>, g: Segment)
    ensures Concat(parts + [g]) == Concat(parts) + g.payload
  {
    assert (parts + [g])[..|parts|] == parts;
  }

  lemma ConcatOne(g: Segment)
    ensures Concat([g]) == g.payload
  {
    ConcatNext([], g);
    assert [] + [g] == [g];
  }

  lemma BegunOk(g: Segment, needed: nat, born: nat)
    requires SegmentOk(g) && RecordPrefix(g.payload, needed) && |g.payload| < needed <= RECORD_MAX
    ensures StashOk(Begun(g, needed, born))
  {
    hide Concat, LinuxFind, RecordPrefix;
    ConcatOne(g);
  }

  lemma WholeOk(g: Segment, needed: nat, born: nat)
    requires SegmentOk(g) && 5 <= needed <= |g.payload| && needed <= RECORD_MAX
             && RecordPrefix(g.payload[..needed], needed)
    requires LinuxFind(g.payload[..needed], CLIENT_HELLO).Some?
    ensures StashOk(Whole(g, needed, born))
  {
    hide Concat, LinuxFind, RecordPrefix;
    ConcatOne(g);
  }

  /** Appending the next segment in sequence. */
  lemma ExtendedOk(x: Stash, g: Segment)
    requires StashOk(x) && x.used && !x.deferred && SegmentOk(g) && g.flow == x.flow
    requires Sequence(g) == x.nextSeq && |x.buf| + |g.payload| <= x.needed
    ensures var y := Extended(x, g);
            && RecordPrefix(y.buf, y.needed) && PartsOk(y.parts, y.flow) && y.buf == Concat(y.parts)
            && y.nextSeq == (Sequence(g) + |g.payload|) % WRAP && y.parts[|y.parts| - 1] == g
  {
    hide Concat, LinuxFind;
    ConcatNext(x.parts, g);
    var y := Extended(x, g);
    assert Be16(y.buf, 3) == Be16(x.buf, 3);
    assert forall k | 0 <= k < |x.parts| :: y.parts[k] == x.parts[k];
  }

  lemma FeedNextKeeps(s: State, i: nat, g: Segment, o: Oracle)
    requires Inv(s) && i < |s.stashes| && s.stashes[i].used && s.stashes[i].flow == g.flow && SegmentOk(g)
             && g.payload != []
    ensures Inv(FeedNext(s, i, g, o))
  {
    hide Concat, Chained, Sequence, LinuxFind, Be16;
    var x := s.stashes[i];
    if Sequence(g) == x.nextSeq && |x.buf| + |g.payload| <= x.needed {
      ExtendedOk(x, g);
      var y := Extended(x, g);
      var z := FeedNext(s, i, g, o).stashes[i];
      WriteOk(s.stashes, i, z);
    }
  }

  lemma FeedKeeps(s: State, g: Segment, o: Oracle)
    requires Inv(s) && SegmentOk(g) && g.payload != []
    ensures Inv(Feed(s, g, o))
  {
    if |g.payload| >= 5 && g.payload[0] == HANDSHAKE {
      var needed := Needed(g);
      ClaimOk(s.stashes, g.flow, o.now);
      ClearOk(s.stashes, g.flow, o.now);
      var c := Claim(s.stashes, g.flow, o.now);
      if needed <= |g.payload| {
        if needed <= RECORD_MAX && LinuxFind(g.payload[..needed], CLIENT_HELLO).Some? {
          assert Be16(g.payload[..needed], 3) == Be16(g.payload, 3);
          WholeOk(g, needed, o.born);
          WriteOk(c.0, c.1, Whole(g, needed, o.born));
        }
      } else if needed <= RECORD_MAX {
        BegunOk(g, needed, o.born);
        WriteOk(c.0, c.1, Begun(g, needed, o.born));
      }
    } else {
      FindOk(s.stashes, g.flow, o.now);
      var r := Find(s.stashes, g.flow, o.now);
      if r.1.Some? {
        FeedNextKeeps(s.(stashes := r.0), r.1.value, g, o);
      }
    }
  }

  lemma ServerKeeps(s: State, g: Segment, o: Oracle, again: Option<nat>)
    requires Inv(s)
    ensures Inv(ServerHelloPacket(s, g, o, again))
  {
    FindOk(s.stashes, g.flow, o.now);
    var r := Find(s.stashes, g.flow, o.now);
    if o.cookie.Some? && r.1.Some? {
      assert StashOk(r.0[r.1.value]);
      WriteOk(r.0, r.1.value, r.0[r.1.value].(used := false));
    }
  }

  predicate Allowed(ev: Event) { SegmentOk(ev.segment) }

  lemma StepKeeps(s: State, ev: Event)
    requires Inv(s) && Allowed(ev)
    ensures Inv(Step(s, ev))
  {
    match ev
    case FromClient(g, o) =>
      ClearOk(s.stashes, g.flow, o.now);
      if g.payload != [] {
        FeedKeeps(s, g, o);
      }
    case FromServer(g, o, again) => ServerKeeps(s, g, o, again);
  }

  function After(evs: seq<Event>): (s: State)
    ensures |s.stashes| == SLOTS
  {
    if evs == [] then Init()
    else
      var s := Step(After(evs[..|evs| - 1]), evs[|evs| - 1]);
      if |s.stashes| == SLOTS then s else Init()
  }

  /** In every run each flow has at most one used stash, no stash outgrows its record, and every
      record reported from a stash is exactly one complete record carried by consecutive segments. */
  lemma {:induction false} ReachableOk(evs: seq<Event>)
    requires forall k | 0 <= k < |evs| :: Allowed(evs[k])
    ensures Inv(After(evs))
  {
    if evs != [] {
      ReachableOk(evs[..|evs| - 1]);
      StepKeeps(After(evs[..|evs| - 1]), evs[|evs| - 1]);
    }
  }

  /** What is reported as one record parses as exactly one record. */
  lemma ReportedRecordIsComplete(l: Lookup)
    requires LookupOk(l) && l.stashed
    ensures Records(l.record) == [Record(HANDSHAKE, l.record[5..])]
  {
    assert l.record[5..5 + Be16(l.record, 3)] == l.record[5..];
    assert l.record[5 + Be16(l.record, 3)..] == [];
  }

  // ----- contiguity -----

  /** An accepted continuation is contiguous on the wire exactly when both segments have the same
      TCP header length: the sequence numbers compared have the header length added in. */
  lemma ContiguousExactly(a: Segment, b: Segment)
    requires SegmentOk(a) && SegmentOk(b) && Sequence(b) == (Sequence(a) + |a.payload|) % WRAP
    ensures b.rawSeq == (a.rawSeq + |a.payload|) % WRAP <==> a.header == b.header
  {
  }

  /** And of two contiguous segments the second is accepted exactly when both headers are equally long. */
  lemma AcceptedExactly(a: Segment, b: Segment)
    requires SegmentOk(a) && SegmentOk(b) && b.rawSeq == (a.rawSeq + |a.payload|) % WRAP
    ensures Sequence(b) == (Sequence(a) + |a.payload|) % WRAP <==> a.header == b.header
  {
  }

  /** A record of four payload bytes in two contiguous segments, the second with the given TCP header
      length, on a socket that is found. */
  function SplitHello(header: nat): seq<Event> {
    var flow := Flow(1, 2, 3, 4);
    var o := Oracle(0, 0, Some(7));
    [FromClient(Segment(flow, 100, 20, 0, [22, 3, 1, 0, 4]), o),
     FromClient(Segment(flow, 105, header, 0, [1, 0, 0, 0]), o)]
  }

  /** With headers of 20 and 32 bytes the second segment is refused and the stash stays as it was, with
      five of nine bytes; with headers of 20 bytes it is taken. */
  lemma UnequalHeadersRefused()
    ensures var (before, refused, taken) := (After(SplitHello(32)[..1]), After(SplitHello(32)), After(SplitHello(20)));
            && before.stashes[0].used && before.stashes[0].buf == [22, 3, 1, 0, 4] && before.stashes[0].needed == 9
            && refused == before
            && taken.stashes[0].buf == [22, 3, 1, 0, 4, 1, 0, 0, 0]
  {
    hide After, EmitOf, LinuxFind, FindFrom, Concat;
    FirstHalf(32);
    SecondHalf(32);
    FirstHalf(20);
    SecondHalf(20);
    assert [22, 3, 1, 0, 4] + [1, 0, 0, 0] == [22, 3, 1, 0, 4, 1, 0, 0, 0];
  }

  /** The state after the first segment. */
  function HalfHello(): State {
    State(Init().stashes[0 := Begun(SplitHello(20)[0].segment, 9, 0)], [])
  }

  lemma FirstHalf(header: nat)
    ensures After(SplitHello(header)[..1]) == HalfHello()
  {
    var evs := SplitHello(header)[..1];
    var (g, o) := (evs[0].segment, evs[0].oracle);
    assert evs[..0] == [];
    NoneInUse(Init().stashes, g.flow, o.now, 0);
  }

  /** The second segment meets the stash of its flow in slot 0. */
  lemma SecondHalf(header: nat)
    ensures var e := SplitHello(header)[1];
            After(SplitHello(header)) == FeedNext(HalfHello(), 0, e.segment, e.oracle)
  {
    hide EmitOf, Extended;
    var evs := SplitHello(header);
    var (s, g, o) := (HalfHello(), evs[1].segment, evs[1].oracle);
    FirstHalf(header);
    assert evs[..|evs| - 1] == evs[..1];
    assert After(evs) == Step(After(evs[..1]), evs[1]);
    assert After(evs[..1]) == s;
    assert Find(s.stashes, g.flow, o.now) == (s.stashes, Some(0));
    assert s.(stashes := s.stashes) == s;
    assert Feed(s, g, o) == FeedNext(s, 0, g, o);
  }

  lemma {:induction false} NoneInUse(st: seq<Stash>, flow: Flow, now: nat, i: nat)
    requires i <= |st| && forall j | 0 <= j < |st| :: !st[j].used
    ensures FindFrom(st, flow, now, i) == (st, None)
    decreases |st| - i
  {
    if i < |st| {
      NoneInUse(st, flow, now, i + 1);
    }
  }

  /** The segments are pieces of one byte stream that starts at sequence number isn. */
  predicate PiecesOf(stream: seq<Byte>, isn: nat, parts: seq<Segment>, at: seq<nat>) {
    && |at| == |parts|
    && (forall k | 0 <= k < |parts| ::
          && at[k] + |parts[k].payload| <= |stream|
          && parts[k].rawSeq == (isn + at[k]) % WRAP
          && parts[k].payload == stream[at[k]..at[k] + |parts[k].payload|])
  }

  /** Consecutive accepted segments with equal header lengths meet in the stream. */
  lemma PiecesMeet(stream: seq<Byte>, isn: nat, parts: seq<Segment>, at: seq<nat>, flow: Flow, k: nat)
    requires |stream| < WRAP && PartsOk(parts, flow) && PiecesOf(stream, isn, parts, at)
    requires 0 < k < |parts| && parts[k].header == parts[k - 1].header
    ensures at[k] == at[k - 1] + |parts[k - 1].payload|
  {
    var a, b := parts[k - 1], parts[k];
    ContiguousExactly(a, b);
    OffsetsMeet(isn, at[k - 1], |a.payload|, at[k], |stream|);
  }

  lemma {:induction false} ConcatOfSlices(stream: seq<Byte>, parts: seq<Segment>, at: seq<nat>)
    requires |at| == |parts| > 0
    requires forall k | 0 <= k < |parts| ::
               at[k] + |parts[k].payload| <= |stream| && parts[k].payload == stream[at[k]..at[k] + |parts[k].payload|]
    requires forall k | 0 < k < |parts| :: at[k] == at[k - 1] + |parts[k - 1].payload|
    ensures at[0] + |Concat(parts)| == at[|parts| - 1] + |parts[|parts| - 1].payload|
    ensures at[0] <= at[|parts| - 1] && Concat(parts) == stream[at[0]..at[0] + |Concat(parts)|]
  {
    var n := |parts| - 1;
    if n == 0 {
      ConcatOne(parts[0]);
      assert parts == [parts[0]];
    } else {
      ConcatOfSlices(stream, parts[..n], at[..n]);
      var front := Concat(parts[..n]);
      assert Concat(parts) == front + parts[n].payload;
      assert at[n] == at[0] + |front| by { assert at[n] == at[n - 1] + |parts[n - 1].payload|; }
      Joined(stream, at[0], at[n], at[n] + |parts[n].payload|);
    }
  }

  /** With equal header lengths, the bytes a stash gathers from pieces of one stream of less than
      4 GiB are exactly the stream's bytes from the first piece on. */
  lemma GatheredIsStreamSlice(stream: seq<Byte>, isn: nat, parts: seq<Segment>, at: seq<nat>, flow: Flow)
    requires |stream| < WRAP && PartsOk(parts, flow) && PiecesOf(stream, isn, parts, at)
    requires forall k | 0 < k < |parts| :: parts[k].header == parts[k - 1].header
    ensures at[0] + |Concat(parts)| <= |stream| && Concat(parts) == stream[at[0]..at[0] + |Concat(parts)|]
  {
    forall k | 0 < k < |parts| ensures at[k] == at[k - 1] + |parts[k - 1].payload| {
      PiecesMeet(stream, isn, parts, at, flow, k);
    }
    ConcatOfSlices(stream, parts, at);
  }

  lemma Joined(s: seq<Byte>, i: nat, j: nat, k: nat)
    requires i <= j <= k <= |s|
    ensures s[i..j] + s[j..k] == s[i..k]
  {
  }

  lemma OffsetsMeet(isn: nat, a: nat, n: nat, b: nat, bound: nat)
    requires a + n <= bound && b <= bound && bound < WRAP
    requires (isn + b) % WRAP == ((isn + a) % WRAP + n) % WRAP
    ensures b == a + n
  {
  }

  /** So in every run a record reported from a stash, whose segments are pieces of one stream with
      equal header lengths, is the piece of that stream at the first segment: the server derives
      its lookup key from the client's own bytes. */
  lemma ReportedFromStream(evs: seq<Event>, k: nat, stream: seq<Byte>, isn: nat, at: seq<nat>)
    requires forall j | 0 <= j < |evs| :: Allowed(evs[j])
    requires k < |After(evs).lookups| && After(evs).lookups[k].stashed
    requires var parts := After(evs).lookups[k].parts;
             && |stream| < WRAP && PiecesOf(stream, isn, parts, at)
             && forall j | 0 < j < |parts| :: parts[j].header == parts[j - 1].header
    ensures var l := After(evs).lookups[k];
            && |at| > 0 && |l.record| >= 5 && at[0] + |l.record| <= |stream|
            && l.record == stream[at[0]..at[0] + |l.record|]
            && Records(l.record) == [Record(HANDSHAKE, l.record[5..])]
  {
    hide Concat, LinuxFind, Be16;
    ReachableOk(evs);
    var l := After(evs).lookups[k];
    assert LookupOk(l);
    ReportedRecordIsComplete(l);
    GatheredIsStreamSlice(stream, isn, l.parts, at, l.flow);
    var all := Concat(l.parts);
    assert l.record == all[..|l.record|];
    assert stream[at[0]..at[0] + |all|][..|l.record|] == stream[at[0]..at[0] + |l.record|];
  }
}
