/** TLS records, handshake messages and hello extensions as the three key_share finders see them,
    and what the finders compute: per record (Linux), rescanning after each record (macOS), and
    coalescing everything first (Windows). */
module Tls {
  import opened Basics

  type Byte = b: int | 0 <= b < 256

  const HANDSHAKE: Byte := 22
  const CLIENT_HELLO: Byte := 1
  const SERVER_HELLO: Byte := 2
  const KEY_SHARE: nat := 51
  const MAX_PUBLIC_KEY: nat := 128
  const TLS_CAP: nat := 262144

  function Be16(s: seq<Byte>, i: nat): (n: nat)
    requires i + 2 <= |s|
    ensures n < 65536
  {
    256 * (s[i] as int) + s[i + 1] as int
  }

  function Be24(s: seq<Byte>, i: nat): (n: nat)
    requires i + 3 <= |s|
  {
    65536 * (s[i] as int) + 256 * (s[i + 1] as int) + s[i + 2] as int
  }

  datatype Record = Record(contentType: Byte, payload: seq<Byte>)

  datatype Message = Message(kind: Byte, body: seq<Byte>)

  /** The complete records at the front of a stream. */
  function Records(data: seq<Byte>): seq<Record> {
    if |data| < 5 || 5 + Be16(data, 3) > |data| then []
    else [Record(data[0], data[5..5 + Be16(data, 3)])] + Records(data[5 + Be16(data, 3)..])
  }

  /** The complete handshake messages at the front of a buffer. */
  function Messages(s: seq<Byte>): seq<Message> {
    if |s| < 4 || 4 + Be24(s, 1) > |s| then []
    else [Message(s[0], s[4..4 + Be24(s, 1)])] + Messages(s[4 + Be24(s, 1)..])
  }

  /** What follows the complete messages. */
  function Leftover(s: seq<Byte>): seq<Byte> {
    if |s| < 4 || 4 + Be24(s, 1) > |s| then s else Leftover(s[4 + Be24(s, 1)..])
  }

  /** The body of the first message of a kind. */
  function First(ms: seq<Message>, kind: Byte): Option<seq<Byte>> {
    if ms == [] then None
    else if ms[0].kind == kind then Some(ms[0].body)
    else First(ms[1..], kind)
  }

  /** The extension block of a ClientHello body. */
  function ClientBlock(body: seq<Byte>): Option<seq<Byte>> {
    if |body| < 35 then None
    else
      var suites: nat := 35 + body[34] as int;
      if suites + 2 > |body| then None
      else
        var compression: nat := suites + 2 + Be16(body, suites);
        if compression + 1 > |body| then None
        else
          var block: nat := compression + 1 + body[compression] as int;
          if block + 2 > |body| || block + 2 + Be16(body, block) > |body| then None
          else Some(body[block + 2..block + 2 + Be16(body, block)])
  }

  /** The extension block of a ServerHello body. */
  function ServerBlock(body: seq<Byte>): Option<seq<Byte>> {
    if |body| < 35 then None
    else
      var block: nat := 38 + body[34] as int;
      if block + 2 > |body| || block + 2 + Be16(body, block) > |body| then None
      else Some(body[block + 2..block + 2 + Be16(body, block)])
  }

  function Block(kind: Byte, body: seq<Byte>): Option<seq<Byte>> {
    if kind == CLIENT_HELLO then ClientBlock(body) else ServerBlock(body)
  }

  /** The data of the first key_share extension of at least min bytes, if the extensions before it
      are well delimited. */
  function KeyShare(block: seq<Byte>, min: nat): Option<seq<Byte>> {
    if |block| < 4 || 4 + Be16(block, 2) > |block| then None
    else if Be16(block, 0) == KEY_SHARE && Be16(block, 2) >= min then Some(block[4..4 + Be16(block, 2)])
    else KeyShare(block[4 + Be16(block, 2)..], min)
  }

  // ----- Linux: tls_parse.c -----

  predicate ClientShareOk(x: seq<Byte>) {
    |x| >= 6 && Be16(x, 0) + 2 == |x| && Be16(x, 0) >= 4
  }

  predicate ServerShareOk(x: seq<Byte>) {
    |x| >= 4 && 0 < Be16(x, 2) <= MAX_PUBLIC_KEY && Be16(x, 2) + 4 == |x|
  }

  predicate ShareOk(kind: Byte, x: seq<Byte>) {
    if kind == CLIENT_HELLO then ClientShareOk(x) else ServerShareOk(x)
  }

  function MinShare(kind: Byte): nat { if kind == CLIENT_HELLO then 6 else 4 }

  /** The key_share the Linux extractors digest for a hello body. */
  function LinuxShare(kind: Byte, body: seq<Byte>): Option<seq<Byte>> {
    match Block(kind, body)
    case None => None
    case Some(block) =>
      match KeyShare(block, MinShare(kind))
      case None => None
      case Some(x) => if ShareOk(kind, x) then Some(x) else None
  }

  /** The first message of a kind inside one record. */
  function FirstInRecords(rs: seq<Record>, kind: Byte): Option<seq<Byte>> {
    if rs == [] then None
    else if rs[0].contentType == HANDSHAKE && First(Messages(rs[0].payload), kind).Some? then
      First(Messages(rs[0].payload), kind)
    else FirstInRecords(rs[1..], kind)
  }

  function LinuxFind(data: seq<Byte>, kind: Byte): Option<seq<Byte>> {
    match FirstInRecords(Records(data), kind)
    case None => None
    case Some(body) => LinuxShare(kind, body)
  }

  // ----- macOS: tls.rs -----

  function AnyShare(kind: Byte, body: seq<Byte>): Option<seq<Byte>> {
    match Block(kind, body)
    case None => None
    case Some(block) => KeyShare(block, 0)
  }

  /** The first message of a kind in the handshake bytes, searched again after each record. */
  function FirstRescanning(rs: seq<Record>, acc: seq<Byte>, kind: Byte): Option<seq<Byte>> {
    if rs == [] then None
    else if rs[0].contentType != HANDSHAKE then FirstRescanning(rs[1..], acc, kind)
    else if First(Messages(acc + rs[0].payload), kind).Some? then First(Messages(acc + rs[0].payload), kind)
    else FirstRescanning(rs[1..], acc + rs[0].payload, kind)
  }

  function MacFind(data: seq<Byte>, kind: Byte): Option<seq<Byte>> {
    match FirstRescanning(Records(data), [], kind)
    case None => None
    case Some(body) => AnyShare(kind, body)
  }

  // ----- Windows: tcpra_agent_c.c -----

  /** The handshake bytes of a record stream, up to the first record that would exceed cap. */
  function Coalesced(rs: seq<Record>, acc: seq<Byte>, cap: nat): seq<Byte> {
    if rs == [] then acc
    else if rs[0].contentType != HANDSHAKE || rs[0].payload == [] then Coalesced(rs[1..], acc, cap)
    else if |acc| + |rs[0].payload| > cap then acc
    else Coalesced(rs[1..], acc + rs[0].payload, cap)
  }

  /** The first message of a kind whose key_share can be found. */
  function FirstShare(ms: seq<Message>, kind: Byte): Option<seq<Byte>> {
    if ms == [] then None
    else if ms[0].kind == kind && AnyShare(kind, ms[0].body).Some? then AnyShare(kind, ms[0].body)
    else FirstShare(ms[1..], kind)
  }

  function WindowsFind(data: seq<Byte>, kind: Byte): Option<seq<Byte>> {
    FirstShare(Messages(Coalesced(Records(data), [], TLS_CAP)), kind)
  }

  // ----- unfolding in place -----

  /** A slice from i on, seen from its own start. */
  lemma SliceFrom(data: seq<Byte>, i: nat, end: nat, front: nat, n: nat)
    requires i <= end <= |data| && front + n <= end - i
    ensures forall k | 0 <= k < end - i :: data[i..end][k] == data[i + k]
    ensures data[i..end][front..front + n] == data[i + front..i + front + n]
    ensures data[i..end][front + n..] == data[i + front + n..end]
  {
    var s := data[i..end];
    SliceOfSlice(data, i, end, front, front + n);
    SliceOfSlice(data, i, end, front + n, |s|);
    assert s[front + n..] == s[front + n..|s|];
  }

  lemma RecordsAt(data: seq<Byte>, i: nat)
    requires i <= |data|
    ensures if i + 5 > |data| || i + 5 + Be16(data, i + 3) > |data| then Records(data[i..]) == []
            else
              var next := i + 5 + Be16(data, i + 3);
              Records(data[i..]) == [Record(data[i], data[i + 5..next])] + Records(data[next..])
  {
    assert data[i..] == data[i..|data|];
    if i + 5 <= |data| {
      assert Be16(data[i..], 3) == Be16(data, i + 3);
      if i + 5 + Be16(data, i + 3) <= |data| {
        SliceFrom(data, i, |data|, 5, Be16(data, i + 3));
      }
    }
  }

  lemma MessagesAt(data: seq<Byte>, i: nat, end: nat)
    requires i <= end <= |data|
    ensures if i + 4 > end || i + 4 + Be24(data, i + 1) > end then Messages(data[i..end]) == []
            else
              var next := i + 4 + Be24(data, i + 1);
              Messages(data[i..end]) == [Message(data[i], data[i + 4..next])] + Messages(data[next..end])
  {
    if i + 4 <= end {
      assert Be24(data[i..end], 1) == Be24(data, i + 1);
      if i + 4 + Be24(data, i + 1) <= end {
        SliceFrom(data, i, end, 4, Be24(data, i + 1));
      }
    }
  }

  lemma KeyShareAt(data: seq<Byte>, i: nat, end: nat, min: nat)
    requires i <= end <= |data|
    ensures KeyShare(data[i..end], min)
         == if i + 4 > end || i + 4 + Be16(data, i + 2) > end then None
            else if Be16(data, i) == KEY_SHARE && Be16(data, i + 2) >= min then
              Some(data[i + 4..i + 4 + Be16(data, i + 2)])
            else KeyShare(data[i + 4 + Be16(data, i + 2)..end], min)
  {
    if i + 4 <= end {
      assert Be16(data[i..end], 2) == Be16(data, i + 2) && Be16(data[i..end], 0) == Be16(data, i);
      if i + 4 + Be16(data, i + 2) <= end {
        SliceFrom(data, i, end, 4, Be16(data, i + 2));
      }
    }
  }

  // ----- one element at a time -----

  lemma FirstCons(m: Message, ms: seq<Message>, kind: Byte)
    ensures First([m] + ms, kind) == if m.kind == kind then Some(m.body) else First(ms, kind)
  {
  }

  lemma FirstShareCons(m: Message, ms: seq<Message>, kind: Byte)
    ensures FirstShare([m] + ms, kind)
         == if m.kind == kind && AnyShare(kind, m.body).Some? then AnyShare(kind, m.body) else FirstShare(ms, kind)
  {
  }

  lemma FirstInRecordsCons(r: Record, rs: seq<Record>, kind: Byte)
    ensures FirstInRecords([r] + rs, kind)
         == if r.contentType == HANDSHAKE && First(Messages(r.payload), kind).Some? then
              First(Messages(r.payload), kind)
            else FirstInRecords(rs, kind)
  {
  }

  lemma FirstRescanningCons(r: Record, rs: seq<Record>, acc: seq<Byte>, kind: Byte)
    ensures FirstRescanning([r] + rs, acc, kind)
         == if r.contentType != HANDSHAKE then FirstRescanning(rs, acc, kind)
            else if First(Messages(acc + r.payload), kind).Some? then First(Messages(acc + r.payload), kind)
            else FirstRescanning(rs, acc + r.payload, kind)
  {
  }

  lemma CoalescedCons(r: Record, rs: seq<Record>, acc: seq<Byte>, cap: nat)
    ensures Coalesced([r] + rs, acc, cap)
         == if r.contentType != HANDSHAKE || r.payload == [] then Coalesced(rs, acc, cap)
            else if |acc| + |r.payload| > cap then acc
            else Coalesced(rs, acc + r.payload, cap)
  {
  }

  // ----- more bytes change nothing already found -----

  lemma {:induction false} RecordsGrow(a: seq<Byte>, b: seq<Byte>)
    ensures Records(a) <= Records(a + b)
    decreases |a|
  {
    if |a| >= 5 && 5 + Be16(a, 3) <= |a| {
      var n := 5 + Be16(a, 3);
      assert Be16(a + b, 3) == Be16(a, 3);
      hide Be16;
      assert (a + b)[5..n] == a[5..n] && (a + b)[n..] == a[n..] + b;
      RecordsGrow(a[n..], b);
    }
  }

  lemma {:induction false} MessagesGrow(a: seq<Byte>, b: seq<Byte>)
    ensures Messages(a + b) == Messages(a) + Messages(Leftover(a) + b)
    decreases |a|
  {
    if |a| >= 4 && 4 + Be24(a, 1) <= |a| {
      var n := 4 + Be24(a, 1);
      assert Be24(a + b, 1) == Be24(a, 1);
      assert (a + b)[4..n] == a[4..n] && (a + b)[n..] == a[n..] + b;
      MessagesGrow(a[n..], b);
    }
  }

  lemma {:induction false} FirstGrow(ms: seq<Message>, more: seq<Message>, kind: Byte)
    ensures First(ms + more, kind) == if First(ms, kind).Some? then First(ms, kind) else First(more, kind)
  {
    if ms == [] {
      assert ms + more == more;
    } else {
      assert (ms + more)[1..] == ms[1..] + more;
      FirstGrow(ms[1..], more, kind);
    }
  }

  lemma {:induction false} FirstShareGrow(ms: seq<Message>, more: seq<Message>, kind: Byte)
    ensures FirstShare(ms, kind).Some? ==> FirstShare(ms + more, kind) == FirstShare(ms, kind)
  {
    if ms != [] {
      assert (ms + more)[1..] == ms[1..] + more;
      FirstShareGrow(ms[1..], more, kind);
    }
  }

  lemma {:induction false} CoalescedGrow(rs: seq<Record>, more: seq<Record>, acc: seq<Byte>, cap: nat)
    ensures Coalesced(rs, acc, cap) <= Coalesced(rs + more, acc, cap)
    decreases |rs|
  {
    if rs == [] {
      CoalescedExtends(more, acc, cap);
      assert rs + more == more;
    } else {
      assert (rs + more)[1..] == rs[1..] + more;
      if rs[0].contentType != HANDSHAKE || rs[0].payload == [] {
        CoalescedGrow(rs[1..], more, acc, cap);
      } else {
        CoalescedGrow(rs[1..], more, acc + rs[0].payload, cap);
      }
    }
  }

  lemma {:induction false} CoalescedExtends(rs: seq<Record>, acc: seq<Byte>, cap: nat)
    ensures acc <= Coalesced(rs, acc, cap)
    decreases |rs|
  {
    if rs != [] {
      CoalescedExtends(rs[1..], acc, cap);
      CoalescedExtends(rs[1..], acc + rs[0].payload, cap);
    }
  }

  /** The bytes of the handshake records, all of them. */
  function Handshake(rs: seq<Record>): seq<Byte> {
    if rs == [] then []
    else (if rs[0].contentType == HANDSHAKE then rs[0].payload else []) + Handshake(rs[1..])
  }

  lemma {:induction false} CoalescedWithinCap(rs: seq<Record>, acc: seq<Byte>, cap: nat)
    requires |acc| + |Handshake(rs)| <= cap
    ensures Coalesced(rs, acc, cap) == acc + Handshake(rs)
    decreases |rs|
  {
    if rs != [] {
      if rs[0].contentType == HANDSHAKE {
        assert acc + Handshake(rs) == acc + rs[0].payload + Handshake(rs[1..]);
        if rs[0].payload == [] {
          CoalescedWithinCap(rs[1..], acc, cap);
        } else {
          CoalescedWithinCap(rs[1..], acc + rs[0].payload, cap);
        }
      } else {
        CoalescedWithinCap(rs[1..], acc, cap);
        assert Handshake(rs) == Handshake(rs[1..]);
      }
    }
  }

  lemma {:induction false} HandshakeIsShorter(data: seq<Byte>)
    ensures |Handshake(Records(data))| <= |data|
    decreases |data|
  {
    if |data| >= 5 && 5 + Be16(data, 3) <= |data| {
      var n := 5 + Be16(data, 3);
      HandshakeIsShorter(data[n..]);
      assert Records(data)[1..] == Records(data[n..]);
    }
  }

  // ----- agreement -----

  /** Searching again after each record finds what searching once at the end finds. */
  lemma {:induction false} RescanIsCoalesce(rs: seq<Record>, acc: seq<Byte>, kind: Byte)
    requires First(Messages(acc), kind).None?
    ensures FirstRescanning(rs, acc, kind) == First(Messages(acc + Handshake(rs)), kind)
    decreases |rs|
  {
    if rs == [] {
      assert acc + Handshake(rs) == acc;
    } else if rs[0].contentType != HANDSHAKE {
      RescanIsCoalesce(rs[1..], acc, kind);
      assert Handshake(rs) == Handshake(rs[1..]);
    } else {
      var more := acc + rs[0].payload;
      assert acc + Handshake(rs) == more + Handshake(rs[1..]);
      if First(Messages(more), kind).Some? {
        MessagesGrow(more, Handshake(rs[1..]));
        FirstGrow(Messages(more), Messages(Leftover(more) + Handshake(rs[1..])), kind);
      } else {
        RescanIsCoalesce(rs[1..], more, kind);
      }
    }
  }

  lemma {:induction false} FirstDecides(ms: seq<Message>, kind: Byte)
    ensures First(ms, kind).None? ==> FirstShare(ms, kind).None?
    ensures First(ms, kind).Some? && AnyShare(kind, First(ms, kind).value).Some? ==>
              FirstShare(ms, kind) == AnyShare(kind, First(ms, kind).value)
  {
    if ms != [] && ms[0].kind != kind {
      FirstDecides(ms[1..], kind);
    }
  }

  /** The first hello of a kind in the handshake bytes of a stream. */
  function FirstHello(data: seq<Byte>, kind: Byte): Option<seq<Byte>> {
    First(Messages(Handshake(Records(data))), kind)
  }

  /** The macOS finder looks at the first hello only. */
  lemma MacLooksAtFirstHello(data: seq<Byte>, kind: Byte)
    ensures var hello := FirstHello(data, kind);
            MacFind(data, kind) == if hello.Some? then AnyShare(kind, hello.value) else None
  {
    RescanIsCoalesce(Records(data), [], kind);
    assert [] + Handshake(Records(data)) == Handshake(Records(data));
  }

  /** Parser agreement. On a stream of at most 262144 bytes the macOS finder looks at the first hello
      only, and the Windows finder agrees with it whenever that hello has a key_share; they can
      differ only when the first hello is there and malformed. */
  lemma MacAndWindowsAgree(data: seq<Byte>, kind: Byte)
    requires |data| <= TLS_CAP
    ensures var hello := FirstHello(data, kind);
            && MacFind(data, kind) == (if hello.Some? then AnyShare(kind, hello.value) else None)
            && (MacFind(data, kind).Some? ==> WindowsFind(data, kind) == MacFind(data, kind))
            && (MacFind(data, kind) != WindowsFind(data, kind) ==> hello.Some? && AnyShare(kind, hello.value).None?)
  {
    HandshakeIsShorter(data);
    CoalescedWithinCap(Records(data), [], TLS_CAP);
    MacLooksAtFirstHello(data, kind);
    assert [] + Handshake(Records(data)) == Handshake(Records(data));
    FirstDecides(Messages(Handshake(Records(data))), kind);
  }

  /** A key found on a prefix is the key found on every extension: for the macOS finder ... */
  lemma MacStable(a: seq<Byte>, b: seq<Byte>, kind: Byte)
    requires MacFind(a, kind).Some?
    ensures MacFind(a + b, kind) == MacFind(a, kind)
  {
    RecordsGrow(a, b);
    var rs, all := Records(a), Records(a + b);
    RescanStable(rs, all[|rs|..], [], kind);
    assert rs + all[|rs|..] == all;
  }

  lemma {:induction false} RescanStable(rs: seq<Record>, more: seq<Record>, acc: seq<Byte>, kind: Byte)
    requires FirstRescanning(rs, acc, kind).Some?
    ensures FirstRescanning(rs + more, acc, kind) == FirstRescanning(rs, acc, kind)
    decreases |rs|
  {
    assert (rs + more)[1..] == rs[1..] + more;
    if rs[0].contentType != HANDSHAKE {
      RescanStable(rs[1..], more, acc, kind);
    } else if First(Messages(acc + rs[0].payload), kind).None? {
      RescanStable(rs[1..], more, acc + rs[0].payload, kind);
    }
  }

  /** ... and for the Windows finder, whatever its buffer bound cuts off. */
  lemma WindowsStable(a: seq<Byte>, b: seq<Byte>, kind: Byte)
    requires WindowsFind(a, kind).Some?
    ensures WindowsFind(a + b, kind) == WindowsFind(a, kind)
  {
    RecordsGrow(a, b);
    var rs, all := Records(a), Records(a + b);
    CoalescedGrow(rs, all[|rs|..], [], TLS_CAP);
    assert rs + all[|rs|..] == all;
    var x, y := Coalesced(rs, [], TLS_CAP), Coalesced(all, [], TLS_CAP);
    assert x + y[|x|..] == y;
    MessagesGrow(x, y[|x|..]);
    FirstShareGrow(Messages(x), Messages(Leftover(x) + y[|x|..]), kind);
  }

  /** So how a stream is cut into segments cannot change the key: two prefixes of one stream on
      which either finder succeeds give the same key. */
  lemma SegmentationIrrelevant(a: seq<Byte>, b: seq<Byte>, whole: seq<Byte>, kind: Byte)
    requires a <= whole && b <= whole
    ensures MacFind(a, kind).Some? && MacFind(b, kind).Some? ==> MacFind(a, kind) == MacFind(b, kind)
    ensures WindowsFind(a, kind).Some? && WindowsFind(b, kind).Some? ==> WindowsFind(a, kind) == WindowsFind(b, kind)
    ensures |whole| <= TLS_CAP && MacFind(a, kind).Some? && WindowsFind(b, kind).Some? ==>
              MacFind(a, kind) == WindowsFind(b, kind)
  {
    assert a + whole[|a|..] == whole && b + whole[|b|..] == whole;
    if MacFind(a, kind).Some? {
      MacStable(a, whole[|a|..], kind);
    }
    if MacFind(b, kind).Some? {
      MacStable(b, whole[|b|..], kind);
    }
    if WindowsFind(a, kind).Some? {
      WindowsStable(a, whole[|a|..], kind);
    }
    if WindowsFind(b, kind).Some? {
      WindowsStable(b, whole[|b|..], kind);
    }
    if |whole| <= TLS_CAP {
      MacAndWindowsAgree(whole, kind);
    }
  }

  // ----- Linux against the others -----

  /** Every handshake record, up to the one that completes a message of the kind, holds whole
      messages: reading record by record misses nothing that reading on would find. */
  predicate WholeUntil(rs: seq<Record>, kind: Byte) {
    if rs == [] then true
    else if rs[0].contentType != HANDSHAKE then WholeUntil(rs[1..], kind)
    else
      First(Messages(rs[0].payload), kind).Some? || (Leftover(rs[0].payload) == [] && WholeUntil(rs[1..], kind))
  }

  lemma {:induction false} PerRecordIsCoalesce(rs: seq<Record>, kind: Byte)
    requires WholeUntil(rs, kind)
    ensures FirstInRecords(rs, kind) == First(Messages(Handshake(rs)), kind)
    decreases |rs|
  {
    if rs != [] && rs[0].contentType == HANDSHAKE {
      var p, rest := rs[0].payload, Handshake(rs[1..]);
      MessagesGrow(p, rest);
      FirstGrow(Messages(p), Messages(Leftover(p) + rest), kind);
      if First(Messages(p), kind).None? {
        PerRecordIsCoalesce(rs[1..], kind);
        assert Leftover(p) + rest == rest;
      }
    } else if rs != [] {
      PerRecordIsCoalesce(rs[1..], kind);
      assert Handshake(rs) == Handshake(rs[1..]);
    }
  }

  lemma {:induction false} WholeUntilConcat(rs: seq<Record>, more: seq<Record>, kind: Byte)
    requires WholeUntil(rs, kind) && WholeUntil(more, kind)
    ensures WholeUntil(rs + more, kind)
  {
    if rs == [] {
      assert rs + more == more;
    } else {
      assert (rs + more)[0] == rs[0] && (rs + more)[1..] == rs[1..] + more;
      if WholeUntil(rs[1..], kind) {
        WholeUntilConcat(rs[1..], more, kind);
      }
    }
  }

  lemma EmptyMessage(kind: Byte)
    ensures Messages([kind, 0, 0, 0]) == [Message(kind, [])]
  {
    var s: seq<Byte> := [kind, 0, 0, 0];
    assert s[4..4] == [] && s[4..] == [];
  }

  /** Behind an unfinished message the bytes of an empty message are not read as that message. */
  lemma NotReadAsEmpty(t: seq<Byte>, kind: Byte)
    requires t != [] && (|t| < 4 || 4 + Be24(t, 1) > |t|) && kind > 0
    ensures First(Messages(t + [kind, 0, 0, 0]), kind) != Some([])
  {
    var s := t + [kind, 0, 0, 0];
    if |t| >= 4 {
      assert Be24(s, 1) == Be24(t, 1);
    }
    if 4 + Be24(s, 1) <= |s| {
      var rest := s[4 + Be24(s, 1)..];
      assert |rest| < 4;
      assert Messages(rest) == [] && |s[4..4 + Be24(s, 1)]| == Be24(s, 1) > 0;
    }
  }

  /** The record that breaks the condition makes the two readings part on what may follow: an empty
      message of the kind in a record of its own is found in one reading and not in the other. */
  lemma {:induction false} FirstBreakMisleads(rs: seq<Record>, r: Record, kind: Byte)
    requires kind > 0 && WholeUntil(rs, kind) && !WholeUntil(rs + [r], kind)
    ensures var bad := rs + [r] + [Record(HANDSHAKE, [kind, 0, 0, 0])];
            FirstInRecords(bad, kind) == Some([]) != First(Messages(Handshake(bad)), kind)
  {
    var x := Record(HANDSHAKE, [kind, 0, 0, 0]);
    var bad := rs + [r] + [x];
    var p, rest := bad[0].payload, Handshake(bad[1..]);
    if rs == [] {
      assert rs + [r] == [r] && [r][1..] == [] && bad == [r, x] && bad[1..] == [x] && [x][1..] == [];
      EmptyMessage(kind);
      assert rest == x.payload + Handshake([]) == x.payload;
      MessagesGrow(p, rest);
      FirstGrow(Messages(p), Messages(Leftover(p) + rest), kind);
      LeftoverUnfinished(p);
      NotReadAsEmpty(Leftover(p), kind);
    } else {
      assert (rs + [r])[0] == rs[0] && (rs + [r])[1..] == rs[1..] + [r];
      assert bad[0] == rs[0] && bad[1..] == rs[1..] + [r] + [x];
      FirstBreakMisleads(rs[1..], r, kind);
      if rs[0].contentType == HANDSHAKE {
        MessagesGrow(p, rest);
        FirstGrow(Messages(p), Messages(Leftover(p) + rest), kind);
        assert Leftover(p) + rest == rest;
      } else {
        assert Handshake(bad) == rest;
      }
    }
  }

  lemma {:induction false} LeftoverUnfinished(s: seq<Byte>)
    ensures var t := Leftover(s); t == [] || |t| < 4 || 4 + Be24(t, 1) > |t|
    decreases |s|
  {
    if |s| >= 4 && 4 + Be24(s, 1) <= |s| {
      LeftoverUnfinished(s[4 + Be24(s, 1)..]);
    }
  }

  /** The condition is exact, record by record: as long as it holds, the two readings look at the same
      hello however the stream goes on in whole messages, and the first record that breaks it leaves
      a continuation on which they do not. */
  lemma WholeUntilExactly(rs: seq<Record>, r: Record, kind: Byte)
    requires kind > 0 && WholeUntil(rs, kind)
    ensures WholeUntil(rs + [r], kind) <==>
              forall more | WholeUntil(more, kind) ::
                FirstInRecords(rs + [r] + more, kind) == First(Messages(Handshake(rs + [r] + more)), kind)
  {
    if WholeUntil(rs + [r], kind) {
      forall more | WholeUntil(more, kind)
        ensures FirstInRecords(rs + [r] + more, kind) == First(Messages(Handshake(rs + [r] + more)), kind)
      {
        WholeUntilConcat(rs + [r], more, kind);
        PerRecordIsCoalesce(rs + [r] + more, kind);
      }
    } else {
      FirstBreakMisleads(rs, r, kind);
      var more := [Record(HANDSHAKE, [kind, 0, 0, 0])];
      EmptyMessage(kind);
      assert WholeUntil(more, kind);
    }
  }

  /** The data of the key_share extensions of a block, in order, up to the first extension that is
      not well delimited. */
  function Shares(block: seq<Byte>): seq<seq<Byte>> {
    if |block| < 4 || 4 + Be16(block, 2) > |block| then []
    else
      (if Be16(block, 0) == KEY_SHARE then [block[4..4 + Be16(block, 2)]] else [])
      + Shares(block[4 + Be16(block, 2)..])
  }

  /** The key_share extensions of a hello, if there is one. */
  function SharesIn(kind: Byte, hello: Option<seq<Byte>>): seq<seq<Byte>> {
    if hello.None? || Block(kind, hello.value).None? then [] else Shares(Block(kind, hello.value).value)
  }

  /** The first share of at least min bytes. */
  function FirstLong(xs: seq<seq<Byte>>, min: nat): Option<seq<Byte>> {
    if xs == [] then None else if |xs[0]| >= min then Some(xs[0]) else FirstLong(xs[1..], min)
  }

  /** The Linux finder's choice among the shares of one hello. */
  function LinuxPick(kind: Byte, xs: seq<seq<Byte>>): Option<seq<Byte>> {
    var x := FirstLong(xs, MinShare(kind));
    if x.Some? && ShareOk(kind, x.value) then x else None
  }

  lemma {:induction false} KeyShareIsFirstLong(block: seq<Byte>, min: nat)
    ensures KeyShare(block, min) == FirstLong(Shares(block), min)
    decreases |block|
  {
    if |block| >= 4 && 4 + Be16(block, 2) <= |block| {
      var xs, rest := Shares(block), block[4 + Be16(block, 2)..];
      KeyShareIsFirstLong(rest, min);
      if Be16(block, 0) == KEY_SHARE {
        assert xs[0] == block[4..4 + Be16(block, 2)] && xs[1..] == Shares(rest);
      } else {
        assert xs == Shares(rest);
      }
    }
  }

  lemma {:induction false} FirstLongIsLong(xs: seq<seq<Byte>>, min: nat)
    ensures FirstLong(xs, min).Some? ==> |FirstLong(xs, min).value| >= min
  {
    if xs != [] {
      FirstLongIsLong(xs[1..], min);
    }
  }

  /** On one hello the Linux finder takes the first share exactly when that is well formed. */
  lemma PickIsFirstExactly(kind: Byte, xs: seq<seq<Byte>>)
    ensures LinuxPick(kind, xs) == FirstLong(xs, 0) <==> xs == [] || ShareOk(kind, xs[0])
  {
    FirstLongIsLong(xs, MinShare(kind));
  }

  /** What the two finders return, in terms of the hello each of them looks at. */
  lemma FindersOnShares(data: seq<Byte>, kind: Byte)
    ensures LinuxFind(data, kind) == LinuxPick(kind, SharesIn(kind, FirstInRecords(Records(data), kind)))
    ensures MacFind(data, kind) == FirstLong(SharesIn(kind, FirstHello(data, kind)), 0)
  {
    var l, h := FirstInRecords(Records(data), kind), FirstHello(data, kind);
    MacLooksAtFirstHello(data, kind);
    if l.Some? && Block(kind, l.value).Some? {
      KeyShareIsFirstLong(Block(kind, l.value).value, MinShare(kind));
    }
    if h.Some? && Block(kind, h.value).Some? {
      KeyShareIsFirstLong(Block(kind, h.value).value, 0);
    }
  }

  /** Linux and macOS, on every stream. The two look at the same hello if handshake records hold whole
      messages up to the record that completes it. Looking at the same hello they agree exactly when
      it has no key_share or its first key_share is well formed; looking at different ones, exactly
      when the Linux choice in the one is the first share of the other. */
  lemma LinuxAgreesExactly(data: seq<Byte>, kind: Byte)
    ensures var l, h := FirstInRecords(Records(data), kind), FirstHello(data, kind);
            var xs := SharesIn(kind, h);
            && (WholeUntil(Records(data), kind) ==> l == h)
            && (LinuxFind(data, kind) == MacFind(data, kind) <==>
                  if l == h then xs == [] || ShareOk(kind, xs[0])
                  else LinuxPick(kind, SharesIn(kind, l)) == FirstLong(xs, 0))
  {
    FindersOnShares(data, kind);
    PickIsFirstExactly(kind, SharesIn(kind, FirstHello(data, kind)));
    if WholeUntil(Records(data), kind) {
      PerRecordIsCoalesce(Records(data), kind);
    }
  }

  /** Three-way agreement. When the first hello is not split from what precedes it, all three finders
      agree on a hello with a key_share exactly when its first key_share is well formed; on one
      without, the Linux and macOS finders find nothing. */
  lemma AllThreeAgree(data: seq<Byte>, kind: Byte)
    requires |data| <= TLS_CAP && WholeUntil(Records(data), kind)
    ensures var xs := SharesIn(kind, FirstHello(data, kind));
            if xs == [] then LinuxFind(data, kind).None? && MacFind(data, kind).None?
            else
              && MacFind(data, kind) == WindowsFind(data, kind) == Some(xs[0])
              && (LinuxFind(data, kind) == MacFind(data, kind) <==> ShareOk(kind, xs[0]))
  {
    MacAndWindowsAgree(data, kind);
    FindersOnShares(data, kind);
    LinuxAgreesExactly(data, kind);
  }
}
