/** The finders themselves: the offset-advancing loops of the C and Rust code, proved to compute
    the functions of module Tls. The digest is a parameter: a label and the bytes digested. */
module TlsFinders {
  import opened Basics
  import opened Tls

  datatype Label = ClientLabel | ServerLabel

  type Digest = (Label, seq<Byte>) -> Key

  function LabelOf(kind: Byte): Label { if kind == CLIENT_HELLO then ClientLabel else ServerLabel }

  function DigestOf(digest: Digest, kind: Byte, share: Option<seq<Byte>>): Option<Key> {
    match share
    case None => None
    case Some(x) => Some(digest(LabelOf(kind), x))
  }

  /** A server key_share taken apart. */
  datatype ServerKey = ServerKey(group: nat, publicKey: seq<Byte>, reportKey: Key)

  // ----- the same searches by index, the way the loops run -----

  function ScanShare(data: seq<Byte>, p: nat, end: nat, min: nat): (r: Option<(nat, nat)>)
    requires p <= end <= |data|
    ensures r.Some? ==> r.value.0 + r.value.1 <= end
    decreases end - p
  {
    if p + 4 > end || p + 4 + Be16(data, p + 2) > end then None
    else if Be16(data, p) == KEY_SHARE && Be16(data, p + 2) >= min then Some((p + 4, Be16(data, p + 2)))
    else ScanShare(data, p + 4 + Be16(data, p + 2), end, min)
  }

  function Slice(data: seq<Byte>, r: Option<(nat, nat)>): Option<seq<Byte>>
    requires r.Some? ==> r.value.0 + r.value.1 <= |data|
  {
    match r
    case None => None
    case Some(at) => Some(data[at.0..at.0 + at.1])
  }

  lemma {:induction false} ScanShareFinds(data: seq<Byte>, p: nat, end: nat, min: nat)
    requires p <= end <= |data|
    ensures KeyShare(data[p..end], min) == Slice(data, ScanShare(data, p, end, min))
    decreases end - p
  {
    KeyShareAt(data, p, end, min);
    if p + 4 <= end && p + 4 + Be16(data, p + 2) <= end {
      ScanShareFinds(data, p + 4 + Be16(data, p + 2), end, min);
    }
  }

  /** The start and body length of the first message of a kind. */
  function ScanMessages(data: seq<Byte>, p: nat, end: nat, kind: Byte): (r: Option<(nat, nat)>)
    requires p <= end <= |data|
    ensures r.Some? ==> p <= r.value.0 && r.value.0 + 4 + r.value.1 <= end && data[r.value.0] == kind
                        && r.value.1 == Be24(data, r.value.0 + 1)
    decreases end - p
  {
    if p + 4 > end || p + 4 + Be24(data, p + 1) > end then None
    else if data[p] == kind then Some((p, Be24(data, p + 1)))
    else ScanMessages(data, p + 4 + Be24(data, p + 1), end, kind)
  }

  function BodyAt(data: seq<Byte>, r: Option<(nat, nat)>): Option<seq<Byte>>
    requires r.Some? ==> r.value.0 + 4 + r.value.1 <= |data|
  {
    match r
    case None => None
    case Some(at) => Some(data[at.0 + 4..at.0 + 4 + at.1])
  }

  predicate WholeMessage(data: seq<Byte>, p: nat, end: nat)
    requires end <= |data|
  {
    p + 4 <= end && p + 4 + Be24(data, p + 1) <= end
  }

  function NextMessage(data: seq<Byte>, p: nat, end: nat): nat
    requires end <= |data| && WholeMessage(data, p, end)
  {
    p + 4 + Be24(data, p + 1)
  }

  function MessagesFrom(data: seq<Byte>, p: nat, end: nat): seq<Message>
    requires p <= end <= |data|
    decreases end - p
  {
    if !WholeMessage(data, p, end) then []
    else [Message(data[p], data[p + 4..NextMessage(data, p, end)])] + MessagesFrom(data, NextMessage(data, p, end), end)
  }

  lemma {:induction false} MessagesByIndex(data: seq<Byte>, p: nat, end: nat)
    requires p <= end <= |data|
    ensures Messages(data[p..end]) == MessagesFrom(data, p, end)
    decreases end - p
  {
    MessagesAt(data, p, end);
    if WholeMessage(data, p, end) {
      var next := NextMessage(data, p, end);
      MessagesByIndex(data, next, end);
      assert Messages(data[p..end]) == [Message(data[p], data[p + 4..next])] + Messages(data[next..end]);
    }
  }

  lemma {:induction false} ScanMessagesFinds(data: seq<Byte>, p: nat, end: nat, kind: Byte)
    requires p <= end <= |data|
    ensures First(MessagesFrom(data, p, end), kind) == BodyAt(data, ScanMessages(data, p, end, kind))
    decreases end - p
  {
    if WholeMessage(data, p, end) {
      var next := NextMessage(data, p, end);
      ScanMessagesFinds(data, next, end, kind);
      FirstCons(Message(data[p], data[p + 4..next]), MessagesFrom(data, next, end), kind);
    }
  }

  predicate WholeRecord(data: seq<Byte>, p: nat) {
    p + 5 <= |data| && p + 5 + Be16(data, p + 3) <= |data|
  }

  function NextRecord(data: seq<Byte>, p: nat): nat
    requires WholeRecord(data, p)
  {
    p + 5 + Be16(data, p + 3)
  }

  function ScanRecords(data: seq<Byte>, p: nat, kind: Byte): (r: Option<(nat, nat)>)
    requires p <= |data|
    ensures r.Some? ==>
              && r.value.0 + 4 + r.value.1 <= |data|
              && data[r.value.0] == kind && r.value.1 == Be24(data, r.value.0 + 1)
    decreases |data| - p
  {
    if !WholeRecord(data, p) then None
    else if data[p] == HANDSHAKE && ScanMessages(data, p + 5, NextRecord(data, p), kind).Some? then
      ScanMessages(data, p + 5, NextRecord(data, p), kind)
    else ScanRecords(data, NextRecord(data, p), kind)
  }

  /** A record without the message is passed over. */
  lemma ScanRecordsNext(data: seq<Byte>, p: nat, kind: Byte)
    requires p <= |data| && WholeRecord(data, p)
    requires data[p] == HANDSHAKE ==> ScanMessages(data, p + 5, NextRecord(data, p), kind).None?
    ensures ScanRecords(data, p, kind) == ScanRecords(data, NextRecord(data, p), kind)
  {
  }

  function RecordsFrom(data: seq<Byte>, p: nat): seq<Record>
    requires p <= |data|
    decreases |data| - p
  {
    if !WholeRecord(data, p) then []
    else [Record(data[p], data[p + 5..NextRecord(data, p)])] + RecordsFrom(data, NextRecord(data, p))
  }

  lemma {:induction false} RecordsByIndex(data: seq<Byte>, p: nat)
    requires p <= |data|
    ensures Records(data[p..]) == RecordsFrom(data, p)
    decreases |data| - p
  {
    RecordsAt(data, p);
    if WholeRecord(data, p) {
      RecordsByIndex(data, NextRecord(data, p));
    }
  }

  lemma AllRecords(data: seq<Byte>)
    ensures Records(data) == RecordsFrom(data, 0)
  {
    RecordsByIndex(data, 0);
    assert data[0..] == data;
  }

  lemma AllMessages(s: seq<Byte>)
    ensures Messages(s) == MessagesFrom(s, 0, |s|)
  {
    MessagesByIndex(s, 0, |s|);
    assert s[0..|s|] == s;
  }

  lemma {:induction false} ScanRecordsFinds(data: seq<Byte>, p: nat, kind: Byte)
    requires p <= |data|
    ensures FirstInRecords(RecordsFrom(data, p), kind) == BodyAt(data, ScanRecords(data, p, kind))
    decreases |data| - p
  {
    if WholeRecord(data, p) {
      var next := NextRecord(data, p);
      ScanRecordsFinds(data, next, kind);
      MessagesByIndex(data, p + 5, next);
      ScanMessagesFinds(data, p + 5, next, kind);
      FirstInRecordsCons(Record(data[p], data[p + 5..next]), RecordsFrom(data, next), kind);
    }
  }

  function ScanAgain(data: seq<Byte>, p: nat, hs: seq<Byte>, kind: Byte): Option<seq<Byte>>
    requires p <= |data|
    decreases |data| - p
  {
    if !WholeRecord(data, p) then None
    else if data[p] != HANDSHAKE then ScanAgain(data, NextRecord(data, p), hs, kind)
    else
      var more := hs + data[p + 5..NextRecord(data, p)];
      if ScanMessages(more, 0, |more|, kind).Some? then BodyAt(more, ScanMessages(more, 0, |more|, kind))
      else ScanAgain(data, NextRecord(data, p), more, kind)
  }

  lemma {:induction false} ScanAgainFinds(data: seq<Byte>, p: nat, hs: seq<Byte>, kind: Byte)
    requires p <= |data|
    ensures FirstRescanning(RecordsFrom(data, p), hs, kind) == ScanAgain(data, p, hs, kind)
    decreases |data| - p
  {
    if WholeRecord(data, p) {
      var next := NextRecord(data, p);
      var more := hs + data[p + 5..next];
      AllMessages(more);
      ScanMessagesFinds(more, 0, |more|, kind);
      ScanAgainFinds(data, next, more, kind);
      ScanAgainFinds(data, next, hs, kind);
      FirstRescanningCons(Record(data[p], data[p + 5..next]), RecordsFrom(data, next), hs, kind);
    }
  }

  function ScanCoalesce(data: seq<Byte>, p: nat, hs: seq<Byte>): seq<Byte>
    requires p <= |data|
    decreases |data| - p
  {
    if !WholeRecord(data, p) then hs
    else if data[p] != HANDSHAKE || Be16(data, p + 3) == 0 then ScanCoalesce(data, NextRecord(data, p), hs)
    else if |hs| + Be16(data, p + 3) > TLS_CAP then hs
    else ScanCoalesce(data, NextRecord(data, p), hs + data[p + 5..NextRecord(data, p)])
  }

  lemma {:induction false} ScanCoalesceFinds(data: seq<Byte>, p: nat, hs: seq<Byte>)
    requires p <= |data|
    ensures Coalesced(RecordsFrom(data, p), hs, TLS_CAP) == ScanCoalesce(data, p, hs)
    decreases |data| - p
  {
    if WholeRecord(data, p) {
      var next := NextRecord(data, p);
      ScanCoalesceFinds(data, next, hs);
      ScanCoalesceFinds(data, next, hs + data[p + 5..next]);
      CoalescedCons(Record(data[p], data[p + 5..next]), RecordsFrom(data, next), hs, TLS_CAP);
    }
  }

  function ScanFirstShare(hs: seq<Byte>, p: nat, kind: Byte): Option<seq<Byte>>
    requires p <= |hs|
    decreases |hs| - p
  {
    if p + 4 > |hs| || p + 4 + Be24(hs, p + 1) > |hs| then None
    else
      var next := p + 4 + Be24(hs, p + 1);
      if hs[p] == kind && AnyShare(kind, hs[p + 4..next]).Some? then AnyShare(kind, hs[p + 4..next])
      else ScanFirstShare(hs, next, kind)
  }

  /** A message without a share is passed over. */
  lemma ScanFirstShareNext(hs: seq<Byte>, p: nat, kind: Byte)
    requires p <= |hs| && WholeMessage(hs, p, |hs|)
    requires hs[p] == kind ==> AnyShare(kind, hs[p + 4..NextMessage(hs, p, |hs|)]).None?
    ensures ScanFirstShare(hs, p, kind) == ScanFirstShare(hs, NextMessage(hs, p, |hs|), kind)
  {
  }

  lemma {:induction false} ScanFirstShareFinds(hs: seq<Byte>, p: nat, kind: Byte)
    requires p <= |hs|
    ensures FirstShare(MessagesFrom(hs, p, |hs|), kind) == ScanFirstShare(hs, p, kind)
    decreases |hs| - p
  {
    if WholeMessage(hs, p, |hs|) {
      var next := NextMessage(hs, p, |hs|);
      ScanFirstShareFinds(hs, next, kind);
      FirstShareCons(Message(hs[p], hs[p + 4..next]), MessagesFrom(hs, next, |hs|), kind);
    }
  }

  /** The extension loop all the parsers share, up to the shortest key_share they look at. */
  method FindKeyShare(data: seq<Byte>, start: nat, end: nat, min: nat) returns (r: Option<(nat, nat)>)
    requires start <= end <= |data|
    ensures r == ScanShare(data, start, end, min)
  {
    var offset := start;
    while offset + 4 <= end
      invariant offset <= end
      invariant ScanShare(data, start, end, min) == ScanShare(data, offset, end, min)
    {
      var kind := Be16(data, offset);
      var length := Be16(data, offset + 2);
      offset := offset + 4;
      if offset + length > end {
        return None;
      }
      if kind == KEY_SHARE && length >= min {
        return Some((offset, length));
      }
      offset := offset + length;
    }
    return None;
  }

  /** The message loop: the first message of the wanted type. */
  method FindMessage(data: seq<Byte>, start: nat, end: nat, wanted: Byte) returns (r: Option<(nat, nat)>)
    requires start <= end <= |data|
    ensures r == ScanMessages(data, start, end, wanted)
  {
    var position := start;
    while position + 4 <= end
      invariant position <= end
      invariant ScanMessages(data, start, end, wanted) == ScanMessages(data, position, end, wanted)
    {
      var length := Be24(data, position + 1);
      if position + 4 + length > end {
        return None;
      }
      if data[position] == wanted {
        return Some((position, length));
      }
      position := position + 4 + length;
    }
    return None;
  }

  // ----- agents/linux/tls_parse.c -----

  /** tcpra_client_lookup_from_key_share. */
  method ClientLookupFromKeyShare(digest: Digest, extension: seq<Byte>) returns (key: Option<Key>)
    ensures key == if ClientShareOk(extension) then Some(digest(ClientLabel, extension)) else None
  {
    if |extension| < 6 {
      return None;
    }
    var shares := Be16(extension, 0);
    if shares + 2 != |extension| || shares < 4 {
      return None;
    }
    return Some(digest(ClientLabel, extension));
  }

  /** The declared length of a handshake message, as the extractors check it. */
  predicate Declared(buffer: seq<Byte>, kind: Byte, least: nat) {
    |buffer| >= 4 && buffer[0] == kind && 4 + Be24(buffer, 1) <= |buffer| && Be24(buffer, 1) >= least
  }

  lemma ClientBlockAt(buffer: seq<Byte>)
    requires |buffer| >= 4
    ensures var n := |buffer|;
            var r := ClientBlock(buffer[4..]);
            if n < 39 then r == None
            else
              var suites: nat := 39 + buffer[38] as int;
              if suites + 2 > n then r == None
              else
                var compression: nat := suites + 2 + Be16(buffer, suites);
                if compression + 1 > n then r == None
                else
                  var block: nat := compression + 1 + buffer[compression] as int;
                  if block + 2 > n || block + 2 + Be16(buffer, block) > n then r == None
                  else r == Some(buffer[block + 2..block + 2 + Be16(buffer, block)])
  {
    var body := buffer[4..];
    if |buffer| >= 39 {
      var suites: nat := 35 + body[34] as int;
      if suites + 2 <= |body| {
        BytesAt(buffer, suites);
        var compression: nat := suites + 2 + Be16(body, suites);
        if compression + 1 <= |body| {
          BlockAt(buffer, compression + 1 + body[compression] as int);
        }
      }
    }
  }

  lemma BytesAt(buffer: seq<Byte>, k: nat)
    requires 4 + k + 2 <= |buffer|
    ensures Be16(buffer[4..], k) == Be16(buffer, k + 4)
  {
  }

  /** The same block, counted from the message header or from the body. */
  lemma BlockAt(buffer: seq<Byte>, block: nat)
    requires |buffer| >= 4
    ensures var body := buffer[4..];
            block + 2 <= |body| ==>
              && Be16(body, block) == Be16(buffer, block + 4)
              && (block + 2 + Be16(body, block) <= |body| ==>
                    body[block + 2..block + 2 + Be16(body, block)]
                    == buffer[block + 6..block + 6 + Be16(buffer, block + 4)])
  {
    var body := buffer[4..];
    if block + 2 <= |body| {
      BytesAt(buffer, block);
      if block + 2 + Be16(body, block) <= |body| {
        SliceOfSlice(buffer, 4, |buffer|, block + 2, block + 2 + Be16(body, block));
        assert body == buffer[4..|buffer|];
      }
    }
  }

  lemma ServerBlockAt(buffer: seq<Byte>)
    requires |buffer| >= 4
    ensures var n := |buffer|;
            var r := ServerBlock(buffer[4..]);
            if n < 39 then r == None
            else
              var block: nat := 42 + buffer[38] as int;
              if block + 2 > n || block + 2 + Be16(buffer, block) > n then r == None
              else r == Some(buffer[block + 2..block + 2 + Be16(buffer, block)])
  {
    if |buffer| >= 39 {
      BlockAt(buffer, 38 + buffer[4..][34] as int);
    }
  }

  /** The first half of tcpra_extract_clienthello_lookup: where the extension block lies. */
  method ClientExtensions(buffer: seq<Byte>) returns (block: Option<(nat, nat)>)
    requires |buffer| >= 4
    ensures block.Some? == ClientBlock(buffer[4..]).Some?
    ensures block.Some? ==> block.value.0 <= block.value.1 <= |buffer|
                            && ClientBlock(buffer[4..]) == Some(buffer[block.value.0..block.value.1])
  {
    ClientBlockAt(buffer);
    var offset: nat := 4 + 2 + 32;
    if offset >= |buffer| {
      return None;
    }
    var sessionId := buffer[offset] as int;
    offset := offset + 1;
    if offset + sessionId + 2 > |buffer| {
      return None;
    }
    offset := offset + sessionId;
    var suites := Be16(buffer, offset);
    offset := offset + 2;
    if offset + suites + 1 > |buffer| {
      return None;
    }
    offset := offset + suites;
    var compression := buffer[offset] as int;
    offset := offset + 1;
    if offset + compression + 2 > |buffer| {
      return None;
    }
    offset := offset + compression;
    var extensionsEnd: nat := offset + 2 + Be16(buffer, offset);
    offset := offset + 2;
    if extensionsEnd > |buffer| {
      return None;
    }
    return Some((offset, extensionsEnd));
  }

  lemma {:induction false} KeyShareIsLong(data: seq<Byte>, p: nat, end: nat, min: nat)
    requires p <= end <= |data|
    ensures ScanShare(data, p, end, min).Some? ==> ScanShare(data, p, end, min).value.1 >= min
    decreases end - p
  {
    if p + 4 <= end && p + 4 + Be16(data, p + 2) <= end {
      KeyShareIsLong(data, p + 4 + Be16(data, p + 2), end, min);
    }
  }

  /** The share the Linux extractors take, found by scanning the extension block in place. */
  lemma LinuxShareAt(buffer: seq<Byte>, kind: Byte, start: nat, end: nat)
    requires |buffer| >= 4 && start <= end <= |buffer|
    requires Block(kind, buffer[4..]) == Some(buffer[start..end])
    ensures var x := Slice(buffer, ScanShare(buffer, start, end, MinShare(kind)));
            && LinuxShare(kind, buffer[4..]) == (if x.Some? && ShareOk(kind, x.value) then x else None)
            && (x.Some? ==> |x.value| >= MinShare(kind))
  {
    ScanShareFinds(buffer, start, end, MinShare(kind));
    KeyShareIsLong(buffer, start, end, MinShare(kind));
  }

  /** tcpra_extract_clienthello_lookup. */
  method ExtractClientHelloLookup(digest: Digest, buffer: seq<Byte>) returns (key: Option<Key>)
    ensures key
         == if Declared(buffer, CLIENT_HELLO, 34) then
              DigestOf(digest, CLIENT_HELLO, LinuxShare(CLIENT_HELLO, buffer[4..]))
            else None
  {
    if |buffer| < 4 || buffer[0] != CLIENT_HELLO {
      return None;
    }
    var body := Be24(buffer, 1);
    if body + 4 > |buffer| || body < 34 {
      return None;
    }
    var block := ClientExtensions(buffer);
    if block.None? {
      return None;
    }
    var (offset, extensionsEnd) := block.value;
    LinuxShareAt(buffer, CLIENT_HELLO, offset, extensionsEnd);
    var share := FindKeyShare(buffer, offset, extensionsEnd, 6);
    if share.None? {
      return None;
    }
    key := ClientLookupFromKeyShare(digest, buffer[share.value.0..share.value.0 + share.value.1]);
  }

  /** The first half of tcpra_extract_serverhello: where the extension block lies. */
  method ServerExtensions(buffer: seq<Byte>) returns (block: Option<(nat, nat)>)
    requires |buffer| >= 4
    ensures block.Some? == ServerBlock(buffer[4..]).Some?
    ensures block.Some? ==> block.value.0 <= block.value.1 <= |buffer|
                            && ServerBlock(buffer[4..]) == Some(buffer[block.value.0..block.value.1])
  {
    ServerBlockAt(buffer);
    var offset: nat := 4 + 2 + 32;
    if offset >= |buffer| {
      return None;
    }
    var sessionId := buffer[offset] as int;
    offset := offset + 1;
    if offset + sessionId + 3 > |buffer| {
      return None;
    }
    offset := offset + sessionId + 2 + 1;
    if offset + 2 > |buffer| {
      return None;
    }
    var extensionsEnd: nat := offset + 2 + Be16(buffer, offset);
    offset := offset + 2;
    if extensionsEnd > |buffer| {
      return None;
    }
    return Some((offset, extensionsEnd));
  }

  /** The key_share checks of tcpra_extract_serverhello. */
  method ServerKeyFromShare(digest: Digest, x: seq<Byte>) returns (r: Option<ServerKey>)
    requires |x| >= 4
    ensures r == if ServerShareOk(x) then Some(ServerKey(Be16(x, 0), x[4..], digest(ServerLabel, x))) else None
  {
    var keyLength := Be16(x, 2);
    if keyLength == 0 || keyLength > MAX_PUBLIC_KEY || keyLength + 4 != |x| {
      return None;
    }
    return Some(ServerKey(Be16(x, 0), x[4..], digest(ServerLabel, x)));
  }

  /** tcpra_extract_serverhello. */
  method ExtractServerHello(digest: Digest, buffer: seq<Byte>) returns (r: Option<ServerKey>)
    ensures var share := if Declared(buffer, SERVER_HELLO, 38) then LinuxShare(SERVER_HELLO, buffer[4..]) else None;
            && r.Some? == share.Some?
            && (share.Some? ==> |share.value| >= 4
                                && r.value == ServerKey(Be16(share.value, 0), share.value[4..],
                                                        digest(ServerLabel, share.value)))
  {
    if |buffer| < 4 || buffer[0] != SERVER_HELLO {
      return None;
    }
    var body := Be24(buffer, 1);
    if body + 4 > |buffer| || body < 38 {
      return None;
    }
    var block := ServerExtensions(buffer);
    if block.None? {
      return None;
    }
    var (offset, extensionsEnd) := block.value;
    LinuxShareAt(buffer, SERVER_HELLO, offset, extensionsEnd);
    var share := FindKeyShare(buffer, offset, extensionsEnd, 4);
    if share.None? {
      return None;
    }
    r := ServerKeyFromShare(digest, buffer[share.value.0..share.value.0 + share.value.1]);
  }

  /** tcpra_report_key_from_public. */
  method ReportKeyFromPublic(digest: Digest, group: nat, publicKey: seq<Byte>) returns (key: Option<Key>)
    requires group < 65536
    ensures key == if 0 < |publicKey| <= MAX_PUBLIC_KEY
                   then Some(digest(ServerLabel, Two(group) + Two(|publicKey|) + publicKey)) else None
  {
    if |publicKey| == 0 || |publicKey| > MAX_PUBLIC_KEY {
      return None;
    }
    return Some(digest(ServerLabel, Two(group) + Two(|publicKey|) + publicKey));
  }

  /** A 16-bit value in network order. */
  function Two(n: nat): (s: seq<Byte>)
    requires n < 65536
    ensures |s| == 2 && Be16(s, 0) == n
  {
    [n / 256, n % 256]
  }

  /** The key a server observer recomputes from the group and public key it was handed is the key
      the extractor digested. */
  lemma RecomputedKeyIsExtracted(x: seq<Byte>)
    requires ServerShareOk(x)
    ensures |x| >= 4 && 0 < |x[4..]| <= MAX_PUBLIC_KEY
    ensures Two(Be16(x, 0)) + Two(|x[4..]|) + x[4..] == x
  {
  }

  /** What find_handshake reports. */
  datatype Found = Found(lookupKey: Option<Key>, serverKey: Option<ServerKey>)

  predicate Reports(digest: Digest, kind: Byte, share: Option<seq<Byte>>, r: Found) {
    if kind == CLIENT_HELLO then r == Found(DigestOf(digest, kind, share), None)
    else
      && r.lookupKey.None? && r.serverKey.Some? == share.Some?
      && (share.Some? ==>
            && |share.value| >= 4
            && r.serverKey.value == ServerKey(Be16(share.value, 0), share.value[4..], digest(ServerLabel, share.value)))
  }

  lemma ShortHelloHasNoShare(kind: Byte, body: seq<Byte>)
    requires |body| < LeastBody(kind)
    ensures LinuxShare(kind, body) == None
  {
  }

  /** find_handshake: record by record, message by message, the first hello of the wanted type. */
  method FindHandshake(digest: Digest, data: seq<Byte>, wanted: Byte) returns (r: Found)
    requires wanted == CLIENT_HELLO || wanted == SERVER_HELLO
    ensures Reports(digest, wanted, LinuxFind(data, wanted), r)
  {
    hide LinuxFind, ShareOfMessage, FirstInRecords, Records, ScanRecords;
    var hello := FindWanted(data, wanted);
    FirstInRecordsByScan(data, wanted);
    LinuxFindAt(data, wanted, hello);
    if hello.None? {
      return Found(None, None);
    }
    var (at, length) := hello.value;
    r := Extract(digest, data[at..at + 4 + length], wanted);
  }

  lemma ShareOfMessageAt(data: seq<Byte>, at: nat, n: nat, kind: Byte)
    requires at + 4 + n <= |data| && data[at] == kind && Be24(data, at + 1) == n
    ensures ShareOfMessage(data[at..at + 4 + n], kind) == LinuxShare(kind, data[at + 4..at + 4 + n])
  {
    var m := data[at..at + 4 + n];
    SliceFrom(data, at, at + 4 + n, 4, 0);
    assert Be24(m, 1) == n;
    if n < LeastBody(kind) {
      ShortHelloHasNoShare(kind, m[4..]);
    }
  }

  lemma FirstInRecordsByScan(data: seq<Byte>, kind: Byte)
    ensures FirstInRecords(Records(data), kind) == BodyAt(data, ScanRecords(data, 0, kind))
  {
    AllRecords(data);
    ScanRecordsFinds(data, 0, kind);
  }

  lemma LinuxFindOf(data: seq<Byte>, kind: Byte, hello: Option<seq<Byte>>)
    requires FirstInRecords(Records(data), kind) == hello
    ensures LinuxFind(data, kind) == if hello.None? then None else LinuxShare(kind, hello.value)
  {
  }

  lemma LinuxFindAt(data: seq<Byte>, kind: Byte, at: Option<(nat, nat)>)
    requires at.Some? ==> at.value.0 + 4 + at.value.1 <= |data| && data[at.value.0] == kind
                          && at.value.1 == Be24(data, at.value.0 + 1)
    requires FirstInRecords(Records(data), kind) == BodyAt(data, at)
    ensures LinuxFind(data, kind)
         == if at.None? then None else ShareOfMessage(data[at.value.0..at.value.0 + 4 + at.value.1], kind)
  {
    LinuxFindOf(data, kind, BodyAt(data, at));
    if at.Some? {
      ShareOfMessageAt(data, at.value.0, at.value.1, kind);
    }
  }

  function LeastBody(kind: Byte): nat { if kind == CLIENT_HELLO then 34 else 38 }

  /** What the two extractors find in one message. */
  function ShareOfMessage(m: seq<Byte>, kind: Byte): Option<seq<Byte>> {
    if Declared(m, kind, LeastBody(kind)) then LinuxShare(kind, m[4..]) else None
  }

  method Extract(digest: Digest, message: seq<Byte>, wanted: Byte) returns (r: Found)
    requires wanted == CLIENT_HELLO || wanted == SERVER_HELLO
    ensures Reports(digest, wanted, ShareOfMessage(message, wanted), r)
  {
    if wanted == CLIENT_HELLO {
      var key := ExtractClientHelloLookup(digest, message);
      return Found(key, None);
    }
    var key := ExtractServerHello(digest, message);
    return Found(None, key);
  }

  /** The record loop of find_handshake. */
  method FindWanted(data: seq<Byte>, wanted: Byte) returns (r: Option<(nat, nat)>)
    ensures r == ScanRecords(data, 0, wanted)
  {
    hide ScanMessages;
    var offset: nat := 0;
    while offset + 5 <= |data|
      invariant offset <= |data|
      invariant ScanRecords(data, 0, wanted) == ScanRecords(data, offset, wanted)
      decreases |data| - offset
    {
      var recordLength := Be16(data, offset + 3);
      if offset + 5 + recordLength > |data| {
        break;
      }
      if data[offset] == HANDSHAKE {
        r := FindMessage(data, offset + 5, offset + 5 + recordLength, wanted);
        if r.Some? {
          return;
        }
      }
      ScanRecordsNext(data, offset, wanted);
      offset := offset + 5 + recordLength;
    }
    return None;
  }

  // ----- agents/macos/ffi/src/tls.rs -----

  /** The extension loop of find_extension, which parse_client_key_share and parse_server_key_share
      share with it. */
  method FirstShareOf(body: seq<Byte>, kind: Byte, start: nat, end: nat) returns (r: Option<seq<Byte>>)
    requires start <= end <= |body| && Block(kind, body) == Some(body[start..end])
    ensures r == AnyShare(kind, body)
  {
    ScanShareFinds(body, start, end, 0);
    var share := FindKeyShare(body, start, end, 0);
    return if share.None? then None else Some(body[share.value.0..share.value.0 + share.value.1]);
  }

  /** find_extension. */
  method FindExtension(body: seq<Byte>, isClient: bool) returns (r: Option<seq<Byte>>)
    ensures r == AnyShare(if isClient then CLIENT_HELLO else SERVER_HELLO, body)
  {
    if |body| <= 34 {
      return None;
    }
    var offset: nat := 35 + body[34] as int;
    if isClient {
      if offset + 2 > |body| {
        return None;
      }
      offset := offset + 2 + Be16(body, offset);
      if offset >= |body| {
        return None;
      }
      offset := offset + 1 + body[offset] as int;
    } else {
      offset := offset + 3;
    }
    if offset + 2 > |body| {
      return None;
    }
    var length := Be16(body, offset);
    offset := offset + 2;
    var end := offset + length;
    if end > |body| {
      return None;
    }
    assert Block(if isClient then CLIENT_HELLO else SERVER_HELLO, body) == Some(body[offset..end]);
    r := FirstShareOf(body, if isClient then CLIENT_HELLO else SERVER_HELLO, offset, end);
  }

  /** find_hello: the handshake buffer grows record by record and is searched again each time. */
  method FindHello(digest: Digest, records: seq<Byte>, kind: Byte) returns (key: Option<Key>)
    requires kind == CLIENT_HELLO || kind == SERVER_HELLO
    ensures key == DigestOf(digest, kind, MacFind(records, kind))
  {
    AllRecords(records);
    ScanAgainFinds(records, 0, [], kind);
    var hello := RescanForHello(records, kind);
    if hello.None? {
      return None;
    }
    var extension := FindExtension(hello.value, kind == CLIENT_HELLO);
    return DigestOf(digest, kind, extension);
  }

  /** The record loop of find_hello. */
  method RescanForHello(records: seq<Byte>, kind: Byte) returns (body: Option<seq<Byte>>)
    ensures body == ScanAgain(records, 0, [], kind)
  {
    var recordOffset: nat := 0;
    var handshake: seq<Byte> := [];
    while recordOffset + 5 <= |records|
      invariant recordOffset <= |records|
      invariant ScanAgain(records, 0, [], kind) == ScanAgain(records, recordOffset, handshake, kind)
      decreases |records| - recordOffset
    {
      var recordEnd := recordOffset + 5 + Be16(records, recordOffset + 3);
      if recordEnd > |records| {
        return None;
      }
      if records[recordOffset] == HANDSHAKE {
        handshake := handshake + records[recordOffset + 5..recordEnd];
        var hello := FindMessage(handshake, 0, |handshake|, kind);
        if hello.Some? {
          return Some(handshake[hello.value.0 + 4..hello.value.0 + 4 + hello.value.1]);
        }
      }
      recordOffset := recordEnd;
    }
    return None;
  }

  // ----- agents/windows/tcpra_agent_c.c -----

  /** parse_client_key_share and parse_server_key_share. */
  method ParseKeyShare(h: seq<Byte>, client: bool) returns (r: Option<seq<Byte>>)
    ensures r == AnyShare(if client then CLIENT_HELLO else SERVER_HELLO, h)
  {
    if |h| < 35 {
      return None;
    }
    var p: nat := 34;
    var n: nat := h[p] as int;
    p := p + 1;
    if p + n + (if client then 2 else 5) > |h| {
      return None;
    }
    if client {
      p := p + n;
      n := Be16(h, p);
      p := p + 2;
      if p + n + 1 > |h| {
        return None;
      }
      p := p + n;
      n := h[p] as int;
      p := p + 1;
      if p + n + 2 > |h| {
        return None;
      }
      p := p + n;
    } else {
      p := p + n + 3;
    }
    n := Be16(h, p);
    p := p + 2;
    if p + n > |h| {
      return None;
    }
    var end := p + n;
    assert Block(if client then CLIENT_HELLO else SERVER_HELLO, h) == Some(h[p..end]);
    r := FirstShareOf(h, if client then CLIENT_HELLO else SERVER_HELLO, p, end);
  }

  /** The first loop of find_hello_key: all handshake payloads, up to the buffer bound. */
  method CoalesceHandshake(records: seq<Byte>) returns (hs: seq<Byte>)
    ensures hs == ScanCoalesce(records, 0, [])
  {
    var record: nat := 0;
    hs := [];
    while record + 5 <= |records|
      invariant record <= |records|
      invariant ScanCoalesce(records, 0, []) == ScanCoalesce(records, record, hs)
      decreases |records| - record
    {
      var n := Be16(records, record + 3);
      if record + 5 + n > |records| {
        break;
      }
      if records[record] == HANDSHAKE && n > 0 {
        if |hs| + n > TLS_CAP {
          return;
        }
        hs := hs + records[record + 5..record + 5 + n];
      }
      record := record + 5 + n;
    }
  }

  /** The second loop: the first hello whose key_share parses. */
  method ShareInHandshake(hs: seq<Byte>, client: bool) returns (share: Option<seq<Byte>>)
    ensures share == ScanFirstShare(hs, 0, if client then CLIENT_HELLO else SERVER_HELLO)
  {
    hide AnyShare;
    var kind := if client then CLIENT_HELLO else SERVER_HELLO;
    var p: nat := 0;
    while p + 4 <= |hs|
      invariant p <= |hs|
      invariant ScanFirstShare(hs, 0, kind) == ScanFirstShare(hs, p, kind)
      decreases |hs| - p
    {
      var body := Be24(hs, p + 1);
      if p + 4 + body > |hs| {
        break;
      }
      if hs[p] == kind {
        share := ParseKeyShare(hs[p + 4..p + 4 + body], client);
        if share.Some? {
          return;
        }
      }
      ScanFirstShareNext(hs, p, kind);
      p := p + 4 + body;
    }
    return None;
  }

  /** find_hello_key. */
  method FindHelloKey(digest: Digest, records: seq<Byte>, client: bool) returns (key: Option<Key>)
    ensures var kind := if client then CLIENT_HELLO else SERVER_HELLO;
            key == DigestOf(digest, kind, WindowsFind(records, kind))
  {
    var kind := if client then CLIENT_HELLO else SERVER_HELLO;
    AllRecords(records);
    ScanCoalesceFinds(records, 0, []);
    var hs := CoalesceHandshake(records);
    AllMessages(hs);
    ScanFirstShareFinds(hs, 0, kind);
    var share := ShareInHandshake(hs, client);
    return DigestOf(digest, kind, share);
  }
}
