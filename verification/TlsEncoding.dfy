/** An encoder for TLS 1.3 hellos and their records (RFC 8446, sections 4.1.2, 4.1.3, 4.2, 4.2.8 and
    5.1), and the proof that all three finders invert it. */
module TlsEncoding {
  import opened Basics
  import opened Tls
  import opened TlsFinders

  datatype Extension = Extension(kind: nat, data: seq<Byte>)

  /** legacy_version and random are head; choice is the server's cipher suite and compression
      method. */
  datatype Hello =
    | ClientHello(head: seq<Byte>, sessionId: seq<Byte>, suites: seq<Byte>, compression: seq<Byte>,
                  extensions: seq<Extension>)
    | ServerHello(head: seq<Byte>, sessionId: seq<Byte>, choice: seq<Byte>, extensions: seq<Extension>)

  function KindOf(h: Hello): Byte { if h.ClientHello? then CLIENT_HELLO else SERVER_HELLO }

  predicate ExtensionsFit(es: seq<Extension>) {
    forall e | e in es :: e.kind < 65536 && |e.data| < 65536
  }

  predicate Fits(h: Hello) {
    && |h.head| == 34 && |h.sessionId| < 256 && ExtensionsFit(h.extensions)
    && |EncodeExtensions(h.extensions)| < 65536
    && (h.ClientHello? ==> |h.suites| < 65536 && |h.compression| < 256)
    && (h.ServerHello? ==> |h.choice| == 3)
  }

  function EncodeExtensions(es: seq<Extension>): seq<Byte>
    requires ExtensionsFit(es)
  {
    if es == [] then []
    else Two(es[0].kind) + Two(|es[0].data|) + es[0].data + EncodeExtensions(es[1..])
  }

  function EncodeBody(h: Hello): seq<Byte>
    requires Fits(h)
  {
    var tail := Two(|EncodeExtensions(h.extensions)|) + EncodeExtensions(h.extensions);
    match h
    case ClientHello(head, sessionId, suites, compression, _) =>
      head + ([|sessionId|] + (sessionId + (Two(|suites|) + (suites + ([|compression|] + (compression + tail))))))
    case ServerHello(head, sessionId, choice, _) =>
      head + ([|sessionId|] + (sessionId + (choice + tail)))
  }

  function Three(n: nat): (s: seq<Byte>)
    requires n < 16777216
    ensures |s| == 3 && Be24(s, 0) == n
  {
    [n / 65536, n / 256 % 256, n % 256]
  }

  predicate MessageFits(m: Message) { |m.body| < 16777216 }

  function EncodeMessage(m: Message): seq<Byte>
    requires MessageFits(m)
  {
    [m.kind] + Three(|m.body|) + m.body
  }

  function EncodeMessages(ms: seq<Message>): seq<Byte>
    requires forall m | m in ms :: MessageFits(m)
  {
    if ms == [] then []
    else
      assert MessageFits(ms[0]);
      EncodeMessage(ms[0]) + EncodeMessages(ms[1..])
  }

  /** legacy_record_version: 0x0303, or 0x0301 on an initial ClientHello; receivers ignore it. */
  datatype Version = Version(major: Byte, minor: Byte)

  /** The records on the wire, each under a version of its own. */
  function EncodeRecords(rs: seq<Record>, versions: seq<Version>): seq<Byte>
    requires |versions| == |rs| && forall r | r in rs :: |r.payload| < 65536
  {
    if rs == [] then []
    else
      [rs[0].contentType, versions[0].major, versions[0].minor] + Two(|rs[0].payload|) + rs[0].payload
      + EncodeRecords(rs[1..], versions[1..])
  }

  /** One record: whole handshake messages, or anything of another content type. */
  datatype Fragment = Handshakes(messages: seq<Message>) | Other(contentType: Byte, payload: seq<Byte>)

  predicate FragmentFits(f: Fragment) {
    match f
    case Handshakes(ms) => (forall m | m in ms :: MessageFits(m)) && |EncodeMessages(ms)| < 65536
    case Other(t, p) => t != HANDSHAKE && |p| < 65536
  }

  function ToRecord(f: Fragment): Record
    requires FragmentFits(f)
  {
    match f
    case Handshakes(ms) => Record(HANDSHAKE, EncodeMessages(ms))
    case Other(t, p) => Record(t, p)
  }

  function ToRecords(fs: seq<Fragment>): (rs: seq<Record>)
    requires forall f | f in fs :: FragmentFits(f)
    ensures |rs| == |fs| && forall r | r in rs :: |r.payload| < 65536
  {
    if fs == [] then [] else [ToRecord(fs[0])] + ToRecords(fs[1..])
  }

  function AllHandshakes(fs: seq<Fragment>): seq<Message> {
    if fs == [] then []
    else (if fs[0].Handshakes? then fs[0].messages else []) + AllHandshakes(fs[1..])
  }

  // ----- round trips -----

  lemma {:induction false} RecordsRoundTrip(rs: seq<Record>, versions: seq<Version>)
    requires |versions| == |rs| && forall r | r in rs :: |r.payload| < 65536
    ensures Records(EncodeRecords(rs, versions)) == rs
  {
    if rs != [] {
      RecordInFront(rs[0], versions[0], EncodeRecords(rs[1..], versions[1..]));
      RecordsRoundTrip(rs[1..], versions[1..]);
    }
  }

  /** A record is read off the front of the bytes that begin with it, whatever its version. */
  lemma RecordInFront(r: Record, v: Version, rest: seq<Byte>)
    requires |r.payload| < 65536
    ensures var data := [r.contentType, v.major, v.minor] + Two(|r.payload|) + r.payload + rest;
            Records(data) == [r] + Records(rest)
  {
    var n := |r.payload|;
    var data := [r.contentType, v.major, v.minor] + Two(n) + r.payload + rest;
    assert data[3] == Two(n)[0] && data[4] == Two(n)[1];
    assert data[5..5 + n] == r.payload && data[5 + n..] == rest;
  }

  /** A message is read off the front of the bytes that begin with its encoding. */
  lemma MessageInFront(m: Message, rest: seq<Byte>)
    requires MessageFits(m)
    ensures var s, n := EncodeMessage(m) + rest, |m.body|;
            && |s| >= 4 + n && s[0] == m.kind && Be24(s, 1) == n
            && s[4..4 + n] == m.body && s[4 + n..] == rest
  {
    var s, n := EncodeMessage(m) + rest, |m.body|;
    assert s[1] == Three(n)[0] && s[2] == Three(n)[1] && s[3] == Three(n)[2];
  }

  lemma {:induction false} MessagesRoundTrip(ms: seq<Message>)
    requires forall m | m in ms :: MessageFits(m)
    ensures Messages(EncodeMessages(ms)) == ms && Leftover(EncodeMessages(ms)) == []
  {
    hide EncodeMessage, Be24;
    if ms != [] {
      MessageInFront(ms[0], EncodeMessages(ms[1..]));
      MessagesRoundTrip(ms[1..]);
    }
  }

  lemma {:induction false} MessagesConcat(a: seq<Message>, b: seq<Message>)
    requires (forall m | m in a :: MessageFits(m)) && (forall m | m in b :: MessageFits(m))
    ensures EncodeMessages(a + b) == EncodeMessages(a) + EncodeMessages(b)
  {
    hide EncodeMessage;
    if a == [] {
      assert a + b == b;
    } else {
      assert (a + b)[0] == a[0] && (a + b)[1..] == a[1..] + b;
      MessagesConcat(a[1..], b);
      var x, y, z := EncodeMessage(a[0]), EncodeMessages(a[1..]), EncodeMessages(b);
      assert x + (y + z) == (x + y) + z;
    }
  }

  lemma {:induction false} HandshakeRoundTrip(fs: seq<Fragment>)
    requires forall f | f in fs :: FragmentFits(f)
    ensures forall m | m in AllHandshakes(fs) :: MessageFits(m)
    ensures Handshake(ToRecords(fs)) == EncodeMessages(AllHandshakes(fs))
  {
    if fs != [] {
      HandshakeRoundTrip(fs[1..]);
      var rs := ToRecords(fs);
      assert rs[1..] == ToRecords(fs[1..]) && rs[0] == ToRecord(fs[0]);
      if fs[0].Handshakes? {
        var ms, more := fs[0].messages, AllHandshakes(fs[1..]);
        assert FragmentFits(fs[0]) && forall m | m in ms :: MessageFits(m);
        assert forall m | m in more :: MessageFits(m);
        MessagesConcat(ms, more);
      } else {
        assert AllHandshakes(fs) == AllHandshakes(fs[1..]);
      }
    }
  }

  lemma {:induction false} RecordsAreWhole(fs: seq<Fragment>, kind: Byte)
    requires forall f | f in fs :: FragmentFits(f)
    ensures WholeUntil(ToRecords(fs), kind)
  {
    if fs != [] {
      RecordsAreWhole(fs[1..], kind);
      var rs := ToRecords(fs);
      assert rs[1..] == ToRecords(fs[1..]) && rs[0] == ToRecord(fs[0]) && FragmentFits(fs[0]);
      if fs[0].Handshakes? {
        MessagesRoundTrip(fs[0].messages);
      }
    }
  }

  /** The data of the key_share extensions, in order. */
  function KeyShares(es: seq<Extension>): seq<seq<Byte>> {
    if es == [] then []
    else (if es[0].kind == KEY_SHARE then [es[0].data] else []) + KeyShares(es[1..])
  }

  lemma {:induction false} ExtensionsRoundTrip(es: seq<Extension>)
    requires ExtensionsFit(es)
    ensures Shares(EncodeExtensions(es)) == KeyShares(es)
  {
    if es != [] {
      var n := |es[0].data|;
      var rest := EncodeExtensions(es[1..]);
      var block := EncodeExtensions(es);
      assert block == Two(es[0].kind) + Two(n) + es[0].data + rest;
      assert block[0] == Two(es[0].kind)[0] && block[1] == Two(es[0].kind)[1];
      assert block[2] == Two(n)[0] && block[3] == Two(n)[1];
      assert Be16(block, 0) == es[0].kind && Be16(block, 2) == n;
      assert block[4..4 + n] == es[0].data && block[4 + n..] == rest;
      ExtensionsRoundTrip(es[1..]);
    }
  }

  lemma Skip(s: seq<Byte>, p: nat, x: seq<Byte>, rest: seq<Byte>)
    requires p <= |s| && s[p..] == x + rest
    ensures p + |x| <= |s| && s[p + |x|..] == rest
    ensures forall k | 0 <= k < |x| :: s[p + k] == x[k]
  {
  }

  lemma TailRoundTrip(body: seq<Byte>, p: nat, ext: seq<Byte>)
    requires |ext| < 65536 && p <= |body| && body[p..] == Two(|ext|) + ext
    ensures p + 2 + |ext| == |body| && Be16(body, p) == |ext| && body[p + 2..p + 2 + |ext|] == ext
  {
  }

  lemma ServerBodyRoundTrip(h: Hello)
    requires Fits(h) && h.ServerHello?
    ensures ServerBlock(EncodeBody(h)) == Some(EncodeExtensions(h.extensions))
  {
    var ext := EncodeExtensions(h.extensions);
    var body := EncodeBody(h);
    var s3 := Two(|ext|) + ext;
    var s2 := h.choice + s3;
    var s1 := h.sessionId + s2;
    assert body[0..] == body;
    Skip(body, 0, h.head, [|h.sessionId|] + s1);
    Skip(body, 34, [|h.sessionId|], s1);
    assert body[34] == |h.sessionId|;
    Skip(body, 35, h.sessionId, s2);
    Skip(body, 35 + |h.sessionId|, h.choice, s3);
    TailRoundTrip(body, 38 + |h.sessionId|, ext);
  }

  lemma ClientBlockFrom(body: seq<Byte>, sid: nat, suites: nat, compression: nat, n: nat)
    requires 38 + sid + suites + compression + 2 + n <= |body|
    requires body[34] == sid && Be16(body, 35 + sid) == suites && body[37 + sid + suites] == compression
    requires Be16(body, 38 + sid + suites + compression) == n
    ensures ClientBlock(body) == Some(body[40 + sid + suites + compression..40 + sid + suites + compression + n])
  {
  }

  /** The front of a ClientHello body, up to and including the cipher suites. */
  lemma ClientFront(h: Hello)
    requires Fits(h) && h.ClientHello?
    ensures var body := EncodeBody(h);
            var p := 35 + |h.sessionId|;
            var ext := EncodeExtensions(h.extensions);
            && p + 2 + |h.suites| <= |body| && body[34] == |h.sessionId| && Be16(body, p) == |h.suites|
            && body[p + 2 + |h.suites|..] == [|h.compression|] + (h.compression + (Two(|ext|) + ext))
  {
  }

  lemma ClientRest(body: seq<Byte>, q: nat, compression: seq<Byte>, ext: seq<Byte>)
    requires q <= |body| && |compression| < 256 && |ext| < 65536
    requires body[q..] == [|compression|] + (compression + (Two(|ext|) + ext))
    ensures |body| == q + 3 + |compression| + |ext| && body[q] == |compression|
    ensures Be16(body, q + 1 + |compression|) == |ext|
            && body[q + 3 + |compression|..q + 3 + |compression| + |ext|] == ext
  {
  }

  lemma ClientShape(body: seq<Byte>, sid: nat, suites: nat, compression: seq<Byte>, ext: seq<Byte>)
    requires 37 + sid + suites <= |body| && |compression| < 256 && |ext| < 65536
    requires body[34] == sid && Be16(body, 35 + sid) == suites
    requires body[37 + sid + suites..] == [|compression|] + (compression + (Two(|ext|) + ext))
    ensures ClientBlock(body) == Some(ext)
  {
    ClientRest(body, 37 + sid + suites, compression, ext);
    ClientBlockFrom(body, sid, suites, |compression|, |ext|);
  }

  lemma ClientBodyRoundTrip(h: Hello)
    requires Fits(h) && h.ClientHello?
    ensures ClientBlock(EncodeBody(h)) == Some(EncodeExtensions(h.extensions))
  {
    ClientFront(h);
    ClientShape(EncodeBody(h), |h.sessionId|, |h.suites|, h.compression, EncodeExtensions(h.extensions));
  }

  lemma BodyRoundTrip(h: Hello)
    requires Fits(h)
    ensures Block(KindOf(h), EncodeBody(h)) == Some(EncodeExtensions(h.extensions))
  {
    if h.ClientHello? {
      ClientBodyRoundTrip(h);
    } else {
      ServerBodyRoundTrip(h);
    }
  }

  /** The hello's key_share extensions are found again. */
  lemma SharesRoundTrip(h: Hello)
    requires Fits(h)
    ensures SharesIn(KindOf(h), Some(EncodeBody(h))) == KeyShares(h.extensions)
  {
    BodyRoundTrip(h);
    ExtensionsRoundTrip(h.extensions);
  }

  /** The encoded stream's first hello of a kind, and what each finder makes of it. */
  lemma FindersOnEncoding(fs: seq<Fragment>, versions: seq<Version>, h: Hello)
    requires |versions| == |fs| && (forall f | f in fs :: FragmentFits(f)) && Fits(h)
    requires First(AllHandshakes(fs), KindOf(h)) == Some(EncodeBody(h))
    ensures var data, kind, xs := EncodeRecords(ToRecords(fs), versions), KindOf(h), KeyShares(h.extensions);
            && LinuxFind(data, kind) == LinuxPick(kind, xs)
            && MacFind(data, kind) == FirstLong(xs, 0)
            && (|data| <= TLS_CAP && xs != [] ==> WindowsFind(data, kind) == MacFind(data, kind))
  {
    var data, kind := EncodeRecords(ToRecords(fs), versions), KindOf(h);
    RecordsRoundTrip(ToRecords(fs), versions);
    HandshakeRoundTrip(fs);
    MessagesRoundTrip(AllHandshakes(fs));
    RecordsAreWhole(fs, kind);
    PerRecordIsCoalesce(ToRecords(fs), kind);
    SharesRoundTrip(h);
    FindersOnShares(data, kind);
    if |data| <= TLS_CAP {
      MacAndWindowsAgree(data, kind);
    }
  }

  /** The finders invert the encoder. On any complete stream of records whose handshake records hold
      whole messages and whose first hello of the wanted type has exactly one, well-formed
      key_share, all three finders return exactly that extension's data, whatever precedes or
      follows the hello; the Windows finder on up to 262144 bytes. */
  lemma FindersInvertEncoder(fs: seq<Fragment>, versions: seq<Version>, h: Hello, share: seq<Byte>)
    requires |versions| == |fs| && (forall f | f in fs :: FragmentFits(f)) && Fits(h)
    requires First(AllHandshakes(fs), KindOf(h)) == Some(EncodeBody(h))
    requires KeyShares(h.extensions) == [share] && ShareOk(KindOf(h), share)
    ensures var data := EncodeRecords(ToRecords(fs), versions);
            && LinuxFind(data, KindOf(h)) == Some(share)
            && MacFind(data, KindOf(h)) == Some(share)
            && (|data| <= TLS_CAP ==> WindowsFind(data, KindOf(h)) == Some(share))
  {
    FindersOnEncoding(fs, versions, h);
  }

  // ----- where the finders part -----

  /** With a key_share too short for the Linux finder in front of a well-formed one, the finders
      part: the hello is not one RFC 8446 allows, and agreement fails on every such stream. */
  lemma TwoKeySharesDisagree(fs: seq<Fragment>, versions: seq<Version>, h: Hello, short: seq<Byte>, good: seq<Byte>)
    requires |versions| == |fs| && (forall f | f in fs :: FragmentFits(f)) && Fits(h)
    requires First(AllHandshakes(fs), KindOf(h)) == Some(EncodeBody(h))
    requires KeyShares(h.extensions) == [short, good]
    requires |short| < MinShare(KindOf(h)) && ShareOk(KindOf(h), good)
    ensures var data := EncodeRecords(ToRecords(fs), versions);
            LinuxFind(data, KindOf(h)) == Some(good) && MacFind(data, KindOf(h)) == Some(short) && good != short
  {
    FindersOnEncoding(fs, versions, h);
    PickOfTwo(KindOf(h), short, good);
  }

  lemma PickOfTwo(kind: Byte, short: seq<Byte>, good: seq<Byte>)
    requires |short| < MinShare(kind) && ShareOk(kind, good)
    ensures LinuxPick(kind, [short, good]) == Some(good) && FirstLong([short, good], 0) == Some(short) && good != short
  {
    var xs := [short, good];
    assert xs[1..] == [good];
    assert FirstLong([good], MinShare(kind)) == Some(good);
    assert FirstLong(xs, MinShare(kind)) == FirstLong(xs[1..], MinShare(kind));
  }

  /** A hello whose only key_share is shorter than the Linux finder looks at: it finds nothing, the
      macOS and Windows finders that share. RFC 8446, section 4.2.8, allows two such hellos. */
  lemma ShortShareDisagrees(fs: seq<Fragment>, versions: seq<Version>, h: Hello, short: seq<Byte>)
    requires |versions| == |fs| && (forall f | f in fs :: FragmentFits(f)) && Fits(h)
    requires First(AllHandshakes(fs), KindOf(h)) == Some(EncodeBody(h))
    requires KeyShares(h.extensions) == [short] && |short| < MinShare(KindOf(h))
    ensures var data, kind := EncodeRecords(ToRecords(fs), versions), KindOf(h);
            && LinuxFind(data, kind) == None && MacFind(data, kind) == Some(short)
            && (|data| <= TLS_CAP ==> WindowsFind(data, kind) == Some(short))
  {
    FindersOnEncoding(fs, versions, h);
    PickOfOne(KindOf(h), short);
  }

  lemma PickOfOne(kind: Byte, short: seq<Byte>)
    requires |short| < MinShare(kind)
    ensures LinuxPick(kind, [short]) == None && FirstLong([short], 0) == Some(short)
  {
    var xs := [short];
    assert xs[1..] == [];
    assert FirstLong(xs, MinShare(kind)) == FirstLong(xs[1..], MinShare(kind));
  }

  /** A ClientHello with an empty list of client shares, which asks the server to choose a group. */
  lemma EmptyClientShares(fs: seq<Fragment>, versions: seq<Version>, h: Hello)
    requires |versions| == |fs| && (forall f | f in fs :: FragmentFits(f)) && Fits(h) && h.ClientHello?
    requires First(AllHandshakes(fs), CLIENT_HELLO) == Some(EncodeBody(h)) && KeyShares(h.extensions) == [Two(0)]
    ensures var data := EncodeRecords(ToRecords(fs), versions);
            LinuxFind(data, CLIENT_HELLO) == None && MacFind(data, CLIENT_HELLO) == Some(Two(0))
  {
    ShortShareDisagrees(fs, versions, h, Two(0));
  }

  /** The bytes are a stream of records that hold whole handshake messages, the first hello of its kind
      among them being h. */
  predicate Carries(data: seq<Byte>, fs: seq<Fragment>, versions: seq<Version>, h: Hello) {
    && |versions| == |fs| && (forall f | f in fs :: FragmentFits(f)) && Fits(h)
    && First(AllHandshakes(fs), KindOf(h)) == Some(EncodeBody(h))
    && data == EncodeRecords(ToRecords(fs), versions)
  }

  /** A connection with a HelloRetryRequest, a ServerHello message whose key_share is only the group the
      server selects. The Linux finder, which is given each packet by itself, finds nothing in the
      retry and the share in the ServerHello that comes later; the macOS and Windows finders, which
      are given all bytes so far, stay with the group of the retry. */
  lemma RetryDisagrees(a: seq<Byte>, retry: seq<Fragment>, versions: seq<Version>, hrr: Hello, group: nat,
                       b: seq<Byte>, later: seq<Fragment>, more: seq<Version>, hello: Hello, share: seq<Byte>)
    requires Carries(a, retry, versions, hrr) && hrr.ServerHello? && group < 65536
    requires KeyShares(hrr.extensions) == [Two(group)]
    requires Carries(b, later, more, hello) && hello.ServerHello?
    requires KeyShares(hello.extensions) == [share] && ServerShareOk(share)
    ensures LinuxFind(a, SERVER_HELLO) == None && LinuxFind(b, SERVER_HELLO) == Some(share)
    ensures MacFind(a + b, SERVER_HELLO) == Some(Two(group)) && share != Two(group)
    ensures |a| <= TLS_CAP ==> WindowsFind(a + b, SERVER_HELLO) == Some(Two(group))
  {
    hide EncodeRecords, EncodeBody, AllHandshakes, KeyShares, Records, LinuxFind, MacFind, WindowsFind;
    ShortShareDisagrees(retry, versions, hrr, Two(group));
    FindersInvertEncoder(later, more, hello, share);
    MacStable(a, b, SERVER_HELLO);
    if |a| <= TLS_CAP {
      WindowsStable(a, b, SERVER_HELLO);
    }
  }

  /** Handshake type certificate: any kind of message that is not a hello would do. */
  const CERTIFICATE: Byte := 11

  /** Two records: the header of a message that is not a hello, and then its body, which looks like
      the hello `inner`, followed by the hello `outer`. */
  function SplitStream(inner: Hello, outer: Hello): seq<Record>
    requires Fits(inner) && Fits(outer) && MessageFits(AsMessage(inner)) && MessageFits(AsMessage(outer))
    requires |EncodeMessage(AsMessage(inner))| < 16777216
  {
    var x := EncodeMessage(AsMessage(inner));
    [Record(HANDSHAKE, [CERTIFICATE] + Three(|x|)), Record(HANDSHAKE, x + EncodeMessage(AsMessage(outer)))]
  }

  function AsMessage(h: Hello): Message
    requires Fits(h)
  {
    Message(KindOf(h), EncodeBody(h))
  }

  /** A message split over two records makes the Linux finder read from the middle of it: it finds the
      hello inside, the macOS finder the real one after it. Both succeed, on well-formed shares. */
  lemma SplitMessageDisagrees(inner: Hello, outer: Hello, versions: seq<Version>, a: seq<Byte>, b: seq<Byte>)
    requires |versions| == 2
    requires Fits(inner) && Fits(outer) && KindOf(inner) == KindOf(outer)
    requires MessageFits(AsMessage(inner)) && MessageFits(AsMessage(outer))
    requires |EncodeMessage(AsMessage(inner))| + |EncodeMessage(AsMessage(outer))| < 65536
    requires KeyShares(inner.extensions) == [a] && KeyShares(outer.extensions) == [b]
    requires ShareOk(KindOf(inner), a) && ShareOk(KindOf(outer), b) && a != b
    ensures var data, kind := EncodeRecords(SplitStream(inner, outer), versions), KindOf(outer);
            && !WholeUntil(Records(data), kind)
            && LinuxFind(data, kind) == Some(a) && MacFind(data, kind) == Some(b)
  {
    hide SplitStream, EncodeRecords, EncodeBody, EncodeMessage, KeyShares, Records, LinuxFind, MacFind, Messages;
    var rs, kind := SplitStream(inner, outer), KindOf(outer);
    SplitStreamHellos(inner, outer);
    RecordsRoundTrip(rs, versions);
    SharesRoundTrip(inner);
    SharesRoundTrip(outer);
    FindersOnShares(EncodeRecords(rs, versions), kind);
    PickIsFirstExactly(kind, [a]);
  }

  /** Record by record the stream shows the inner hello, read as a whole the outer one. */
  lemma SplitStreamHellos(inner: Hello, outer: Hello)
    requires Fits(inner) && Fits(outer) && KindOf(inner) == KindOf(outer)
    requires MessageFits(AsMessage(inner)) && MessageFits(AsMessage(outer))
    requires |EncodeMessage(AsMessage(inner))| + |EncodeMessage(AsMessage(outer))| < 65536
    ensures var rs, kind := SplitStream(inner, outer), KindOf(outer);
            && |rs| == 2 && (forall r | r in rs :: |r.payload| < 65536)
            && !WholeUntil(rs, kind)
            && FirstInRecords(rs, kind) == Some(EncodeBody(inner))
            && First(Messages(Handshake(rs)), kind) == Some(EncodeBody(outer))
  {
    hide EncodeBody, Messages, Leftover, Fits;
    var (m, n) := (AsMessage(inner), AsMessage(outer));
    var x := EncodeMessage(m);
    var c := Message(CERTIFICATE, x);
    HeaderAlone(x);
    PairRead(m, n);
    PairRead(c, n);
    TwoRecords([CERTIFICATE] + Three(|x|), x + EncodeMessage(n), KindOf(outer));
    assert [CERTIFICATE] + Three(|x|) + (x + EncodeMessage(n)) == EncodeMessage(c) + EncodeMessage(n);
    FirstOfTwo(m, n, KindOf(outer));
    FirstOfTwo(c, n, KindOf(outer));
  }

  lemma TwoRecords(p: seq<Byte>, q: seq<Byte>, kind: Byte)
    requires First(Messages(p), kind).None? && Leftover(p) != []
    ensures var rs := [Record(HANDSHAKE, p), Record(HANDSHAKE, q)];
            !WholeUntil(rs, kind) && Handshake(rs) == p + q && FirstInRecords(rs, kind) == First(Messages(q), kind)
  {
    hide Messages, Leftover;
    var rs := [Record(HANDSHAKE, p), Record(HANDSHAKE, q)];
    assert rs[1..] == [rs[1]] && rs[1..][1..] == [];
    assert Handshake(rs[1..]) == q + Handshake([]);
    assert FirstInRecords(rs[1..], kind) == First(Messages(q), kind);
  }

  lemma FirstOfTwo(m: Message, n: Message, kind: Byte)
    requires n.kind == kind
    ensures First([m, n], kind) == Some(if m.kind == kind then m.body else n.body)
  {
    assert [m, n][1..] == [n];
  }

  lemma HeaderAlone(x: seq<Byte>)
    requires 0 < |x| < 16777216
    ensures Messages([CERTIFICATE] + Three(|x|)) == [] && Leftover([CERTIFICATE] + Three(|x|)) != []
  {
    var h := [CERTIFICATE] + Three(|x|);
    assert h[1] == Three(|x|)[0] && h[2] == Three(|x|)[1] && h[3] == Three(|x|)[2];
  }

  lemma PairRead(m: Message, n: Message)
    requires MessageFits(m) && MessageFits(n)
    ensures Messages(EncodeMessage(m) + EncodeMessage(n)) == [m, n]
  {
    assert [m, n][1..] == [n] && [n][1..] == [];
    assert EncodeMessages([n]) == EncodeMessage(n) + [] == EncodeMessage(n);
    assert EncodeMessages([m, n]) == EncodeMessage(m) + EncodeMessages([m, n][1..]);
    MessagesRoundTrip([m, n]);
  }

  function ShareExtensions(shares: seq<seq<Byte>>): (es: seq<Extension>)
    requires forall x | x in shares :: |x| < 100
    ensures ExtensionsFit(es) && KeyShares(es) == shares && |EncodeExtensions(es)| <= 104 * |shares|
  {
    if shares == [] then []
    else
      var rest := ShareExtensions(shares[1..]);
      var es := [Extension(KEY_SHARE, shares[0])] + rest;
      assert es[1..] == rest && [shares[0]] + shares[1..] == shares;
      es
  }

  /** A small ClientHello with the given key_share extensions: no session id, no cipher suite, no
      compression method. */
  function SmallHello(shares: seq<seq<Byte>>): (h: Hello)
    requires |shares| <= 2 && forall x | x in shares :: |x| < 100
    ensures Fits(h) && h.ClientHello? && KeyShares(h.extensions) == shares && |EncodeBody(h)| < 300
  {
    ClientHello(Zeros(34), [], [], [], ShareExtensions(shares))
  }

  function Zeros(n: nat): (s: seq<Byte>)
    ensures |s| == n
  {
    if n == 0 then [] else [0] + Zeros(n - 1)
  }

  /** A stream of one record that holds one hello. */
  function Alone(h: Hello): (fs: seq<Fragment>)
    requires Fits(h) && |EncodeBody(h)| < 300
    ensures |fs| == 1 && forall f | f in fs :: FragmentFits(f)
    ensures First(AllHandshakes(fs), KindOf(h)) == Some(EncodeBody(h))
  {
    var ms := [AsMessage(h)];
    assert EncodeMessages(ms) == EncodeMessage(ms[0]) + EncodeMessages(ms[1..]);
    assert FragmentFits(Handshakes(ms));
    assert [Handshakes(ms)][1..] == [] && ms + [] == ms;
    [Handshakes(ms)]
  }

  const TLS_1_0 := Version(3, 1)

  /** Two well-formed client key_share extensions: one entry each, of groups 29 and 23. */
  const SHARE_A: seq<Byte> := [0, 5, 0, 29, 0, 1, 9]
  const SHARE_B: seq<Byte> := [0, 5, 0, 23, 0, 1, 7]

  /** One record with one hello on which the finders part: an empty key_share before a good one. */
  lemma TwoKeySharesExample()
    ensures var data := EncodeRecords(ToRecords(Alone(SmallHello([[], SHARE_A]))), [TLS_1_0]);
            LinuxFind(data, CLIENT_HELLO) == Some(SHARE_A) && MacFind(data, CLIENT_HELLO) == Some([])
  {
    var h := SmallHello([[], SHARE_A]);
    TwoKeySharesDisagree(Alone(h), [TLS_1_0], h, [], SHARE_A);
  }

  /** Two records, each hello with one good key_share, on which the finders part. */
  lemma SplitMessageExample()
    ensures var data := EncodeRecords(SplitStream(SmallHello([SHARE_A]), SmallHello([SHARE_B])), [TLS_1_0, TLS_1_0]);
            LinuxFind(data, CLIENT_HELLO) == Some(SHARE_A) && MacFind(data, CLIENT_HELLO) == Some(SHARE_B)
  {
    hide SplitStream, EncodeRecords, EncodeBody, SmallHello, KeyShares, Records, LinuxFind, MacFind;
    assert SHARE_A[3] != SHARE_B[3];
    SplitMessageDisagrees(SmallHello([SHARE_A]), SmallHello([SHARE_B]), [TLS_1_0, TLS_1_0], SHARE_A, SHARE_B);
  }

  /** The server agent's key, recomputed from the group and public key, is the digest of the very
      bytes the client agents digest. */
  lemma ServerKeyMatchesClients(digest: Digest, fs: seq<Fragment>, versions: seq<Version>, h: Hello, share: seq<Byte>)
    requires |versions| == |fs| && (forall f | f in fs :: FragmentFits(f)) && Fits(h) && h.ServerHello?
    requires First(AllHandshakes(fs), SERVER_HELLO) == Some(EncodeBody(h))
    requires KeyShares(h.extensions) == [share] && ServerShareOk(share)
    ensures var data := EncodeRecords(ToRecords(fs), versions);
            && |share| >= 4
            && DigestOf(digest, SERVER_HELLO, MacFind(data, SERVER_HELLO))
               == Some(digest(ServerLabel, Two(Be16(share, 0)) + Two(|share[4..]|) + share[4..]))
            && (|data| <= TLS_CAP ==> WindowsFind(data, SERVER_HELLO) == MacFind(data, SERVER_HELLO))
  {
    FindersInvertEncoder(fs, versions, h, share);
    RecomputedKeyIsExtracted(share);
  }
}
