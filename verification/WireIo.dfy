/** The stream writers of wire_io.c under any pattern of partial sends, interrupts and failures. The
    kernel's answers are a script; past its end every call fails. */
module WireIo {

  datatype SendResult = Sent(n: nat) | Interrupted | Failed

  /** Whether everything was sent, how many bytes were, and the script position afterwards. */
  datatype Outcome = Outcome(ok: bool, sent: nat, pos: nat)

  function Min(a: nat, b: nat): nat { if a <= b then a else b }

  /** The kernel never takes more than it is given. */
  function Reply(script: seq<SendResult>, pos: nat, length: nat): SendResult {
    if pos >= |script| then Failed
    else if script[pos].Sent? then Sent(Min(script[pos].n, length))
    else script[pos]
  }

  /** tcpra_write_pair on the concatenation of its two buffers. */
  function PairOutcome(script: seq<SendResult>, pos: nat, length: nat): Outcome
    decreases |script| - pos
  {
    if pos >= |script| then Outcome(false, 0, pos)
    else
      match Reply(script, pos, length)
      case Interrupted => PairOutcome(script, pos + 1, length)
      case Failed => Outcome(false, 0, pos + 1)
      case Sent(n) =>
        if n == 0 then Outcome(false, 0, pos + 1)
        else if n == length then Outcome(true, n, pos + 1)
        else
          var rest := PairOutcome(script, pos + 1, length - n);
          Outcome(rest.ok, n + rest.sent, rest.pos)
  }

  function Interrupts(script: seq<SendResult>, lo: nat, hi: nat): nat
    requires lo <= hi <= |script|
    decreases hi - lo
  {
    if lo == hi then 0 else (if script[lo].Interrupted? then 1 else 0) + Interrupts(script, lo + 1, hi)
  }

  /** Success means every byte was sent, and only a non-empty pair can succeed; otherwise a proper
      prefix was; and every call that was not interrupted, but the last, sent at least one byte. */
  lemma {:induction false} PairSendsAllOrPrefix(script: seq<SendResult>, pos: nat, length: nat)
    requires pos <= |script|
    ensures var r := PairOutcome(script, pos, length);
            && (if r.ok then r.sent == length && length > 0 else r.sent < length || length == 0 == r.sent)
            && pos <= r.pos <= |script|
            && r.pos - pos <= Interrupts(script, pos, r.pos) + r.sent + 1
    decreases |script| - pos
  {
    if pos < |script| {
      match script[pos]
      case Interrupted => PairSendsAllOrPrefix(script, pos + 1, length);
      case Failed => assert Interrupts(script, pos + 1, pos + 1) == 0;
      case Sent(n) =>
        assert Interrupts(script, pos + 1, pos + 1) == 0;
        if 0 < Min(n, length) < length {
          PairSendsAllOrPrefix(script, pos + 1, length - Min(n, length));
        }
    }
  }

  /** A write that fails has a cause: the last call failed or took nothing, or the kernel answers no more.
      Every call before the last took something or was interrupted, and an interrupt is never the cause. */
  lemma {:induction false} FailureHasCause(script: seq<SendResult>, pos: nat, length: nat)
    requires pos <= |script| && length > 0
    ensures var r := PairOutcome(script, pos, length);
            && pos <= r.pos <= |script|
            && (forall k | pos <= k < r.pos - 1 ::
                  script[k].Interrupted? || (script[k].Sent? && script[k].n > 0))
            && (r.ok ==> pos < r.pos && script[r.pos - 1].Sent?)
            && (!r.ok && r.pos < |script| ==>
                  pos < r.pos && (script[r.pos - 1].Failed? || script[r.pos - 1] == SendResult.Sent(0)))
    decreases |script| - pos
  {
    if pos < |script| {
      match script[pos]
      case Interrupted => FailureHasCause(script, pos + 1, length);
      case Failed =>
      case Sent(n) =>
        if 0 < n < length {
          FailureHasCause(script, pos + 1, length - n);
        }
    }
  }

  /** An empty pair is never reported as written: the kernel sends no byte of it. */
  lemma EmptyPairFails(script: seq<SendResult>, pos: nat)
    requires pos <= |script|
    ensures !PairOutcome(script, pos, 0).ok && PairOutcome(script, pos, 0).sent == 0
  {
    PairSendsAllOrPrefix(script, pos, 0);
  }

  /** tcpra_write_all: nothing to send is a success without any call. */
  function AllOutcome(script: seq<SendResult>, pos: nat, length: nat): Outcome {
    if length == 0 then Outcome(true, 0, pos) else PairOutcome(script, pos, length)
  }

  /** The two writers differ exactly on empty input, whatever the kernel does. */
  lemma WritersDifferOnEmpty(script: seq<SendResult>, pos: nat, length: nat)
    requires pos <= |script|
    ensures AllOutcome(script, pos, length).ok == PairOutcome(script, pos, length).ok <==> length > 0
    ensures AllOutcome(script, pos, length).sent == PairOutcome(script, pos, length).sent
    ensures AllOutcome(script, pos, length).ok <==> AllOutcome(script, pos, length).sent == length
  {
    PairSendsAllOrPrefix(script, pos, length);
  }

  class Socket<B> {
    const script: seq<SendResult>
    var pos: nat
    var wire: seq<B>

    constructor (script: seq<SendResult>)
      ensures this.script == script && pos == 0 && wire == []
    {
      this.script, pos, wire := script, 0, [];
    }

    /** sendmsg with MSG_NOSIGNAL over the two buffers from `index` on. */
    method SendMsg(vectors: seq<seq<B>>, index: nat) returns (r: SendResult)
      requires |vectors| == 2 && index < 2 && pos <= |script|
      modifies `pos, `wire
      ensures pos == if old(pos) == |script| then old(pos) else old(pos) + 1
      ensures r == Reply(script, old(pos), |Rest(vectors, index)|)
      ensures wire == if r.Sent? then old(wire) + Rest(vectors, index)[..r.n] else old(wire)
    {
      r := Reply(script, pos, |Rest(vectors, index)|);
      if pos < |script| {
        pos := pos + 1;
      }
      if r.Sent? {
        wire := wire + Rest(vectors, index)[..r.n];
      }
    }

    /** One sendmsg of tcpra_write_pair and the loop that steps over what it took: what is on the
        wire and what remains together stay the same. */
    method SendSome(vectors: seq<seq<B>>, index: nat)
      returns (sent: SendResult, next: nat, left: seq<seq<B>>)
      requires |vectors| == 2 && index < 2 && pos <= |script|
      modifies `pos, `wire
      ensures pos == if old(pos) == |script| then old(pos) else old(pos) + 1
      ensures sent == Reply(script, old(pos), |Rest(vectors, index)|) && |left| == 2 && next <= 2
      ensures wire + Rest(left, next) == old(wire) + Rest(vectors, index)
      ensures |wire| == |old(wire)| + if sent.Sent? then sent.n else 0
      ensures |Rest(left, next)| == |Rest(vectors, index)| - if sent.Sent? then sent.n else 0
      ensures next == 2 <==> sent.Sent? && 0 < sent.n == |Rest(vectors, index)|
    {
      sent := SendMsg(vectors, index);
      next, left := index, vectors;
      if sent.Sent? && sent.n > 0 {
        next, left := Consume(vectors, index, sent.n);
      }
    }

    /** tcpra_write_pair. */
    method WritePair(first: seq<B>, second: seq<B>) returns (ok: bool)
      requires pos <= |script|
      modifies `pos, `wire
      ensures pos <= |script|
      ensures var r := PairOutcome(script, old(pos), |first + second|);
              && ok == r.ok && pos == r.pos && r.sent <= |first + second|
              && wire == old(wire) + (first + second)[..r.sent]
    {
      ghost var start, goal := wire, wire + (first + second);
      ghost var whole := PairOutcome(script, pos, |first + second|);
      PairSendsAllOrPrefix(script, pos, |first + second|);
      var vectors := [first, second];
      var index := 0;
      ghost var done: nat, left: nat := 0, |first + second|;
      while index < 2
        invariant 0 <= index <= 2 && |vectors| == 2 && pos <= |script|
        invariant wire + Rest(vectors, index) == goal
        invariant |wire| == |start| + done && |Rest(vectors, index)| == left
        invariant if index == 2 then whole == Outcome(true, done, pos) else Pending(whole, script, pos, done, left)
        decreases |script| - pos, 2 - index
      {
        PendingNext(whole, script, pos, done, left);
        var sent;
        sent, index, vectors := SendSome(vectors, index);
        if sent.Interrupted? {
          continue;
        }
        if sent.Failed? || sent.n == 0 {
          WrittenPart(start, first + second, wire, Rest(vectors, index));
          return false;
        }
        done, left := done + sent.n, left - sent.n;
      }
      WrittenPart(start, first + second, wire, Rest(vectors, index));
      return true;
    }

    /** send with MSG_NOSIGNAL. */
    method Send(data: seq<B>) returns (r: SendResult)
      requires pos <= |script|
      modifies `pos, `wire
      ensures pos == if old(pos) == |script| then old(pos) else old(pos) + 1
      ensures r == Reply(script, old(pos), |data|)
      ensures wire == if r.Sent? then old(wire) + data[..r.n] else old(wire)
    {
      r := Reply(script, pos, |data|);
      if pos < |script| {
        pos := pos + 1;
      }
      if r.Sent? {
        wire := wire + data[..r.n];
      }
    }

    /** tcpra_write_all. */
    method WriteAll(buffer: seq<B>) returns (ok: bool)
      requires pos <= |script|
      modifies `pos, `wire
      ensures pos <= |script|
      ensures var r := AllOutcome(script, old(pos), |buffer|);
              && ok == r.ok && pos == r.pos && r.sent <= |buffer|
              && wire == old(wire) + buffer[..r.sent]
    {
      ghost var whole := AllOutcome(script, pos, |buffer|);
      ghost var start, goal := wire, wire + buffer;
      PairSendsAllOrPrefix(script, pos, |buffer|);
      var rest := buffer;
      ghost var done: nat := 0;
      while |rest| > 0
        invariant pos <= |script|
        invariant wire + rest == goal && |wire| == |start| + done
        invariant if |rest| == 0 then whole == Outcome(true, done, pos) else Pending(whole, script, pos, done, |rest|)
        decreases |script| - pos, |rest|
      {
        PendingNext(whole, script, pos, done, |rest|);
        var sent := Send(rest);
        if sent.Interrupted? {
          continue;
        }
        if sent.Failed? || sent.n == 0 {
          WrittenPart(start, buffer, wire, rest);
          return false;
        }
        rest, done := rest[sent.n..], done + sent.n;
      }
      WrittenPart(start, buffer, wire, rest);
      return true;
    }
  }

  lemma WrittenPart<B>(start: seq<B>, all: seq<B>, wire: seq<B>, rest: seq<B>)
    requires wire + rest == start + all && |start| <= |wire|
    ensures |wire| - |start| <= |all| && wire == start + all[..|wire| - |start|]
  {
    assert wire == (wire + rest)[..|wire|];
  }

  /** The outcome of the whole call is `done` bytes plus the outcome of sending `left` more. */
  predicate Pending(whole: Outcome, script: seq<SendResult>, pos: nat, done: nat, left: nat) {
    var r := PairOutcome(script, pos, left);
    whole == Outcome(r.ok, done + r.sent, r.pos)
  }

  lemma PendingNext(whole: Outcome, script: seq<SendResult>, pos: nat, done: nat, left: nat)
    requires pos <= |script| && Pending(whole, script, pos, done, left)
    ensures var next := if pos < |script| then pos + 1 else pos;
            match Reply(script, pos, left)
            case Interrupted => pos < |script| && Pending(whole, script, next, done, left)
            case Failed => whole == Outcome(false, done, next)
            case Sent(n) =>
              && pos < |script| && n <= left
              && (n == 0 ==> whole == Outcome(false, done, next))
              && (0 < n < left ==> Pending(whole, script, next, done + n, left - n))
              && (0 < n == left ==> whole == Outcome(true, done + n, next))
  {
  }

  /** The bytes still to be sent. */
  function Rest<B>(vectors: seq<seq<B>>, index: nat): seq<B>
    requires |vectors| == 2 && index <= 2
  {
    if index == 0 then vectors[0] + vectors[1] else if index == 1 then vectors[1] else []
  }

  /** The inner loop of tcpra_write_pair: skip the buffers sent in full, advance in the next. */
  method Consume<B>(vectors: seq<seq<B>>, index: nat, sent: nat) returns (next: nat, left: seq<seq<B>>)
    requires |vectors| == 2 && index < 2 && 0 < sent <= |Rest(vectors, index)|
    ensures |left| == 2 && next <= 2 && Rest(left, next) == Rest(vectors, index)[sent..]
    ensures next == 2 <==> sent == |Rest(vectors, index)|
  {
    next, left := index, vectors;
    var consumed: nat := sent;
    while next < 2 && consumed >= |left[next]|
      invariant index <= next <= 2 && left == vectors && consumed <= |Rest(vectors, next)|
      invariant Rest(vectors, index)[sent..] == Rest(vectors, next)[consumed..]
      invariant next == 2 ==> consumed == 0
      invariant sent < |Rest(vectors, index)| <==> consumed < |Rest(vectors, next)|
      invariant next == index ==> consumed > 0
      decreases 2 - next
    {
      consumed := consumed - |left[next]|;
      next := next + 1;
    }
    if next < 2 && consumed > 0 {
      left := left[next := left[next][consumed..]];
    }
  }

  /** tcpra_read_all of `length` bytes from a stream that still has `available`. */
  function ReadOutcome(script: seq<SendResult>, pos: nat, length: nat, available: nat): Outcome
    decreases |script| - pos
  {
    if length == 0 then Outcome(true, 0, pos)
    else if pos >= |script| then Outcome(false, 0, pos)
    else
      match Reply(script, pos, Min(length, available))
      case Interrupted => ReadOutcome(script, pos + 1, length, available)
      case Failed => Outcome(false, 0, pos + 1)
      case Sent(n) =>
        if n == 0 then Outcome(false, 0, pos + 1)
        else
          var rest := ReadOutcome(script, pos + 1, length - n, available - n);
          Outcome(rest.ok, n + rest.sent, rest.pos)
  }

  /** When all the bytes are to come, the reader ends as the writer does whose calls get the same
      answers; when they are not, it fails. Success takes every byte, failure fewer. */
  lemma {:induction false} ReaderMirrorsWriter(script: seq<SendResult>, pos: nat, length: nat, available: nat)
    requires pos <= |script|
    ensures var r := ReadOutcome(script, pos, length, available);
            && (length <= available ==> r == AllOutcome(script, pos, length))
            && (length > available ==> !r.ok)
            && (r.ok <==> r.sent == length) && r.sent <= Min(length, available) && pos <= r.pos <= |script|
    decreases |script| - pos
  {
    if length > 0 && pos < |script| {
      match Reply(script, pos, Min(length, available))
      case Interrupted => ReaderMirrorsWriter(script, pos + 1, length, available);
      case Failed =>
      case Sent(n) =>
        if n > 0 {
          ReaderMirrorsWriter(script, pos + 1, length - n, available - n);
        }
    }
  }

  /** The receiving end: the bytes still to be delivered, and the kernel's answers. */
  class Receiver<B> {
    const script: seq<SendResult>
    var pos: nat
    var stream: seq<B>

    constructor (script: seq<SendResult>, stream: seq<B>)
      ensures this.script == script && pos == 0 && this.stream == stream
    {
      this.script, this.stream, pos := script, stream, 0;
    }

    /** recv: at most `length` bytes, and none once the stream has ended. */
    method Recv(length: nat) returns (r: SendResult, chunk: seq<B>)
      requires pos <= |script|
      modifies `pos, `stream
      ensures pos == if old(pos) == |script| then old(pos) else old(pos) + 1
      ensures r == Reply(script, old(pos), Min(length, |old(stream)|))
      ensures if r.Sent? then chunk == old(stream)[..r.n] && stream == old(stream)[r.n..]
              else chunk == [] && stream == old(stream)
    {
      r, chunk := Reply(script, pos, Min(length, |stream|)), [];
      if pos < |script| {
        pos := pos + 1;
      }
      if r.Sent? {
        chunk, stream := stream[..r.n], stream[r.n..];
      }
    }

    /** tcpra_read_all: what was taken and what is left are the stream, in order, and how much was
        taken and whether that was enough is what the kernel's answers lead to. */
    method ReadAll(length: nat) returns (ok: bool, buffer: seq<B>)
      requires pos <= |script|
      modifies `pos, `stream
      ensures pos <= |script| && buffer + stream == old(stream)
      ensures ReadOutcome(script, old(pos), length, |old(stream)|) == Outcome(ok, |buffer|, pos)
    {
      ghost var whole := ReadOutcome(script, pos, length, |stream|);
      buffer := [];
      while |buffer| < length
        invariant pos <= |script| && |buffer| <= length && buffer + stream == old(stream)
        invariant var r := ReadOutcome(script, pos, length - |buffer|, |stream|);
                  whole == Outcome(r.ok, |buffer| + r.sent, r.pos)
        decreases |script| - pos, length - |buffer|
      {
        var r, chunk := Recv(length - |buffer|);
        if r.Interrupted? {
          continue;
        }
        if r.Failed? || r.n == 0 {
          return false, buffer;
        }
        buffer := buffer + chunk;
      }
      return true, buffer;
    }
  }
}
