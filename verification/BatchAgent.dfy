/** The two batch programs in their own form: the globals SEEN, ASSIGNED and BATCHES updated in place,
    with every raised exception as the early exit it is. */
module BatchAgent {
  import opened Basics
  import opened Batch

  class ServerProcess {
    const env: Env
    var alive: bool
    var seen: map<int, Seen>
    var assignedIds: set<Id>
    var batches: seq<Entry>
    ghost var accepted: seq<Manifest>

    ghost function Abs(): Server reads this { Server(alive, seen, assignedIds, batches, accepted) }

    constructor (env: Env)
      ensures this.env == env && Abs() == Server(true, map[], {}, [], [])
    {
      this.env, alive, seen, assignedIds, batches, accepted := env, true, map[], {}, [], [];
    }

    /** The assertions on a parsed request. */
    method CheckRequest(q: Request) returns (ok: bool)
      ensures ok <==> WellFormed(env, q)
    {
      SortedExactly(q.ids);
      if q.epoch != env.epoch || q.ids != Sorted(Elements(q.ids)) || |q.ids| != q.count
         || !(0 < |q.ids| <= MAX_IDS) || q.number < 1 || !env.isHex32(q.challenge)
      {
        return false;
      }
      for i := 0 to |q.ids|
        invariant forall k | 0 <= k < i :: env.isIdHex32(q.ids[k])
      {
        if !env.isIdHex32(q.ids[i]) {
          return false;
        }
      }
      return true;
    }

    method Failed(o: Oracle) returns (reply: Reply)
      modifies `batches, `alive
      ensures (Abs(), reply) == Fail(old(Abs()), o)
    {
      batches := batches + [Error];
      alive := o.errorSent;
      reply := Refused;
    }

    /** From the generated report to the end of the try block. */
    method Record(m: Manifest, o: Oracle) returns (reply: Reply)
      modifies this
      ensures (Abs(), reply) == Accept(env, old(Abs()), m, o)
    {
      var q := m.request;
      var response := Granted(m.digest, m.report, |q.ids|, q.number, env.mutual);
      seen := seen[q.number := Seen(m.digest, response)];
      assignedIds := assignedIds + Elements(q.ids);
      accepted := accepted + [m];
      if o.manifestWritten {
        batches := batches + [Batch(q.number, |q.ids|, m.digest)];
        if o.replySent {
          return response;
        }
      }
      reply := Failed(o);
    }

    /** The checks that precede a new assignment, in both variants. */
    method MayAssign(q: Request, o: Oracle) returns (ok: bool)
      ensures ok <==> Assignable(env, Abs(), q, o)
    {
      ok := CheckRequest(q);
      ok := ok && q.number !in seen && assignedIds !! Elements(q.ids) && Elements(q.ids) <= o.observed;
    }

    /** One connection of the one-way server. */
    method ServeOneWay(request: Option<Request>, o: Oracle) returns (reply: Reply)
      modifies this
      ensures (Abs(), reply) == Serve(env, old(Abs()), request, o)
    {
      if request.Some? {
        var q := request.value;
        var wellFormed := CheckRequest(q);
        if wellFormed && q.number in seen {
          if seen[q.number].digest == env.binding(q) && o.replySent {
            return seen[q.number].response;
          }
        } else if wellFormed {
          var ok := MayAssign(q, o);
          if ok && o.report.Some? {
            reply := Record(Manifest(q, "", Report(0), env.binding(q), o.report.value), o);
            return;
          }
        }
      }
      reply := Failed(o);
    }

    /** The mutual server, first half: check the request and challenge the client. */
    method GreetClient(request: Option<Request>, o: Oracle) returns (reply: Reply)
      modifies `batches, `alive
      ensures (Abs(), reply) == Greet(env, old(Abs()), request, o)
    {
      if request.Some? {
        var ok := MayAssign(request.value, o);
        if ok && o.replySent {
          return Challenge(request.value.number, o.nonce);
        }
      }
      reply := Failed(o);
    }

    /** The mutual server, second half: verify the client, then attest and assign. */
    method ConcludeClient(q: Request, nonce: string, got: Option<(int, Report)>, o: Oracle) returns (reply: Reply)
      modifies this
      ensures (Abs(), reply) == Conclude(env, old(Abs()), q, nonce, got, o)
    {
      if got.Some? && got.value.0 == q.number {
        var clientReport := got.value.1;
        if env.reportSize(clientReport) == CLIENT_REPORT_SIZE
           && env.verify(env.clientBinding(q, nonce), clientReport) && o.report.Some?
        {
          var digest := env.serverBinding(q, nonce, clientReport);
          reply := Record(Manifest(q, nonce, clientReport, digest, o.report.value), o);
          return;
        }
      }
      reply := Failed(o);
    }
  }

  lemma NothingLeft(a: set<Id>, b: set<Id>)
    ensures a - b == {} <==> a <= b
  {
    assert a == (a - b) + (a * b);
  }

  class ClientProcess {
    const env: Env
    var phase: Phase
    var number: int
    var assignedIds: set<Id>
    var verified: seq<Manifest>

    ghost function Abs(): Client reads this { Client(phase, number, assignedIds, verified) }

    constructor (env: Env)
      ensures this.env == env && Abs() == Client(Idle, 0, {}, [])
    {
      this.env, phase, number, assignedIds, verified := env, Idle, 0, {}, [];
    }

    /** The start of a round: a request for everything observed and unassigned, or nothing. */
    method StartRound(rows: set<Id>, challenge: string) returns (q: Option<Request>)
      modifies `phase, `number
      ensures (Abs(), q) == Ask(env, old(Abs()), rows, challenge)
    {
      NothingLeft(rows, assignedIds);
      if rows - assignedIds == {} {
        return None;
      }
      var ids := Sorted(rows - assignedIds);
      number := number + 1;
      q := Some(Request(env.epoch, number, challenge, ids, |ids|));
      phase := Waiting(q.value);
    }

    method RaiseError()
      modifies `phase
      ensures Abs() == Raise(old(Abs()))
    {
      match phase
      case Waiting(q) => phase := Raised(Some(q));
      case Attesting(q, _, _) => phase := Raised(Some(q));
      case Raised(_) =>
      case _ => phase := Raised(None);
    }

    /** The mutual client's turn after the server's challenge. */
    method AnswerChallenge(r: Reply, report: Option<Report>) returns (message: Option<(int, Report)>)
      requires phase.Waiting?
      modifies `phase
      ensures (Abs(), message) == Attest(env, old(Abs()), r, report)
    {
      var q := phase.q;
      if r.Challenge? && r.number == q.number && env.isHex32(r.nonce) && report.Some? {
        phase := Attesting(q, r.nonce, report.value);
        return Some((q.number, report.value));
      }
      RaiseError();
      return None;
    }

    /** The end of a round: check and verify the reply, write the files, and assign. */
    method FinishRound(r: Reply, filesWritten: bool)
      requires if env.mutual then phase.Attesting? else phase.Waiting?
      modifies this
      ensures Abs() == Settle(env, old(Abs()), r, filesWritten)
    {
      var q := phase.q;
      var digest := if env.mutual then env.serverBinding(q, phase.nonce, phase.clientReport) else env.binding(q);
      if r.Granted? && r.digest == digest && r.number == q.number && r.count == |q.ids|
         && (!env.mutual || r.clientVerified) && env.verify(digest, r.report) && filesWritten
      {
        var nonce, clientReport := "", Report(0);
        if env.mutual {
          nonce, clientReport := phase.nonce, phase.clientReport;
        }
        verified := verified + [Manifest(q, nonce, clientReport, digest, r.report)];
        assignedIds := assignedIds + Elements(q.ids);
        phase := Idle;
      } else {
        RaiseError();
      }
    }

    /** The end of an iteration after a stop request. */
    method MayStop(rows: set<Id>, late: bool)
      modifies `phase
      ensures Abs() == StopCheck(env, old(Abs()), rows, late)
    {
      NothingLeft(rows, assignedIds);
      if !env.mutual && env.expected > 0 && |rows| < env.expected {
        if late {
          RaiseError();
        }
      } else if rows - assignedIds == {} {
        phase := Exited(rows);
      }
    }
  }
}
