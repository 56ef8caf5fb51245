/** Vocabulary shared by every component: optional values, 512-bit keys, attestation
    reports, flow keys, and the pigeonhole fact behind the capacity arguments. */
module Basics {

  datatype Option<+T> = None | Some(value: T)

  /** A SHA-512 value. Keys are only ever copied and compared. */
  datatype Key = Key(digest: nat)

  /** An attestation report, opaque to the agents. */
  datatype Report = Report(content: nat)

  /** struct flow_key: its four fields are the whole route, so same_flow and same_route
      both mean equality. */
  datatype Flow = Flow(clientIp: nat, serverIp: nat, clientPort: nat, serverPort: nat)

  ghost predicate Distinct<T>(s: seq<T>) {
    forall i, j | 0 <= i < j < |s| :: s[i] != s[j]
  }

  ghost predicate AllBelow(s: seq<nat>, bound: nat) {
    forall i | 0 <= i < |s| :: s[i] < bound
  }

  ghost function IndexOf<T>(s: seq<T>, x: T): (i: nat)
    requires x in s
    ensures i < |s| && s[i] == x
  {
    if s[0] == x then 0 else 1 + IndexOf(s[1..], x)
  }

  lemma SliceOfSlice<T>(s: seq<T>, i: nat, end: nat, a: nat, b: nat)
    requires i <= end <= |s| && a <= b <= end - i
    ensures s[i..end][a..b] == s[i + a..i + b]
  {
    var t := s[i..end];
    forall k | 0 <= k < b - a ensures t[a..b][k] == s[i + a..i + b][k] {
      assert t[a + k] == s[i + a + k];
    }
  }

  /** Pigeonhole: distinct slot numbers below a bound are at most that many. */
  lemma {:induction false} Pigeonhole(s: seq<nat>, bound: nat)
    requires Distinct(s) && AllBelow(s, bound)
    ensures |s| <= bound
  {
    if bound == 0 {
    } else if bound - 1 in s {
      var i := IndexOf(s, bound - 1);
      var rest := s[..i] + s[i + 1..];
      forall a, b | 0 <= a < b < |rest| ensures rest[a] != rest[b] {
        var a' := if a < i then a else a + 1;
        var b' := if b < i then b else b + 1;
        assert rest[a] == s[a'] && rest[b] == s[b'];
      }
      forall a | 0 <= a < |rest| ensures rest[a] < bound - 1 {
        var a' := if a < i then a else a + 1;
        assert rest[a] == s[a'] && s[a'] < bound && (if a' < i then s[a'] != s[i] else s[i] != s[a']);
      }
      Pigeonhole(rest, bound - 1);
    } else {
      assert AllBelow(s, bound - 1) by {
        forall i | 0 <= i < |s| ensures s[i] < bound - 1 {
          assert s[i] in s && s[i] < bound;
        }
      }
      Pigeonhole(s, bound - 1);
    }
  }
}
