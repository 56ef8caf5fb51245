/** The fixed ring queues of both agents: report jobs on the server, session jobs and decisions on
    the client. */
module JobRing {
  import opened Basics

  class Ring<T> {
    const data: array<T>
    var head: nat
    var tail: nat
    var count: nat

    ghost predicate Valid()
      reads this, data
    {
      && 0 < data.Length && head < data.Length && count <= data.Length
      && tail == if head + count < data.Length then head + count else head + count - data.Length
    }

    /** The queued items, oldest first. */
    ghost function Contents(): (s: seq<T>)
      reads this, data
      requires Valid()
      ensures |s| == count
    {
      if head + count <= data.Length then data[head..head + count]
      else data[head..] + data[..head + count - data.Length]
    }

    constructor (capacity: nat, filler: T)
      requires 0 < capacity
      ensures Valid() && fresh(data) && data.Length == capacity && Contents() == []
    {
      data := new T[capacity](_ => filler);
      head, tail, count := 0, 0, 0;
    }

    method Push(x: T) returns (ok: bool)
      requires Valid()
      modifies this, data
      ensures Valid() && ok == (|old(Contents())| < data.Length)
      ensures Contents() == if ok then old(Contents()) + [x] else old(Contents())
    {
      ok := count < data.Length;
      if ok {
        data[tail] := x;
        tail := if tail + 1 == data.Length then 0 else tail + 1;
        count := count + 1;
      }
    }

    method Pop() returns (x: Option<T>)
      requires Valid()
      modifies this
      ensures Valid()
      ensures var was := old(Contents());
              if was == [] then x == None && Contents() == was else x == Some(was[0]) && Contents() == was[1..]
    {
      x := None;
      if count > 0 {
        x := Some(data[head]);
        head := if head + 1 == data.Length then 0 else head + 1;
        count := count - 1;
      }
    }
  }
}
