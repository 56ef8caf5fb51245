/** Open addressing with linear probing and tombstones: the discipline shared by the server's
    rendezvous cache, the server's lookup index and the client's gate table. A cell's occupancy
    is 0 (Vacant), 2 (Tombstone) or 1 (Live).

    The C code probes from a hash and stops at the first vacant cell. The declarative searches
    below look at the whole table; the lemmas say when the two agree and that every way of
    changing a table keeps it so. */
module ProbeTable {
  import opened Basics

  datatype Cell<+E> = Vacant | Tombstone | Live(entry: E)

  /** A zeroed table. */
  function Empty<E>(n: nat): (cells: seq<Cell<E>>)
    ensures |cells| == n && forall i | 0 <= i < n :: cells[i].Vacant?
  {
    seq(n, _ => Vacant)
  }

  /** (start + k) & (cap - 1) for start < cap and k <= cap. */
  function Wrap(start: nat, k: nat, cap: nat): (i: nat)
    requires start < cap && k <= cap
    ensures i < cap
  {
    if start + k < cap then start + k else start + k - cap
  }

  /** The probe offset at which a search from start looks at cell i. */
  function Dist(start: nat, i: nat, cap: nat): (k: nat)
    requires start < cap && i < cap
    ensures k < cap && Wrap(start, k, cap) == i
  {
    if start <= i then i - start else i + cap - start
  }

  lemma DistOfWrap(start: nat, k: nat, cap: nat)
    requires start < cap && k < cap
    ensures Dist(start, Wrap(start, k, cap), cap) == k
  {
  }

  predicate Matches<E>(c: Cell<E>, p: E -> bool) {
    c.Live? && p(c.entry)
  }

  /** No vacant cell among the first n probes from start. */
  ghost predicate Reaches<E>(cells: seq<Cell<E>>, start: nat, n: nat)
    requires start < |cells| && n <= |cells|
  {
    forall k | 0 <= k < n :: !cells[Wrap(start, k, |cells|)].Vacant?
  }

  /** Every live entry can be reached from its own hash. */
  ghost predicate WellProbed<E>(cells: seq<Cell<E>>, home: E -> nat) {
    forall i | 0 <= i < |cells| && cells[i].Live? ::
      && home(cells[i].entry) < |cells|
      && Reaches(cells, home(cells[i].entry), Dist(home(cells[i].entry), i, |cells|))
  }

  /** Every live entry the search is for can be reached from start. */
  ghost predicate Covered<E>(cells: seq<Cell<E>>, start: nat, p: E -> bool)
    requires start < |cells|
  {
    forall i | 0 <= i < |cells| && Matches(cells[i], p) :: Reaches(cells, start, Dist(start, i, |cells|))
  }

  lemma CoveredBySameHome<E>(cells: seq<Cell<E>>, home: E -> nat, start: nat, p: E -> bool)
    requires start < |cells| && WellProbed(cells, home)
    requires forall i | 0 <= i < |cells| && Matches(cells[i], p) :: home(cells[i].entry) == start
    ensures Covered(cells, start, p)
  {
  }

  /** A search may stop at the first vacant cell: nothing it wants lies further on. */
  lemma NothingBeyondVacant<E>(cells: seq<Cell<E>>, start: nat, p: E -> bool, n: nat)
    requires start < |cells| && n < |cells| && Covered(cells, start, p)
    requires cells[Wrap(start, n, |cells|)].Vacant?
    ensures forall k | n <= k < |cells| :: !Matches(cells[Wrap(start, k, |cells|)], p)
  {
  }

  // ----- declarative searches over the whole table -----

  /** The first cell at or after index k that matches, scanning the table in index order. */
  function FindMatch<E>(cells: seq<Cell<E>>, p: E -> bool, k: nat := 0): (r: Option<nat>)
    requires k <= |cells|
    ensures r.Some? ==> k <= r.value < |cells| && Matches(cells[r.value], p)
    ensures r.None? ==> forall i | k <= i < |cells| :: !Matches(cells[i], p)
    decreases |cells| - k
  {
    if k == |cells| then None
    else if Matches(cells[k], p) then Some(k)
    else FindMatch(cells, p, k + 1)
  }

  /** The newest match among the first n probes from start; the earliest probe wins a tie. */
  function NewestMatch<E>(cells: seq<Cell<E>>, start: nat, p: E -> bool, time: E -> nat, n: nat): (r: Option<nat>)
    requires start < |cells| && n <= |cells|
    ensures r.Some? ==> r.value < |cells| && Matches(cells[r.value], p)
    ensures r.Some? ==> forall k | 0 <= k < n && Matches(cells[Wrap(start, k, |cells|)], p) ::
                          time(cells[Wrap(start, k, |cells|)].entry) <= time(cells[r.value].entry)
    ensures r.None? ==> forall k | 0 <= k < n :: !Matches(cells[Wrap(start, k, |cells|)], p)
  {
    if n == 0 then None
    else
      var best := NewestMatch(cells, start, p, time, n - 1);
      var i := Wrap(start, n - 1, |cells|);
      if Matches(cells[i], p) && (best.None? || time(cells[i].entry) > time(cells[best.value].entry))
      then Some(i) else best
  }

  /** The newest match over a full circle is newest over the whole table. */
  lemma NewestOverWholeTable<E>(cells: seq<Cell<E>>, start: nat, p: E -> bool, time: E -> nat)
    requires start < |cells|
    ensures var r := NewestMatch(cells, start, p, time, |cells|);
            && (r.Some? ==> r.value < |cells| && Matches(cells[r.value], p)
                            && forall i | 0 <= i < |cells| && Matches(cells[i], p) ::
                                 time(cells[i].entry) <= time(cells[r.value].entry))
            && (r.None? ==> forall i | 0 <= i < |cells| :: !Matches(cells[i], p))
  {
    var r := NewestMatch(cells, start, p, time, |cells|);
    forall i | 0 <= i < |cells| && Matches(cells[i], p)
      ensures r.Some? && time(cells[i].entry) <= time(cells[r.value].entry)
    {
      assert cells[Wrap(start, Dist(start, i, |cells|), |cells|)] == cells[i];
    }
  }

  lemma {:induction false} NewestUnchanged<E>(cells: seq<Cell<E>>, start: nat, p: E -> bool, time: E -> nat, n: nat,
                                              m: nat)
    requires start < |cells| && n <= m <= |cells|
    requires forall k | n <= k < m :: !Matches(cells[Wrap(start, k, |cells|)], p)
    ensures NewestMatch(cells, start, p, time, m) == NewestMatch(cells, start, p, time, n)
  {
    if n < m {
      assert !Matches(cells[Wrap(start, m - 1, |cells|)], p);
      NewestUnchanged(cells, start, p, time, n, m - 1);
    }
  }

  /** Where a new entry whose hash is start goes: the first tombstone met before the first vacant
      cell, else that vacant cell; with no vacant cell, the first tombstone of the circle. The
      search has made k probes and remembers the first tombstone it met. */
  function FreeSlot<E>(cells: seq<Cell<E>>, start: nat, k: nat := 0, tomb: Option<nat> := None): (r: Option<nat>)
    requires start < |cells| && k <= |cells| && Reaches(cells, start, k)
    requires tomb.Some? ==> tomb.value < |cells| && cells[tomb.value].Tombstone? && Dist(start, tomb.value, |cells|) < k
    requires tomb.None? ==> forall j | 0 <= j < k :: cells[Wrap(start, j, |cells|)].Live?
    ensures r.Some? ==>
              r.value < |cells| && !cells[r.value].Live? && Reaches(cells, start, Dist(start, r.value, |cells|))
    ensures r.None? ==> forall j | 0 <= j < |cells| :: cells[Wrap(start, j, |cells|)].Live?
    decreases |cells| - k
  {
    if k == |cells| then tomb
    else
      var i := Wrap(start, k, |cells|);
      DistOfWrap(start, k, |cells|);
      match cells[i]
      case Vacant => if tomb.Some? then tomb else Some(i)
      case Tombstone => FreeSlot(cells, start, k + 1, if tomb.Some? then tomb else Some(i))
      case Live(_) => FreeSlot(cells, start, k + 1, tomb)
  }

  /** A free slot is refused exactly when every cell of the table is live. */
  lemma FullExactly<E>(cells: seq<Cell<E>>, start: nat)
    requires start < |cells|
    ensures FreeSlot(cells, start).None? <==> forall i | 0 <= i < |cells| :: cells[i].Live?
  {
    if FreeSlot(cells, start).None? {
      forall i | 0 <= i < |cells| ensures cells[i].Live? {
        assert cells[Wrap(start, Dist(start, i, |cells|), |cells|)] == cells[i];
      }
    }
  }

  // ----- what the three kinds of write keep -----

  /** Recycling a cell as a tombstone loses no other entry. */
  lemma RemoveKeepsProbing<E>(cells: seq<Cell<E>>, i: nat, home: E -> nat)
    requires i < |cells| && WellProbed(cells, home)
    ensures WellProbed(cells[i := Tombstone], home)
  {
  }

  /** Writing an entry into a cell its own probe path reaches loses no entry. */
  lemma PlaceKeepsProbing<E>(cells: seq<Cell<E>>, i: nat, e: E, home: E -> nat)
    requires i < |cells| && WellProbed(cells, home)
    requires home(e) < |cells| && Reaches(cells, home(e), Dist(home(e), i, |cells|))
    ensures WellProbed(cells[i := Live(e)], home)
  {
  }

  // ----- the probe loops of the C code -----

  /** Probes until a match or a vacant cell, as find_lookup_index, find_report_generation and
      gate_flow_find do. */
  method ProbeFirst<E>(cells: array<Cell<E>>, start: nat, p: E -> bool) returns (r: Option<nat>)
    requires start < cells.Length && Covered(cells[..], start, p)
    ensures r.Some? ==> r.value < cells.Length && Matches(cells[r.value], p)
    ensures r.None? ==> forall i | 0 <= i < cells.Length :: !Matches(cells[i], p)
  {
    ghost var view := cells[..];
    var offset := 0;
    while offset < cells.Length
      invariant 0 <= offset <= cells.Length
      invariant forall k | 0 <= k < offset :: !Matches(view[Wrap(start, k, |view|)], p)
    {
      var i := Wrap(start, offset, cells.Length);
      if cells[i].Vacant? {
        NothingBeyondVacant(view, start, p, offset);
        break;
      }
      if Matches(cells[i], p) {
        return Some(i);
      }
      offset := offset + 1;
    }
    forall i | 0 <= i < cells.Length ensures !Matches(cells[i], p) {
      assert view[Wrap(start, Dist(start, i, |view|), |view|)] == cells[i];
    }
    return None;
  }

  /** Probes to the first vacant cell keeping the newest match, as find_newest_report_orphan and
      find_newest_lookup_placeholder do. */
  method ProbeNewest<E>(cells: array<Cell<E>>, start: nat, p: E -> bool, time: E -> nat) returns (r: Option<nat>)
    requires start < cells.Length && Covered(cells[..], start, p)
    ensures r == NewestMatch(cells[..], start, p, time, cells.Length)
  {
    ghost var view := cells[..];
    r := None;
    var offset := 0;
    while offset < cells.Length
      invariant 0 <= offset <= cells.Length
      invariant r == NewestMatch(view, start, p, time, offset)
    {
      var i := Wrap(start, offset, cells.Length);
      if cells[i].Vacant? {
        NothingBeyondVacant(view, start, p, offset);
        NewestUnchanged(view, start, p, time, offset, |view|);
        return;
      }
      if Matches(cells[i], p) && (r.None? || time(cells[i].entry) > time(cells[r.value].entry)) {
        r := Some(i);
      }
      offset := offset + 1;
    }
  }

  /** Probes for a place for a new entry, as cache_new_slot does. */
  method ProbeFree<E>(cells: array<Cell<E>>, start: nat) returns (r: Option<nat>)
    requires start < cells.Length
    ensures r == FreeSlot(cells[..], start)
  {
    ghost var view := cells[..];
    var tomb: Option<nat> := None;
    var offset := 0;
    while offset < cells.Length
      invariant 0 <= offset <= cells.Length && Reaches(view, start, offset)
      invariant tomb.Some? ==>
                  tomb.value < |view| && view[tomb.value].Tombstone? && Dist(start, tomb.value, |view|) < offset
      invariant tomb.None? ==> forall j | 0 <= j < offset :: view[Wrap(start, j, |view|)].Live?
      invariant FreeSlot(view, start) == FreeSlot(view, start, offset, tomb)
    {
      var i := Wrap(start, offset, cells.Length);
      DistOfWrap(start, offset, cells.Length);
      if cells[i].Tombstone? && tomb.None? {
        tomb := Some(i);
      }
      if cells[i].Vacant? {
        return if tomb.None? then Some(i) else tomb;
      }
      offset := offset + 1;
    }
    return tomb;
  }

  /** Probes for a match or, failing that, for a free place, as gate_flow_slot and
      insert_lookup_index do. */
  method ProbeMatchOrFree<E>(cells: array<Cell<E>>, start: nat, p: E -> bool) returns (found: bool, r: Option<nat>)
    requires start < cells.Length && Covered(cells[..], start, p)
    ensures found ==> r.Some? && r.value < cells.Length && Matches(cells[r.value], p)
    ensures !found ==> r == FreeSlot(cells[..], start) && forall i | 0 <= i < cells.Length :: !Matches(cells[i], p)
  {
    ghost var view := cells[..];
    var tomb: Option<nat> := None;
    var offset := 0;
    while offset < cells.Length
      invariant 0 <= offset <= cells.Length && Reaches(view, start, offset)
      invariant tomb.Some? ==>
                  tomb.value < |view| && view[tomb.value].Tombstone? && Dist(start, tomb.value, |view|) < offset
      invariant tomb.None? ==> forall j | 0 <= j < offset :: view[Wrap(start, j, |view|)].Live?
      invariant FreeSlot(view, start) == FreeSlot(view, start, offset, tomb)
      invariant forall k | 0 <= k < offset :: !Matches(view[Wrap(start, k, |view|)], p)
    {
      var i := Wrap(start, offset, cells.Length);
      DistOfWrap(start, offset, cells.Length);
      if Matches(cells[i], p) {
        return true, Some(i);
      }
      if cells[i].Tombstone? && tomb.None? {
        tomb := Some(i);
      }
      if cells[i].Vacant? {
        NothingBeyondVacant(view, start, p, offset);
        NoMatchAnywhere(view, start, p);
        return false, if tomb.None? then Some(i) else tomb;
      }
      offset := offset + 1;
    }
    NoMatchAnywhere(view, start, p);
    return false, tomb;
  }

  lemma NoMatchAnywhere<E>(cells: seq<Cell<E>>, start: nat, p: E -> bool)
    requires start < |cells|
    requires forall k | 0 <= k < |cells| :: !Matches(cells[Wrap(start, k, |cells|)], p)
    ensures forall i | 0 <= i < |cells| :: !Matches(cells[i], p)
  {
    forall i | 0 <= i < |cells| ensures !Matches(cells[i], p) {
      assert cells[i] == cells[Wrap(start, Dist(start, i, |cells|), |cells|)];
    }
  }
}
