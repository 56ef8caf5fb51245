/** The packet observer's stash table itself: an array of slots claimed, filled and cleared in
    place, with the loops of the C code. Every method is proved to take exactly the step the state
    machine of module Reassembly takes. */
module Observer {
  import opened Basics
  import opened Tls
  import opened Reassembly

  class PcapObserver {
    const stashes: array<Stash>
    var lookups: seq<Lookup>

    ghost predicate Shape()
      reads this
    {
      stashes.Length == SLOTS
    }

    ghost function Abs(): State
      reads this, stashes
    {
      State(stashes[..], lookups)
    }

    ghost predicate Valid()
      reads this, stashes
    {
      Shape() && Inv(Abs())
    }

    constructor ()
      ensures Valid() && fresh(stashes) && Abs() == Init()
    {
      stashes := new Stash[SLOTS](_ => CLEARED);
      lookups := [];
      new;
      assert stashes[..] == Init().stashes;
    }

    /** ch_find_stash. */
    method FindStash(flow: Flow, now: nat) returns (slot: Option<nat>)
      requires Shape()
      modifies stashes
      ensures (stashes[..], slot) == Find(old(stashes[..]), flow, now)
    {
      var i := 0;
      while i < stashes.Length
        invariant 0 <= i <= stashes.Length
        invariant FindFrom(stashes[..], flow, now, i) == FindFrom(old(stashes[..]), flow, now, 0)
      {
        if stashes[i].used {
          if Stale(stashes[i], now) {
            ghost var before := stashes[..];
            stashes[i] := stashes[i].(used := false);
            assert stashes[..] == before[i := before[i].(used := false)];
          } else if stashes[i].flow == flow {
            return Some(i);
          }
        }
        i := i + 1;
      }
      return None;
    }

    /** ch_clear_stash. */
    method ClearStash(flow: Flow, now: nat)
      requires Shape()
      modifies stashes
      ensures stashes[..] == Clear(old(stashes[..]), flow, now)
    {
      var slot := FindStash(flow, now);
      if slot.Some? {
        WriteStash(slot.value, stashes[slot.value].(used := false));
      }
    }

    method WriteStash(i: nat, x: Stash)
      requires Shape() && i < stashes.Length
      modifies stashes
      ensures stashes[..] == old(stashes[..])[i := x]
    {
      stashes[i] := x;
    }

    /** ch_claim_stash, up to the point where the slot is cleared for the new record. */
    method ClaimStash(flow: Flow, now: nat) returns (slot: nat)
      requires Shape()
      modifies stashes
      ensures (stashes[..], slot) == Claim(old(stashes[..]), flow, now) && slot < stashes.Length
    {
      var found := FindStash(flow, now);
      if found.Some? {
        return found.value;
      }
      slot := 0;
      var i := 0;
      while i < stashes.Length
        invariant 0 <= i <= stashes.Length && slot < stashes.Length
        invariant VictimFrom(stashes[..], i, slot) == VictimFrom(stashes[..], 0, 0)
      {
        if !stashes[i].used {
          return i;
        }
        if stashes[i].bornNs < stashes[slot].bornNs {
          slot := i;
        }
        i := i + 1;
      }
    }

    /** ch_feed. */
    method ChFeed(g: Segment, o: Oracle)
      requires Shape()
      modifies this, stashes
      ensures Shape() && Abs() == Feed(old(Abs()), g, o)
    {
      if |g.payload| >= 5 && g.payload[0] == HANDSHAKE {
        var needed := Needed(g);
        if needed <= |g.payload| {
          if needed <= RECORD_MAX && LinuxFind(g.payload[..needed], CLIENT_HELLO).Some? {
            var slot := ClaimStash(g.flow, o.now);
            WriteStash(slot, Whole(g, needed, o.born));
          } else {
            ClearStash(g.flow, o.now);
          }
          return;
        }
        if needed > RECORD_MAX {
          ClearStash(g.flow, o.now);
          return;
        }
        var slot := ClaimStash(g.flow, o.now);
        WriteStash(slot, Begun(g, needed, o.born));
        return;
      }
      var slot := FindStash(g.flow, o.now);
      if slot.Some? {
        Continue(slot.value, g, o);
      }
    }

    /** The second half of ch_feed: the next piece of a split record. */
    method Continue(slot: nat, g: Segment, o: Oracle)
      requires Shape() && slot < stashes.Length
      modifies this, stashes
      ensures Shape() && Abs() == FeedNext(old(Abs()), slot, g, o)
    {
      var stash := stashes[slot];
      if Sequence(g) != stash.nextSeq || |stash.buf| + |g.payload| > stash.needed {
        return;
      }
      stash := Extended(stash, g);
      if |stash.buf| == stash.needed {
        var emitted := EmitOf(stash.buf, o.cookie);
        if emitted == NoSocket {
          stash := stash.(deferred := true, rawEnd := (g.rawSeq + |g.payload|) % WRAP);
        } else {
          stash := stash.(used := false);
          if emitted == Emitted {
            lookups := lookups + [Lookup(g.flow, stash.buf, o.now, o.cookie.value, stash.parts, true)];
          }
        }
      }
      WriteStash(slot, stash);
    }

    /** capture_packet for a packet from the client. */
    method CaptureFromClient(g: Segment, o: Oracle)
      requires Valid() && SegmentOk(g)
      modifies this, stashes
      ensures Valid() && Abs() == ClientPacket(old(Abs()), g, o)
    {
      StepKeeps(Abs(), FromClient(g, o));
      if g.payload == [] {
        return;
      }
      if |g.payload| > 5 && g.payload[0] == HANDSHAKE && EmitOf(g.payload, o.cookie) == Emitted {
        lookups := lookups + [Lookup(g.flow, g.payload, o.now, o.cookie.value, [g], false)];
        ClearStash(g.flow, o.now);
        return;
      }
      ChFeed(g, o);
    }

    /** capture_packet for a ServerHello: recovery of a deferred ClientHello. */
    method CaptureServerHello(g: Segment, o: Oracle, again: Option<nat>)
      requires Valid() && SegmentOk(g)
      modifies this, stashes
      ensures Valid() && Abs() == ServerHelloPacket(old(Abs()), g, o, again)
    {
      StepKeeps(Abs(), FromServer(g, o, again));
      if o.cookie.None? {
        return;
      }
      var slot := FindStash(g.flow, o.now);
      if slot.Some? && stashes[slot.value].deferred {
        var stash := stashes[slot.value];
        if stash.rawEnd == g.ack && again == o.cookie && LinuxFind(stash.buf, CLIENT_HELLO).Some? {
          lookups := lookups + [Lookup(g.flow, stash.buf, stash.bornNs, o.cookie.value, stash.parts, true)];
        }
        WriteStash(slot.value, stash.(used := false));
      }
    }
  }
}
