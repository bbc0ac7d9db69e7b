/** An event never gets a second offset, and an offset never a second event, over every interleaving
    of appends, replays, expiry, tombstone deletion, rotation and time: an event whose tombstone is
    gone is too old to be replayed. */
module JournalDedup {
  import opened JournalTypes
  import opened JournalOps
  import opened JournalShape
  import opened JournalRuns

  /** The event still holds the offset it was given, or it is beyond the replay age. */
  ghost predicate Settled(s: Store, i: Issue) {
    At(s.donations, i.channel, i.offset, i.event) || i.acceptedAt < s.clock - REPLAY_AGE
  }

  ghost predicate Issued(issued: seq<Issue>, s: Store, accepted: EventId -> Time) {
    forall i :: 0 <= i < |issued| ==>
      && issued[i].acceptedAt == accepted(issued[i].event)
      && issued[i].channel in s.channels && issued[i].offset <= s.channels[issued[i].channel].current
      && Settled(s, issued[i])
  }

  ghost predicate OnceEach(issued: seq<Issue>) {
    forall i, j :: 0 <= i < j < |issued| ==>
      && issued[i].event != issued[j].event
      && (issued[i].channel == issued[j].channel ==> issued[i].offset < issued[j].offset)
  }

  ghost predicate Known(issued: seq<Issue>, e: EventId, ch: Channel, offset: nat) {
    exists i :: 0 <= i < |issued| && issued[i].event == e && issued[i].channel == ch && issued[i].offset == offset
  }

  ghost predicate AllKnown(issued: seq<Issue>, s: Store, accepted: EventId -> Time) {
    forall e :: e in s.donations ==>
      && Known(issued, e, s.donations[e].channel, s.donations[e].offset)
      && accepted(e) <= s.donations[e].storedAt + SECOND
  }

  ghost predicate GivenOut(issued: seq<Issue>, ch: Channel, offset: nat) {
    exists i :: 0 <= i < |issued| && issued[i].channel == ch && issued[i].offset == offset
  }

  /** Every offset up to a channel's counter was given to some event. */
  ghost predicate NoneSkipped(issued: seq<Issue>, channels: map<Channel, ChannelRow>) {
    forall ch, o: nat :: (ch in channels && 1 <= o <= channels[ch].current) ==> GivenOut(issued, ch, o)
  }

  ghost predicate Dedup(y: Sys, accepted: EventId -> Time) {
    && Issued(y.h.issued, y.s, accepted) && OnceEach(y.h.issued) && AllKnown(y.h.issued, y.s, accepted)
    && NoneSkipped(y.h.issued, y.s.channels)
  }

  /** Rows, their places and the counters stay, and the clock does not go back. */
  ghost predicate SlotsStay(s: Store, t: Store) {
    && s.clock <= t.clock
    && t.donations.Keys == s.donations.Keys
    && (forall e :: e in s.donations ==>
          && t.donations[e].channel == s.donations[e].channel && t.donations[e].offset == s.donations[e].offset
          && t.donations[e].storedAt == s.donations[e].storedAt)
    && (forall ch :: ch in s.channels ==> ch in t.channels && s.channels[ch].current == t.channels[ch].current)
    && (forall ch :: ch in t.channels && ch !in s.channels ==> t.channels[ch].current == 0)
  }

  lemma OtherOpsKeepSlots(s: Store, op: Op)
    requires !op.Cleaning? && !Journals(s, op)
    ensures SlotsStay(s, Next(s, op))
  {
    if OwnerOp(op) {
      OwnerOpsKeepJournal(s, op);
    } else {
      ReadersKeepSlots(s, op);
    }
  }

  lemma ExpiredToKeepsSlots(s: Store, ch: Channel, through: nat)
    requires ch in s.channels
    ensures SlotsStay(s, ExpiredTo(s, ch, through))
  {
    var t := ExpiredTo(s, ch, through);
    if through > s.channels[ch].expiredThrough {
      assert t.donations == Dropped(s.donations, ch, s.channels[ch].generation, through);
      assert t.channels == s.channels[ch := s.channels[ch].(expiredThrough := through)];
    }
  }

  lemma ExpireKeepsSlots(s: Store, ch: Channel, policy: Policy)
    ensures SlotsStay(s, Expire(s, ch, policy).0)
  {
    if policy.WellFormed() && ch in s.channels {
      ExpiredToKeepsSlots(s, ch, Reach(s, ch, policy, s.channels[ch].expiredThrough,
                                       TotalSize(s.donations, ch), EXPIRE_BATCH));
    }
  }

  lemma RotateKeepsSlots(s: Store, ch: Channel, expected: Name, reason: Name, next: Name)
    ensures SlotsStay(s, Rotate(s, ch, expected, reason, next).0)
  {
    var (t, r) := Rotate(s, ch, expected, reason, next);
    if r.Ok? {
      assert t.donations == Regenerated(s.donations, ch, expected, next);
    } else {
      assert t == s;
    }
  }

  /** Consumer transactions and replays change no row and no counter. */
  lemma ReadersKeepRows(s: Store, op: Op)
    requires op.Reading? || op.Acking? || op.Recovering? || (op.Appending? && !Journals(s, op))
    ensures var t := Next(s, op); t.donations == s.donations && t.channels == s.channels && t.clock == s.clock
  {
    match op
    case Reading(k, gen, after, rev, limit) => ReadKeepsRows(s, k, gen, after, rev, limit);
    case Acking(k, gen, offset, rev) => AckKeepsRows(s, k, gen, offset, rev);
    case Recovering(rk, prev, next, resume, exp, body) => ResolveKeepsRows(s, rk, prev, next, resume, exp, body);
    case Appending(g, d, at, length, size) => assert Next(s, op) == s;
  }

  lemma ReadKeepsRows(s: Store, k: ConsumerKey, gen: Name, after: nat, rev: nat, limit: int)
    ensures var t := Read(s, k, gen, after, rev, limit).0;
            t.donations == s.donations && t.channels == s.channels && t.clock == s.clock
  {
    var (t, r) := Read(s, k, gen, after, rev, limit);
    if r.Err? { assert t == s; }
  }

  lemma AckKeepsRows(s: Store, k: ConsumerKey, gen: Name, offset: nat, rev: nat)
    ensures var t := Ack(s, k, gen, offset, rev).0;
            t.donations == s.donations && t.channels == s.channels && t.clock == s.clock
  {
    var (t, r) := Ack(s, k, gen, offset, rev);
    if r.Err? { assert t == s; }
  }

  lemma ResolveKeepsRows(s: Store, rk: RequestKey, prev: Name, next: Name, resume: nat, exp: nat, body: RecoveryRequest)
    ensures var t := Resolve(s, rk, prev, next, resume, exp, body).0;
            t.donations == s.donations && t.channels == s.channels && t.clock == s.clock
  {
    var (t, r) := Resolve(s, rk, prev, next, resume, exp, body);
    if r.Err? { assert t == s; }
  }

  lemma ReadersKeepSlots(s: Store, op: Op)
    requires !OwnerOp(op) && !op.Cleaning? && !Journals(s, op)
    ensures SlotsStay(s, Next(s, op))
  {
    if op.Expiring? {
      ExpireKeepsSlots(s, op.channel, op.policy);
    } else if op.Rotating? {
      RotateKeepsSlots(s, op.channel, op.from, op.reason, op.next);
    } else {
      ReadersKeepRows(s, op);
    }
  }

  lemma SlotsKeepDedup(y: Sys, z: Sys, accepted: EventId -> Time)
    requires Dedup(y, accepted) && SlotsStay(y.s, z.s) && z.h.issued == y.h.issued
    ensures Dedup(z, accepted)
  {
    forall i | 0 <= i < |z.h.issued| ensures Settled(z.s, z.h.issued[i]) {
      assert Settled(y.s, y.h.issued[i]);
    }
    forall e | e in z.s.donations
      ensures Known(z.h.issued, e, z.s.donations[e].channel, z.s.donations[e].offset)
    {
      assert Known(y.h.issued, e, y.s.donations[e].channel, y.s.donations[e].offset);
    }
  }

  /** Maintenance deletes a tombstone only long after its event could be replayed. */
  lemma CleaningKeepsDedup(y: Sys, ch: Channel, accepted: EventId -> Time)
    requires Dedup(y, accepted)
    ensures Dedup(Step(y, Cleaning(ch)), accepted)
  {
    var z := Step(y, Cleaning(ch));
    forall i | 0 <= i < |z.h.issued| ensures Settled(z.s, z.h.issued[i]) {
      var x := y.h.issued[i];
      assert Settled(y.s, x);
      if At(y.s.donations, x.channel, x.offset, x.event) && x.event in z.s.donations {
        assert At(z.s.donations, x.channel, x.offset, x.event);
      }
    }
    forall e | e in z.s.donations
      ensures Known(z.h.issued, e, z.s.donations[e].channel, z.s.donations[e].offset)
    {
      assert Known(y.h.issued, e, y.s.donations[e].channel, y.s.donations[e].offset);
    }
  }

  /** A newly journaled event was never issued before: its earlier row would still be there. */
  lemma NewEventIsFresh(y: Sys, e: EventId, accepted: EventId -> Time)
    requires Dedup(y, accepted) && e !in y.s.donations && accepted(e) >= y.s.clock - REPLAY_AGE
    ensures forall i :: 0 <= i < |y.h.issued| ==> y.h.issued[i].event != e
  {
    forall i | 0 <= i < |y.h.issued| ensures y.h.issued[i].event != e {
      assert Settled(y.s, y.h.issued[i]);
    }
  }

  lemma KnownGrows(issued: seq<Issue>, x: Issue, e: EventId, ch: Channel, offset: nat)
    requires Known(issued, e, ch, offset)
    ensures Known(issued + [x], e, ch, offset)
  {
    var i :| 0 <= i < |issued| && issued[i].event == e && issued[i].channel == ch && issued[i].offset == offset;
    assert (issued + [x])[i] == issued[i];
  }

  lemma JournalingKeepsIssued(y: Sys, t: Store, x: Issue, accepted: EventId -> Time)
    requires Dedup(y, accepted)
    requires x.event !in y.s.donations && x.acceptedAt == accepted(x.event) && x.channel in y.s.channels
    requires x.offset == y.s.channels[x.channel].current + 1
    requires t.clock == y.s.clock && At(t.donations, x.channel, x.offset, x.event)
    requires forall e :: e in y.s.donations ==> e in t.donations && t.donations[e] == y.s.donations[e]
    requires t.channels == y.s.channels[x.channel := y.s.channels[x.channel].(current := x.offset)]
    ensures Issued(y.h.issued + [x], t, accepted)
  {
    var issued := y.h.issued + [x];
    forall i | 0 <= i < |issued|
      ensures issued[i].acceptedAt == accepted(issued[i].event)
      ensures issued[i].channel in t.channels && issued[i].offset <= t.channels[issued[i].channel].current
      ensures Settled(t, issued[i])
    {
      if i < |y.h.issued| {
        assert issued[i] == y.h.issued[i] && Settled(y.s, y.h.issued[i]);
      }
    }
  }

  lemma JournalingKeepsOnce(y: Sys, x: Issue, accepted: EventId -> Time)
    requires Dedup(y, accepted)
    requires x.event !in y.s.donations && accepted(x.event) >= y.s.clock - REPLAY_AGE
    requires x.channel in y.s.channels && x.offset == y.s.channels[x.channel].current + 1
    ensures OnceEach(y.h.issued + [x])
  {
    NewEventIsFresh(y, x.event, accepted);
  }

  lemma JournalingKeepsKnown(y: Sys, t: Store, x: Issue, accepted: EventId -> Time)
    requires Dedup(y, accepted)
    requires At(t.donations, x.channel, x.offset, x.event)
    requires accepted(x.event) <= t.donations[x.event].storedAt + SECOND
    requires forall e :: e in t.donations && e != x.event ==> e in y.s.donations && t.donations[e] == y.s.donations[e]
    ensures AllKnown(y.h.issued + [x], t, accepted)
  {
    var issued := y.h.issued + [x];
    forall e | e in t.donations
      ensures Known(issued, e, t.donations[e].channel, t.donations[e].offset)
      ensures accepted(e) <= t.donations[e].storedAt + SECOND
    {
      if e == x.event {
        assert issued[|y.h.issued|] == x;
      } else {
        KnownGrows(y.h.issued, x, e, t.donations[e].channel, t.donations[e].offset);
      }
    }
  }

  lemma JournalingSkipsNone(issued: seq<Issue>, channels: map<Channel, ChannelRow>, x: Issue)
    requires NoneSkipped(issued, channels) && x.channel in channels && x.offset == channels[x.channel].current + 1
    ensures NoneSkipped(issued + [x], channels[x.channel := channels[x.channel].(current := x.offset)])
  {
    var issued', channels' := issued + [x], channels[x.channel := channels[x.channel].(current := x.offset)];
    forall ch, o: nat | ch in channels' && 1 <= o <= channels'[ch].current ensures GivenOut(issued', ch, o) {
      if ch == x.channel && o == x.offset {
        assert issued'[|issued|] == x;
      } else {
        assert GivenOut(issued, ch, o);
        var i :| 0 <= i < |issued| && issued[i].channel == ch && issued[i].offset == o;
        assert issued'[i] == issued[i];
      }
    }
  }

  lemma JournalingKeepsDedup(y: Sys, op: Op, accepted: EventId -> Time)
    requires Dedup(y, accepted) && Journals(y.s, op) && Enabled(y, op, accepted)
    ensures Dedup(Step(y, op), accepted)
  {
    var z := Step(y, op);
    var d := Append(y.s, op.grant, op.donation, op.acceptedAt, op.length, op.size).1.value;
    assert z.s == Journaled(y.s, d, op.size);
    var x := Issue(d.eventId, d.channelId, d.offset, op.acceptedAt, op.grant.token);
    assert z.h.issued == y.h.issued + [x];
    JournalingKeepsIssued(y, z.s, x, accepted);
    JournalingKeepsOnce(y, x, accepted);
    JournalingKeepsKnown(y, z.s, x, accepted);
    JournalingSkipsNone(y.h.issued, y.s.channels, x);
  }

  lemma StepKeepsDedup(y: Sys, op: Op, accepted: EventId -> Time)
    requires Dedup(y, accepted) && Enabled(y, op, accepted)
    ensures Dedup(Step(y, op), accepted)
  {
    if op.Cleaning? {
      CleaningKeepsDedup(y, op.channel, accepted);
    } else if Journals(y.s, op) {
      JournalingKeepsDedup(y, op, accepted);
    } else {
      OtherOpsKeepSlots(y.s, op);
      SlotsKeepDedup(y, Step(y, op), accepted);
    }
  }
}
