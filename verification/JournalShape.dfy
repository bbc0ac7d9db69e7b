/** The shape of a channel's journal: every row carries the channel's generation, the offsets after
    the expired prefix are all present exactly once with payload, and the expired ones have none. */
module JournalShape {
  import opened JournalTypes
  import opened JournalOps

  ghost predicate RowShape(s: Store, e: EventId)
    requires e in s.donations
  {
    var r := s.donations[e];
    && r.channel in s.channels
    && r.generation == s.channels[r.channel].generation
    && 1 <= r.offset <= s.channels[r.channel].current
    && (r.payload.Some? <==> r.offset > s.channels[r.channel].expiredThrough)
    && (r.payload.Some? ==>
          && r.payload.value.eventId == e && r.payload.value.channelId == r.channel
          && r.payload.value.offset == r.offset && r.payload.value.generation == r.generation)
  }

  ghost predicate ProgressFits(s: Store, k: ConsumerKey, p: Progress) {
    && k.channel in s.channels
    && p.baseline <= p.offered <= s.channels[k.channel].current
    && (p.ack.Some? ==> p.baseline < p.ack.value <= p.offered)
  }

  ghost predicate ProgressShape(s: Store, k: ConsumerKey)
    requires k in s.consumers
  {
    ProgressFits(s, k, s.consumers[k])
  }

  /** No offset of a channel names two events. */
  ghost predicate OneEventPerOffset(t: map<EventId, Row>) {
    forall ch, o: nat, e, f :: At(t, ch, o, e) && At(t, ch, o, f) ==> e == f
  }

  ghost predicate NoMissingOffset(s: Store) {
    forall ch, o: nat ::
      (ch in s.channels && s.channels[ch].expiredThrough < o <= s.channels[ch].current)
      ==> Stored(s.donations, ch, o)
  }

  ghost predicate Shape(s: Store) {
    && (forall ch :: ch in s.channels ==> s.channels[ch].expiredThrough <= s.channels[ch].current <= MAX_U64)
    && (forall e :: e in s.donations ==> RowShape(s, e))
    && OneEventPerOffset(s.donations)
    && NoMissingOffset(s)
    && (forall k :: k in s.consumers ==> ProgressShape(s, k))
  }

  /** Same rows and same offset counters: what owner and consumer transactions leave alone. */
  ghost predicate SameJournal(s: Store, t: Store) {
    && s.donations == t.donations
    && s.channels.Keys <= t.channels.Keys
    && (forall ch :: ch in s.channels ==>
          && t.channels[ch].generation == s.channels[ch].generation
          && t.channels[ch].current == s.channels[ch].current
          && t.channels[ch].expiredThrough == s.channels[ch].expiredThrough)
    && (forall ch :: ch in t.channels && ch !in s.channels ==>
          t.channels[ch].current == 0 && t.channels[ch].expiredThrough == 0)
  }

  lemma SameJournalKeepsShape(s: Store, t: Store)
    requires Shape(s) && SameJournal(s, t)
    requires forall k :: k in t.consumers ==> ProgressShape(t, k)
    ensures Shape(t)
  {
    forall e | e in t.donations ensures RowShape(t, e) {
      assert RowShape(s, e);
    }
  }

  /** Consumer transactions write one progress row and nothing of the journal. */
  lemma ConsumerStepKeepsShape(s: Store, t: Store, k: ConsumerKey, p: Progress)
    requires Shape(s) && ProgressFits(s, k, p)
    requires t.donations == s.donations && t.channels == s.channels && t.consumers == s.consumers[k := p]
    ensures Shape(t)
  {
    forall j | j in t.consumers ensures ProgressShape(t, j) {
      if j != k { assert ProgressShape(s, j); }
    }
    SameJournalKeepsShape(s, t);
  }

  lemma ReadKeepsShape(s: Store, k: ConsumerKey, generation: Name, after: nat, revision: nat, limit: int)
    requires Shape(s)
    ensures Shape(Read(s, k, generation, after, revision, limit).0)
  {
    var (t, r) := Read(s, k, generation, after, revision, limit);
    if r.Ok? {
      if k in s.consumers { assert ProgressShape(s, k); }
      ConsumerStepKeepsShape(s, t, k, t.consumers[k]);
    }
  }

  lemma AckKeepsShape(s: Store, k: ConsumerKey, generation: Name, offset: nat, revision: nat)
    requires Shape(s)
    ensures Shape(Ack(s, k, generation, offset, revision).0)
  {
    var (t, r) := Ack(s, k, generation, offset, revision);
    if r.Ok? {
      assert ProgressShape(s, k);
      ConsumerStepKeepsShape(s, t, k, t.consumers[k]);
    }
  }

  lemma ResolveKeepsShape(s: Store, rk: RequestKey, previous: Name, next: Name,
                          resume: nat, expected: nat, request: RecoveryRequest)
    requires Shape(s)
    ensures Shape(Resolve(s, rk, previous, next, resume, expected, request).0)
  {
    var k := ConsumerKey(rk.consumer, rk.channel);
    var (t, r) := Resolve(s, rk, previous, next, resume, expected, request);
    if r.Ok? && t != s {
      ConsumerStepKeepsShape(s, t, k, t.consumers[k]);
    }
  }

  /** Transactions that change neither rows, nor offsets, nor consumers. */
  lemma OwnerStepKeepsShape(s: Store, t: Store)
    requires Shape(s) && SameJournal(s, t) && t.consumers == s.consumers
    ensures Shape(t)
  {
    forall k | k in t.consumers ensures ProgressShape(t, k) {
      assert ProgressShape(s, k);
    }
    SameJournalKeepsShape(s, t);
  }

  lemma JournaledKeepsShape(s: Store, d: Donation, size: nat)
    requires Shape(s)
    requires d.channelId in s.channels && d.eventId !in s.donations
    requires d.offset == s.channels[d.channelId].current + 1 <= MAX_U64
    requires d.generation == s.channels[d.channelId].generation
    ensures Shape(Journaled(s, d, size))
  {
    var t := Journaled(s, d, size);
    forall e | e in t.donations ensures RowShape(t, e) {
      if e != d.eventId { assert RowShape(s, e); }
    }
    forall ch, o: nat, e, f | At(t.donations, ch, o, e) && At(t.donations, ch, o, f) ensures e == f {
      if e != d.eventId { assert At(s.donations, ch, o, e) && RowShape(s, e); }
      if f != d.eventId { assert At(s.donations, ch, o, f) && RowShape(s, f); }
    }
    forall ch, o: nat | ch in t.channels && t.channels[ch].expiredThrough < o <= t.channels[ch].current
      ensures Stored(t.donations, ch, o)
    {
      if ch == d.channelId && o == d.offset {
        assert At(t.donations, ch, o, d.eventId);
      } else {
        assert Stored(s.donations, ch, o);
        var e :| At(s.donations, ch, o, e);
        assert At(t.donations, ch, o, e);
      }
    }
    forall k | k in t.consumers ensures ProgressShape(t, k) {
      assert ProgressShape(s, k);
    }
  }

  lemma AppendKeepsShape(s: Store, g: OwnerGrant, d: Donation, acceptedAt: Time, length: nat, size: nat)
    requires Shape(s)
    ensures Shape(Append(s, g, d, acceptedAt, length, size).0)
  {
    var (t, r) := Append(s, g, d, acceptedAt, length, size);
    if t != s { JournaledKeepsShape(s, r.value, size); }
  }

  /** Rows keep their channel and offset, and channels keep their last offset. */
  ghost predicate SameSlots(s: Store, t: Store) {
    && t.donations.Keys == s.donations.Keys
    && (forall e :: e in s.donations ==>
          t.donations[e].channel == s.donations[e].channel && t.donations[e].offset == s.donations[e].offset)
    && t.channels.Keys == s.channels.Keys
    && (forall ch :: ch in s.channels ==> t.channels[ch].current == s.channels[ch].current)
    && t.consumers == s.consumers
  }

  lemma SameSlotsKeepShape(s: Store, t: Store)
    requires Shape(s) && SameSlots(s, t)
    requires forall ch :: ch in s.channels ==>
               s.channels[ch].expiredThrough <= t.channels[ch].expiredThrough <= t.channels[ch].current
    requires forall e :: e in t.donations ==> RowShape(t, e)
    ensures Shape(t)
  {
    forall ch, o: nat | ch in t.channels && t.channels[ch].expiredThrough < o <= t.channels[ch].current
      ensures Stored(t.donations, ch, o)
    {
      assert Stored(s.donations, ch, o);
      var e :| At(s.donations, ch, o, e);
      assert At(t.donations, ch, o, e);
    }
    forall ch, o: nat, e, f | At(t.donations, ch, o, e) && At(t.donations, ch, o, f) ensures e == f {
      assert At(s.donations, ch, o, e) && At(s.donations, ch, o, f);
    }
    forall k | k in t.consumers ensures ProgressShape(t, k) {
      assert ProgressShape(s, k);
    }
  }

  lemma {:induction false} ReachBounded(s: Store, ch: Channel, policy: Policy, from: nat, total: int, left: nat)
    requires Shape(s) && ch in s.channels
    requires s.channels[ch].expiredThrough <= from <= s.channels[ch].current
    ensures from <= Reach(s, ch, policy, from, total, left) <= s.channels[ch].current
    ensures Reach(s, ch, policy, from, total, left) <= from + left
    decreases left
  {
    if left > 0 && Stored(s.donations, ch, from + 1) {
      var e :| At(s.donations, ch, from + 1, e);
      assert RowShape(s, e);
      var row := RowAt(s.donations, ch, from + 1);
      ReachBounded(s, ch, policy, from + 1, total - row.size, left - 1);
    }
  }

  lemma ExpiredToKeepsShape(s: Store, ch: Channel, through: nat)
    requires Shape(s) && ch in s.channels && through <= s.channels[ch].current
    ensures Shape(ExpiredTo(s, ch, through))
  {
    var t := ExpiredTo(s, ch, through);
    if through > s.channels[ch].expiredThrough {
      forall e | e in t.donations ensures RowShape(t, e) {
        assert RowShape(s, e);
      }
      SameSlotsKeepShape(s, t);
    }
  }

  lemma ExpireKeepsShape(s: Store, ch: Channel, policy: Policy)
    requires Shape(s)
    ensures Shape(Expire(s, ch, policy).0)
  {
    if policy.WellFormed() && ch in s.channels {
      var c := s.channels[ch];
      var total := TotalSize(s.donations, ch);
      ReachBounded(s, ch, policy, c.expiredThrough, total, EXPIRE_BATCH);
      ExpiredToKeepsShape(s, ch, Reach(s, ch, policy, c.expiredThrough, total, EXPIRE_BATCH));
    }
  }

  lemma RotateKeepsShape(s: Store, ch: Channel, expected: Name, reason: Name, next: Name)
    requires Shape(s)
    ensures Shape(Rotate(s, ch, expected, reason, next).0)
  {
    var (t, r) := Rotate(s, ch, expected, reason, next);
    if r.Ok? {
      forall e | e in t.donations ensures RowShape(t, e) {
        assert RowShape(s, e);
      }
      SameSlotsKeepShape(s, t);
    }
  }

  /** Deleting tombstones removes no offset after the expired prefix. */
  lemma CleanupKeepsShape(s: Store, ch: Channel)
    requires Shape(s)
    ensures Shape(Cleanup(s, ch))
  {
    var t := Cleanup(s, ch);
    forall e | e in t.donations ensures RowShape(t, e) {
      assert RowShape(s, e);
    }
    forall c, o: nat | c in t.channels && t.channels[c].expiredThrough < o <= t.channels[c].current
      ensures Stored(t.donations, c, o)
    {
      assert Stored(s.donations, c, o);
      var e :| At(s.donations, c, o, e);
      assert RowShape(s, e);
      assert At(t.donations, c, o, e);
    }
    forall c, o: nat, e, f | At(t.donations, c, o, e) && At(t.donations, c, o, f) ensures e == f {
      assert At(s.donations, c, o, e) && At(s.donations, c, o, f);
    }
    forall k | k in t.consumers ensures ProgressShape(t, k) {
      assert ProgressShape(s, k);
    }
  }
}
