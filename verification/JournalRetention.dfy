/** Retention drops a prefix. Unless an age or size limit forces it, it never passes what a consumer
    still needs; when forced, it stops only within the size limit or at the end of its batch. */
module JournalRetention {
  import opened JournalTypes
  import opened JournalOps
  import opened JournalShape
  import opened JournalRuns
  import opened JournalDedup

  // ---- Sums of stored sizes ----

  lemma {:induction false} SumRemove(t: map<EventId, Row>, es: set<EventId>, e: EventId)
    requires es <= t.Keys && e in es
    ensures SumSizes(t, es) == t[e].size + SumSizes(t, es - {e})
    decreases |es|
  {
    var f :| f in es && SumSizes(t, es) == t[f].size + SumSizes(t, es - {f});
    if f != e {
      SumRemove(t, es - {f}, e);
      SumRemove(t, es - {e}, f);
      assert es - {f} - {e} == es - {e} - {f};
    }
  }

  lemma {:induction false} SumSame(t: map<EventId, Row>, u: map<EventId, Row>, es: set<EventId>)
    requires es <= t.Keys && es <= u.Keys && forall e :: e in es ==> t[e].size == u[e].size
    ensures SumSizes(t, es) == SumSizes(u, es)
    decreases |es|
  {
    if es != {} {
      var e :| e in es;
      SumRemove(t, es, e);
      SumRemove(u, es, e);
      SumSame(t, u, es - {e});
    }
  }

  /** The payloads after `from`. */
  function Beyond(t: map<EventId, Row>, ch: Channel, from: nat): set<EventId> {
    set e | e in Payloads(t, ch) && t[e].offset > from
  }

  lemma BeyondStep(s: Store, ch: Channel, from: nat)
    requires Shape(s) && ch in s.channels && s.channels[ch].expiredThrough <= from
    requires Stored(s.donations, ch, from + 1)
    ensures SumSizes(s.donations, Beyond(s.donations, ch, from))
            == RowAt(s.donations, ch, from + 1).size + SumSizes(s.donations, Beyond(s.donations, ch, from + 1))
  {
    var t := s.donations;
    var e :| At(t, ch, from + 1, e) && t[e] == RowAt(t, ch, from + 1);
    assert RowShape(s, e);
    SumRemove(t, Beyond(t, ch, from), e);
    assert Beyond(t, ch, from) - {e} == Beyond(t, ch, from + 1) by {
      forall f | f in Beyond(t, ch, from) && t[f].offset == from + 1 ensures f == e {
        assert At(t, ch, from + 1, f);
      }
    }
  }

  // ---- Forced expiry ----

  lemma {:induction false} ReachMeetsLimit(s: Store, ch: Channel, policy: Policy, from: nat, left: nat)
    requires Shape(s) && ch in s.channels
    requires s.channels[ch].expiredThrough <= from <= s.channels[ch].current
    ensures var total := SumSizes(s.donations, Beyond(s.donations, ch, from));
            var r := Reach(s, ch, policy, from, total, left);
            && from <= r
            && (SumSizes(s.donations, Beyond(s.donations, ch, r)) <= policy.maxBytes
                || r == from + left || r == s.channels[ch].current)
    decreases left
  {
    if left > 0 && Stored(s.donations, ch, from + 1) {
      BeyondStep(s, ch, from);
      var e :| At(s.donations, ch, from + 1, e);
      assert RowShape(s, e);
      ReachMeetsLimit(s, ch, policy, from + 1, left - 1);
    }
  }

  lemma ExpiredRow(s: Store, ch: Channel, through: nat, e: EventId)
    requires ch in s.channels && s.channels[ch].expiredThrough <= through && e in s.donations && RowShape(s, e)
    ensures var t := ExpiredTo(s, ch, through).donations;
            && e in t && t[e].size == s.donations[e].size && t[e].channel == s.donations[e].channel
            && (t[e].channel == ch ==> (t[e].payload.Some? <==> s.donations[e].offset > through))
  {
    if through == s.channels[ch].expiredThrough {
      assert ExpiredTo(s, ch, through) == s;
    } else {
      assert ExpiredTo(s, ch, through).donations == Dropped(s.donations, ch, s.channels[ch].generation, through);
    }
  }

  lemma ExpiredPayloads(s: Store, ch: Channel, through: nat)
    requires Shape(s) && ch in s.channels && s.channels[ch].expiredThrough <= through
    ensures TotalSize(ExpiredTo(s, ch, through).donations, ch)
            == SumSizes(s.donations, Beyond(s.donations, ch, through))
  {
    var t := ExpiredTo(s, ch, through).donations;
    forall e | e in s.donations
      ensures e in t && t[e].size == s.donations[e].size
      ensures e in Payloads(t, ch) <==> e in Beyond(s.donations, ch, through)
    {
      assert RowShape(s, e);
      ExpiredRow(s, ch, through, e);
    }
    SlotsOfExpired(s, ch, through);
    assert Payloads(t, ch) == Beyond(s.donations, ch, through);
    SumSame(s.donations, t, Beyond(s.donations, ch, through));
  }

  lemma SlotsOfExpired(s: Store, ch: Channel, through: nat)
    requires ch in s.channels
    ensures ExpiredTo(s, ch, through).donations.Keys == s.donations.Keys
  {
  }

  /** A successful call ends within the size limit, or has expired its whole batch: the next 500
      payloads, or all of them. */
  lemma ExpireMeetsLimit(s: Store, ch: Channel, policy: Policy)
    requires Shape(s) && Expire(s, ch, policy).1.Ok?
    ensures var t := Expire(s, ch, policy).0;
            && s.channels[ch].expiredThrough <= t.channels[ch].expiredThrough
            && (TotalSize(t.donations, ch) <= policy.maxBytes
                || t.channels[ch].expiredThrough == s.channels[ch].expiredThrough + EXPIRE_BATCH
                || t.channels[ch].expiredThrough == s.channels[ch].current)
  {
    var from := s.channels[ch].expiredThrough;
    ExpiredPayloads(s, ch, from);
    assert TotalSize(s.donations, ch) == SumSizes(s.donations, Beyond(s.donations, ch, from));
    ReachMeetsLimit(s, ch, policy, from, EXPIRE_BATCH);
    ExpiredPayloads(s, ch, Reach(s, ch, policy, from, TotalSize(s.donations, ch), EXPIRE_BATCH));
  }

  // ---- What is expired ----

  /** The payload at an offset may go: it is over the age limit, the bytes from it on are over the size
      limit, or it has its minimum age and every consumer, of at least one, has settled it in the
      current generation. */
  ghost predicate Due(s: Store, ch: Channel, policy: Policy, o: nat)
    requires ch in s.channels && o > 0
  {
    exists e :: At(s.donations, ch, o, e) &&
      (|| s.clock - s.donations[e].storedAt > policy.maxAge
       || SumSizes(s.donations, Beyond(s.donations, ch, o - 1)) > policy.maxBytes
       || (s.clock - s.donations[e].storedAt >= policy.minAge && SettledByAll(s, ch, o)))
  }

  ghost predicate SettledByAll(s: Store, ch: Channel, o: nat)
    requires ch in s.channels
  {
    && (exists k :: k in s.consumers && k.channel == ch)
    && (forall k :: k in s.consumers && k.channel == ch ==>
          s.consumers[k].Settled() >= o && s.consumers[k].generation == s.channels[ch].generation)
  }

  lemma ExpirableIsDue(s: Store, ch: Channel, policy: Policy, o: nat)
    requires Shape(s) && ch in s.channels && o > 0 && Stored(s.donations, ch, o)
    ensures Due(s, ch, policy, o) <==>
            Expirable(s, ch, o, RowAt(s.donations, ch, o).storedAt,
                      SumSizes(s.donations, Beyond(s.donations, ch, o - 1)), policy)
  {
    var e :| At(s.donations, ch, o, e) && s.donations[e] == RowAt(s.donations, ch, o);
    assert forall f :: At(s.donations, ch, o, f) ==> f == e;
    assert SettledByAll(s, ch, o) <==> Acknowledged(s, ch, o);
  }

  /** The bytes of the payloads after an offset. */
  ghost function BytesAfter(s: Store, ch: Channel, from: nat): nat {
    SumSizes(s.donations, Beyond(s.donations, ch, from))
  }

  lemma NextIsStored(s: Store, ch: Channel, from: nat)
    requires Shape(s) && ch in s.channels
    requires s.channels[ch].expiredThrough <= from <= s.channels[ch].current
    ensures Stored(s.donations, ch, from + 1) <==> from < s.channels[ch].current
  {
    if Stored(s.donations, ch, from + 1) {
      var e :| At(s.donations, ch, from + 1, e);
      assert RowShape(s, e);
    }
  }

  lemma ReachStep(s: Store, ch: Channel, policy: Policy, from: nat, total: int, left: nat)
    requires ch in s.channels && left > 0 && Stored(s.donations, ch, from + 1)
    ensures var v := RowAt(s.donations, ch, from + 1);
            Reach(s, ch, policy, from, total, left) ==
            if Expirable(s, ch, from + 1, v.storedAt, total, policy)
            then Reach(s, ch, policy, from + 1, total - v.size, left - 1) else from
  {
  }

  lemma ReachDue(s: Store, ch: Channel, policy: Policy, from: nat, left: nat)
    requires Shape(s) && ch in s.channels && left > 0
    requires s.channels[ch].expiredThrough <= from < s.channels[ch].current
    ensures Reach(s, ch, policy, from, BytesAfter(s, ch, from), left) ==
            if !Due(s, ch, policy, from + 1) then from
            else Reach(s, ch, policy, from + 1, BytesAfter(s, ch, from + 1), left - 1)
  {
    NextIsStored(s, ch, from);
    ReachStep(s, ch, policy, from, BytesAfter(s, ch, from), left);
    ExpirableIsDue(s, ch, policy, from + 1);
    BeyondStep(s, ch, from);
  }

  lemma ReachEnds(s: Store, ch: Channel, policy: Policy, from: nat, total: int, left: nat)
    requires ch in s.channels && (left == 0 || !Stored(s.donations, ch, from + 1))
    ensures Reach(s, ch, policy, from, total, left) == from
  {
  }

  /** From `from` on, the payloads up to `to` are due, and `to` is where they end or the batch does. */
  ghost predicate DueUpTo(s: Store, ch: Channel, policy: Policy, from: nat, left: nat, to: nat)
    requires ch in s.channels
  {
    && from <= to <= from + left && to <= s.channels[ch].current
    && (forall o: nat :: from < o <= to ==> Due(s, ch, policy, o))
    && (to < from + left && to < s.channels[ch].current ==> !Due(s, ch, policy, to + 1))
  }

  /** From `x` on it moves by one exactly over a payload that is due. */
  ghost predicate MovesOverDue(s: Store, ch: Channel, policy: Policy, reach: (nat, nat) -> nat, x: nat, l: nat)
    requires ch in s.channels
  {
    reach(x, l) == if l == 0 || x >= s.channels[ch].current || !Due(s, ch, policy, x + 1) then x
                   else reach(x + 1, l - 1)
  }

  lemma {:induction false} DueEnds(s: Store, ch: Channel, policy: Policy, reach: (nat, nat) -> nat, from: nat,
                                   left: nat)
    requires ch in s.channels && from <= s.channels[ch].current
    requires forall x: nat, l: nat :: from <= x <= s.channels[ch].current ==> MovesOverDue(s, ch, policy, reach, x, l)
    ensures DueUpTo(s, ch, policy, from, left, reach(from, left))
    decreases left
  {
    assert MovesOverDue(s, ch, policy, reach, from, left);
    if left > 0 && from < s.channels[ch].current && Due(s, ch, policy, from + 1) {
      DueEnds(s, ch, policy, reach, from + 1, left - 1);
    }
  }

  lemma ReachIsDue(s: Store, ch: Channel, policy: Policy, from: nat, left: nat)
    requires Shape(s) && ch in s.channels
    requires s.channels[ch].expiredThrough <= from <= s.channels[ch].current
    ensures DueUpTo(s, ch, policy, from, left, Reach(s, ch, policy, from, BytesAfter(s, ch, from), left))
  {
    var reach := (x: nat, l: nat) => Reach(s, ch, policy, x, BytesAfter(s, ch, x), l);
    forall x: nat, l: nat | from <= x <= s.channels[ch].current ensures MovesOverDue(s, ch, policy, reach, x, l) {
      NextIsStored(s, ch, x);
      if l == 0 || x == s.channels[ch].current {
        ReachEnds(s, ch, policy, x, BytesAfter(s, ch, x), l);
      } else {
        ReachDue(s, ch, policy, x, l);
      }
    }
    DueEnds(s, ch, policy, reach, from, left);
  }

  lemma TotalIsBeyond(s: Store, ch: Channel)
    requires Shape(s) && ch in s.channels
    ensures TotalSize(s.donations, ch) == BytesAfter(s, ch, s.channels[ch].expiredThrough)
  {
    ExpiredPayloads(s, ch, s.channels[ch].expiredThrough);
  }

  lemma ExpiredToPrefix(s: Store, ch: Channel, through: nat)
    requires ch in s.channels && s.channels[ch].expiredThrough <= through
    ensures ExpiredTo(s, ch, through).channels == s.channels[ch := s.channels[ch].(expiredThrough := through)]
  {
  }

  /** An expiry drops payloads in offset order as long as they are due, at most five hundred of them. */
  lemma ExpiryIsExact(s: Store, ch: Channel, policy: Policy)
    requires Shape(s)
    ensures Expire(s, ch, policy).1.Ok? <==>
              0 <= policy.minAge <= policy.maxAge && 0 < policy.maxBytes && ch in s.channels
    ensures Expire(s, ch, policy).1.Err? ==> Expire(s, ch, policy).0 == s
    ensures Expire(s, ch, policy).1.Ok? ==>
              && ch in Expire(s, ch, policy).0.channels
              && DueUpTo(s, ch, policy, s.channels[ch].expiredThrough, 500,
                         Expire(s, ch, policy).0.channels[ch].expiredThrough)
  {
    if policy.WellFormed() && ch in s.channels {
      var from := s.channels[ch].expiredThrough;
      TotalIsBeyond(s, ch);
      ReachIsDue(s, ch, policy, from, EXPIRE_BATCH);
      ExpiredToPrefix(s, ch, Reach(s, ch, policy, from, TotalSize(s.donations, ch), EXPIRE_BATCH));
    }
  }

  /** Only the payloads up to an offset are gone, and the expired prefix ends there. */
  ghost predicate DropsUpTo(s: Store, t: Store, ch: Channel, through: nat)
    requires ch in s.channels
  {
    && t == s.(donations := t.donations, channels := t.channels) && t.donations.Keys == s.donations.Keys
    && t.channels == s.channels[ch := s.channels[ch].(expiredThrough := through)]
    && (forall e :: e in s.donations ==>
          t.donations[e] == if s.donations[e].channel == ch && s.donations[e].offset <= through
                            then s.donations[e].(payload := None) else s.donations[e])
  }

  lemma ExpiredToDrops(s: Store, ch: Channel, through: nat)
    requires Shape(s) && ch in s.channels && s.channels[ch].expiredThrough <= through
    ensures DropsUpTo(s, ExpiredTo(s, ch, through), ch, through)
  {
    forall e | e in s.donations
      ensures s.donations[e].channel == ch ==> s.donations[e].generation == s.channels[ch].generation
      ensures s.donations[e].channel == ch && s.donations[e].offset <= s.channels[ch].expiredThrough ==>
                s.donations[e].(payload := None) == s.donations[e]
    {
      assert RowShape(s, e);
    }
  }

  /** It keeps every row, and exactly the payloads of the channel that are past the new expired prefix. */
  lemma ExpiryKeepsRows(s: Store, ch: Channel, policy: Policy)
    requires Shape(s) && Expire(s, ch, policy).1.Ok?
    ensures ch in s.channels && ch in Expire(s, ch, policy).0.channels
    ensures DropsUpTo(s, Expire(s, ch, policy).0, ch, Expire(s, ch, policy).0.channels[ch].expiredThrough)
  {
    var through := Reach(s, ch, policy, s.channels[ch].expiredThrough, TotalSize(s.donations, ch), EXPIRE_BATCH);
    ReachBounded(s, ch, policy, s.channels[ch].expiredThrough, TotalSize(s.donations, ch), EXPIRE_BATCH);
    ExpiredToDrops(s, ch, through);
  }

  // ---- Unforced expiry ----

  /** Without a forced row, expiry reaches only what every consumer has settled. */
  lemma {:induction false} UnforcedReach(s: Store, ch: Channel, policy: Policy, from: nat, total: int, left: nat)
    requires Shape(s) && ch in s.channels && Unforced(s, ch, policy) && total <= policy.maxBytes
    requires s.channels[ch].expiredThrough <= from
    ensures var r := Reach(s, ch, policy, from, total, left);
            r == from || Acknowledged(s, ch, r)
    decreases left
  {
    if left > 0 && Stored(s.donations, ch, from + 1) {
      var row := RowAt(s.donations, ch, from + 1);
      var e :| At(s.donations, ch, from + 1, e) && s.donations[e] == row;
      assert RowShape(s, e);
      assert e in Payloads(s.donations, ch);
      UnforcedReach(s, ch, policy, from + 1, total - row.size, left - 1);
    }
  }

  ghost predicate Retained(y: Sys) {
    forall k :: k in y.s.consumers && k.channel in y.s.channels && k.channel !in y.h.forced ==>
      y.s.channels[k.channel].expiredThrough <= y.s.consumers[k].Settled()
  }

  lemma ExpiredToKeepsRetained(y: Sys, z: Sys, ch: Channel, through: nat)
    requires Retained(y) && ch in y.s.channels && z.s == ExpiredTo(y.s, ch, through) && y.h.forced <= z.h.forced
    requires ch !in z.h.forced ==> through == y.s.channels[ch].expiredThrough || Acknowledged(y.s, ch, through)
    ensures Retained(z)
  {
  }

  lemma ExpiringKeepsRetained(y: Sys, ch: Channel, policy: Policy)
    requires Retained(y) && Shape(y.s)
    ensures Retained(Step(y, Expiring(ch, policy)))
  {
    var s, z := y.s, Step(y, Expiring(ch, policy));
    if Expire(s, ch, policy).1.Ok? {
      var from, total := s.channels[ch].expiredThrough, TotalSize(s.donations, ch);
      if Unforced(s, ch, policy) {
        UnforcedReach(s, ch, policy, from, total, EXPIRE_BATCH);
      }
      ExpiredToKeepsRetained(y, z, ch, Reach(s, ch, policy, from, total, EXPIRE_BATCH));
    } else {
      assert z.s == s;
    }
  }

  /** Consumer transactions leave every cursor at or beyond the expired prefix. */
  lemma CursorsKeepRetained(y: Sys, op: Op)
    requires Retained(y) && Shape(y.s) && (op.Reading? || op.Acking? || op.Recovering?)
    ensures Retained(Step(y, op))
  {
    ReadersKeepRows(y.s, op);
    var t := Next(y.s, op);
    forall k | k in t.consumers && k.channel in t.channels && k.channel !in y.h.forced
      ensures t.channels[k.channel].expiredThrough <= t.consumers[k].Settled()
    {
      CursorStays(y.s, op, k);
    }
  }

  /** A consumer's settled offset never falls below what it was, nor below the expired prefix. */
  predicate KeepsUp(s: Store, t: Store, k: ConsumerKey)
    requires k in t.consumers
  {
    (k in s.consumers && s.consumers[k].Settled() <= t.consumers[k].Settled())
    || (k.channel in s.channels && s.channels[k.channel].expiredThrough <= t.consumers[k].Settled())
  }

  lemma CursorStays(s: Store, op: Op, k: ConsumerKey)
    requires Shape(s) && (op.Reading? || op.Acking? || op.Recovering?) && k in Next(s, op).consumers
    ensures KeepsUp(s, Next(s, op), k)
  {
    match op
    case Reading(j, gen, after, rev, limit) => ReadCursorStays(s, j, gen, after, rev, limit, k);
    case Acking(j, gen, offset, rev) => AckCursorStays(s, j, gen, offset, rev, k);
    case Recovering(rk, prev, next, resume, exp, body) =>
      if Resolve(s, rk, prev, next, resume, exp, body).1.Err? { assert Next(s, op) == s; }
  }

  lemma ReadCursorStays(s: Store, j: ConsumerKey, gen: Name, after: nat, rev: nat, limit: int, k: ConsumerKey)
    requires k in Read(s, j, gen, after, rev, limit).0.consumers
    ensures KeepsUp(s, Read(s, j, gen, after, rev, limit).0, k)
  {
    var (t, r) := Read(s, j, gen, after, rev, limit);
    if r.Err? {
      assert t == s;
    } else if k == j {
      ReadSettles(s, j, gen, after, rev, limit);
    }
  }

  lemma AckCursorStays(s: Store, j: ConsumerKey, gen: Name, offset: nat, rev: nat, k: ConsumerKey)
    requires k in Ack(s, j, gen, offset, rev).0.consumers
    ensures KeepsUp(s, Ack(s, j, gen, offset, rev).0, k)
  {
    var (t, r) := Ack(s, j, gen, offset, rev);
    if r.Err? {
      assert t == s;
    }
  }

  lemma ReadSettles(s: Store, k: ConsumerKey, generation: Name, after: nat, revision: nat, limit: int)
    requires Read(s, k, generation, after, revision, limit).1.Ok?
    ensures Read(s, k, generation, after, revision, limit).0.consumers[k].Settled() == ProgressOf(s, k).Settled()
  {
  }

  lemma OtherOpsKeepExpired(s: Store, op: Op, ch: Channel)
    requires !op.Expiring?
    ensures var t := Next(s, op);
            ch in t.channels ==>
              t.channels[ch].expiredThrough == if ch in s.channels then s.channels[ch].expiredThrough else 0
  {
    if OwnerOp(op) {
      OwnerOpsKeepJournal(s, op);
    } else if op.Appending? && Journals(s, op) {
      var d := Append(s, op.grant, op.donation, op.acceptedAt, op.length, op.size).1.value;
      assert Next(s, op) == Journaled(s, d, op.size);
    } else if op.Cleaning? {
      assert Next(s, op).channels == s.channels;
    } else if op.Rotating? {
      RotateKeepsExpired(s, op.channel, op.from, op.reason, op.next, ch);
    } else {
      ReadersKeepRows(s, op);
    }
  }

  lemma RotateKeepsExpired(s: Store, ch: Channel, expected: Name, reason: Name, next: Name, c: Channel)
    ensures var t := Rotate(s, ch, expected, reason, next).0;
            && t.channels.Keys == s.channels.Keys && t.consumers == s.consumers
            && (c in s.channels ==> t.channels[c].expiredThrough == s.channels[c].expiredThrough)
  {
    if Rotate(s, ch, expected, reason, next).1.Err? { assert Rotate(s, ch, expected, reason, next).0 == s; }
  }

  lemma StepKeepsRetained(y: Sys, op: Op)
    requires Retained(y) && Shape(y.s)
    ensures Retained(Step(y, op))
  {
    if op.Expiring? {
      ExpiringKeepsRetained(y, op.channel, op.policy);
    } else if op.Reading? || op.Acking? || op.Recovering? {
      CursorsKeepRetained(y, op);
    } else {
      var z := Step(y, op);
      forall k | k in z.s.consumers && k.channel in z.s.channels && k.channel !in z.h.forced
        ensures z.s.channels[k.channel].expiredThrough <= z.s.consumers[k].Settled()
      {
        OtherOpsKeepExpired(y.s, op, k.channel);
        OtherOpsKeepConsumers(y.s, op);
      }
    }
  }

  lemma OtherOpsKeepConsumers(s: Store, op: Op)
    requires !op.Expiring? && !op.Reading? && !op.Acking? && !op.Recovering?
    ensures Next(s, op).consumers == s.consumers
  {
    if OwnerOp(op) {
      OwnerOpsKeepJournal(s, op);
    }
  }
}
