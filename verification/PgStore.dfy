/** The store's transactions as they run: tables are fields, a transaction assigns them when it
    commits, and each is proved to be the journal operation of the same name. */
module PgStores {
  import opened JournalTypes
  import opened JournalOps
  import opened JournalShape
  import opened JournalQuery
  import opened JournalRetention
  import Runs = JournalRuns

  lemma CoverStep(covered: nat, ranges: seq<LossRange>, generation: Name, i: nat)
    requires i < |ranges|
    ensures Cover(covered, ranges[i..], generation) ==
            var r := ranges[i];
            if r.startGeneration != generation || r.endGeneration != generation || r.start > r.end
               || r.start > (covered + 1) % (MAX_U64 + 1) then None
            else Cover(if r.end > covered then r.end else covered, ranges[i + 1..], generation)
  {
    assert ranges[i..][0] == ranges[i] && ranges[i..][1..] == ranges[i + 1..];
  }

  /** The coverage loop over the audited loss ranges. */
  method Covers(settled: nat, resume: nat, ranges: seq<LossRange>, generation: Name) returns (ok: bool)
    ensures ok <==> Cover(settled, ranges, generation) == Some(resume)
  {
    var covered: nat := settled;
    var i := 0;
    assert ranges[0..] == ranges;
    while i < |ranges|
      invariant 0 <= i <= |ranges|
      invariant Cover(settled, ranges, generation) == Cover(covered, ranges[i..], generation)
    {
      CoverStep(covered, ranges, generation, i);
      var r := ranges[i];
      if r.startGeneration != generation || r.endGeneration != generation || r.start > r.end {
        return false;
      }
      if r.start > (covered + 1) % (MAX_U64 + 1) {
        return false;
      }
      if r.end > covered {
        covered := r.end;
      }
      i := i + 1;
    }
    return covered == resume;
  }

  /** The stored size of all payloads of the channel. */
  method SumPayloads(t: map<EventId, Row>, ch: Channel) returns (total: nat)
    ensures total == TotalSize(t, ch)
  {
    total := 0;
    var rest := Payloads(t, ch);
    while rest != {}
      invariant rest <= t.Keys
      invariant total + SumSizes(t, rest) == TotalSize(t, ch)
      decreases rest
    {
      var e :| e in rest;
      SumRemove(t, rest, e);
      total := total + t[e].size;
      rest := rest - {e};
    }
  }

  /** Every payload lies after the expired prefix, so the unbounded selection starts there. */
  lemma PayloadsFollowExpired(s: Store, ch: Channel, limit: nat, es: seq<EventId>)
    requires Shape(s) && ch in s.channels
    requires Selected(s.donations, ch, s.channels[ch].generation, -1, limit, es)
    ensures Selected(s.donations, ch, s.channels[ch].generation, s.channels[ch].expiredThrough, limit, es)
  {
    var c := s.channels[ch];
    forall e
      ensures Matches(s.donations, ch, c.generation, -1, e) <==>
            Matches(s.donations, ch, c.generation, c.expiredThrough, e)
    {
      if e in s.donations { assert RowShape(s, e); }
    }
  }

  lemma HeldRow(s: Store, ch: Channel, offset: nat, e: EventId)
    requires Shape(s) && At(s.donations, ch, offset, e)
    ensures Stored(s.donations, ch, offset) && RowAt(s.donations, ch, offset) == s.donations[e]
  {
  }

  lemma NothingPastCurrent(s: Store, ch: Channel)
    requires Shape(s) && ch in s.channels
    ensures !Stored(s.donations, ch, s.channels[ch].current + 1)
  {
    var past := s.channels[ch].current + 1;
    forall e ensures !At(s.donations, ch, past, e) {
      if e in s.donations { assert RowShape(s, e); }
    }
  }

  /** Row `i` is the payload of the i-th offset after the expired prefix. */
  ghost predicate IsCandidate(s: Store, ch: Channel, rows: seq<Row>, i: int)
    requires ch in s.channels && 0 <= i < |rows|
  {
    var o := s.channels[ch].expiredThrough + 1 + i;
    Stored(s.donations, ch, o) && rows[i] == RowAt(s.donations, ch, o) && rows[i].offset == o
  }

  /** The rows of the next offsets after the expired prefix: a full batch, or all there are. */
  ghost predicate Batch(s: Store, ch: Channel, rows: seq<Row>)
    requires ch in s.channels
  {
    && |rows| <= EXPIRE_BATCH
    && (forall i :: 0 <= i < |rows| ==> IsCandidate(s, ch, rows, i))
    && (|rows| < EXPIRE_BATCH ==> !Stored(s.donations, ch, s.channels[ch].expiredThrough + 1 + |rows|))
  }

  lemma CandidateStep(s: Store, ch: Channel, policy: Policy, rows: seq<Row>, i: nat, total: int)
    requires ch in s.channels && Batch(s, ch, rows) && i < |rows|
    ensures var from, v := s.channels[ch].expiredThrough + i, rows[i];
            && v.offset == from + 1
            && Reach(s, ch, policy, from, total, EXPIRE_BATCH - i) ==
               if Expirable(s, ch, v.offset, v.storedAt, total, policy)
               then Reach(s, ch, policy, from + 1, total - v.size, EXPIRE_BATCH - i - 1) else from
  {
    assert IsCandidate(s, ch, rows, i);
    ReachStep(s, ch, policy, s.channels[ch].expiredThrough + i, total, EXPIRE_BATCH - i);
  }

  lemma NoMoreCandidates(s: Store, ch: Channel, policy: Policy, rows: seq<Row>, total: int)
    requires ch in s.channels && Batch(s, ch, rows)
    ensures Reach(s, ch, policy, s.channels[ch].expiredThrough + |rows|, total, EXPIRE_BATCH - |rows|)
            == s.channels[ch].expiredThrough + |rows|
  {
  }

  /** The expiry loop: it stops at the first candidate that is neither forced nor old and settled. */
  method ExpireLoop(s: Store, ch: Channel, policy: Policy, candidates: seq<Row>, sum: int) returns (through: nat)
    requires ch in s.channels && Batch(s, ch, candidates)
    ensures through == Reach(s, ch, policy, s.channels[ch].expiredThrough, sum, EXPIRE_BATCH)
  {
    ghost var goal := Reach(s, ch, policy, s.channels[ch].expiredThrough, sum, EXPIRE_BATCH);
    through := s.channels[ch].expiredThrough;
    var total := sum;
    var i := 0;
    var going := true;
    while i < |candidates| && going
      invariant 0 <= i <= |candidates| && through == s.channels[ch].expiredThrough + i
      invariant goal == if going then Reach(s, ch, policy, through, total, EXPIRE_BATCH - i) else through
      decreases |candidates| - i, going
    {
      var v := candidates[i];
      CandidateStep(s, ch, policy, candidates, i, total);
      going := Expirable(s, ch, v.offset, v.storedAt, total, policy);
      if going {
        through := v.offset;
        total := total - v.size;
        i := i + 1;
      }
    }
    NoMoreCandidates(s, ch, policy, candidates, total);
  }

  /** The candidate rows of an expiry: the first payloads after the expired prefix. */
  method Candidates(s: Store, ch: Channel) returns (rows: seq<Row>)
    requires Shape(s) && ch in s.channels
    ensures Batch(s, ch, rows)
  {
    var c := s.channels[ch];
    var es := Select(s.donations, ch, c.generation, -1, EXPIRE_BATCH);
    PayloadsFollowExpired(s, ch, EXPIRE_BATCH, es);
    SelectedIsNext(s, ch, c.expiredThrough, EXPIRE_BATCH, es);
    rows := seq(|es|, i requires 0 <= i < |es| => s.donations[es[i]]);
    forall i | 0 <= i < |rows| ensures IsCandidate(s, ch, rows, i) {
      assert Holds(s.donations, es[i], c.expiredThrough + 1 + i);
      SelectedRow(s, ch, es, i);
    }
    NothingPastCurrent(s, ch);
  }

  lemma SelectedRow(s: Store, ch: Channel, es: seq<EventId>, i: nat)
    requires Shape(s) && ch in s.channels && Selected(s.donations, ch, s.channels[ch].generation, -1, EXPIRE_BATCH, es)
    requires i < |es|
    requires Holds(s.donations, es[i], s.channels[ch].expiredThrough + 1 + i)
    ensures var o := s.channels[ch].expiredThrough + 1 + i;
            es[i] in s.donations && Stored(s.donations, ch, o) && s.donations[es[i]] == RowAt(s.donations, ch, o)
            && s.donations[es[i]].offset == o
  {
    assert Matches(s.donations, ch, s.channels[ch].generation, -1, es[i]);
    HeldRow(s, ch, s.channels[ch].expiredThrough + 1 + i, es[i]);
  }

  /** `rows` are the stored events of the offsets right after `after`, in order. */
  ghost predicate NextEvents(s: Store, ch: Channel, after: nat, rows: seq<Donation>)
    requires ch in s.channels
  {
    forall i :: 0 <= i < |rows| ==>
      && rows[i].offset == after + 1 + i && rows[i].generation == s.channels[ch].generation
      && At(s.donations, ch, after + 1 + i, rows[i].eventId)
      && s.donations[rows[i].eventId].payload == Some(rows[i])
  }

  /** What a run records as delivered is exactly the rows a read returns. */
  lemma DeliveriesAreReturned(s: Store, k: ConsumerKey, after: nat, rows: seq<Donation>)
    requires Shape(s) && k.channel in s.channels && NextEvents(s, k.channel, after, rows)
    ensures Runs.Deliveries(s, k, after, after + |rows|) == set r | r in rows :: Runs.Delivery(k, r.offset, r.eventId)
  {
    var returned := set r | r in rows :: Runs.Delivery(k, r.offset, r.eventId);
    forall d | d in Runs.Deliveries(s, k, after, after + |rows|) ensures d in returned {
      var e :| e in s.donations && s.donations[e].channel == k.channel
               && after < s.donations[e].offset <= after + |rows|
               && d == Runs.Delivery(k, s.donations[e].offset, e);
      var r := rows[s.donations[e].offset - after - 1];
      assert At(s.donations, k.channel, r.offset, r.eventId) && At(s.donations, k.channel, r.offset, e);
      assert r in rows;
    }
    forall d | d in returned ensures d in Runs.Deliveries(s, k, after, after + |rows|) {
      var r :| r in rows && d == Runs.Delivery(k, r.offset, r.eventId);
      var i :| 0 <= i < |rows| && rows[i] == r;
      assert At(s.donations, k.channel, after + 1 + i, r.eventId);
    }
  }

  /** The delivery loop: payloads in offset order, stopping at the first that is not the next offset. */
  method Deliver(s: Store, ch: Channel, after: nat, limit: nat)
    returns (rows: seq<Donation>, next: nat, contiguous: bool)
    requires Shape(s) && ch in s.channels && s.channels[ch].expiredThrough <= after <= s.channels[ch].current
    ensures contiguous
    ensures next == after + |rows|
    ensures |rows| == if s.channels[ch].current - after < limit then s.channels[ch].current - after else limit
    ensures NextEvents(s, ch, after, rows)
  {
    var es := Select(s.donations, ch, s.channels[ch].generation, after, limit);
    SelectedIsNext(s, ch, after, limit, es);
    rows, next, contiguous := [], after, true;
    var i := 0;
    while i < |es| && contiguous
      invariant 0 <= i <= |es| && contiguous && |rows| == i && next == after + i
      invariant forall j :: 0 <= j < i ==> rows[j].eventId == es[j] && s.donations[es[j]].payload == Some(rows[j])
    {
      assert Holds(s.donations, es[i], after + 1 + i) && RowShape(s, es[i]);
      var d := s.donations[es[i]].payload.value;
      contiguous := d.offset == next + 1;
      next := d.offset;
      rows := rows + [d];
      i := i + 1;
    }
    forall j | 0 <= j < |rows|
      ensures rows[j].offset == after + 1 + j && rows[j].generation == s.channels[ch].generation
      ensures At(s.donations, ch, after + 1 + j, rows[j].eventId)
      ensures s.donations[rows[j].eventId].payload == Some(rows[j])
    {
      assert Holds(s.donations, es[j], after + 1 + j) && RowShape(s, es[j]);
      assert Matches(s.donations, ch, s.channels[ch].generation, after, es[j]);
    }
  }

  /** The cursor is one the consumer may read from; an unknown consumer starts at the expired prefix. */
  predicate ReadableAt(s: Store, k: ConsumerKey, generation: Name, after: nat, revision: nat) {
    && k.channel in s.channels && generation == s.channels[k.channel].generation
    && s.channels[k.channel].expiredThrough <= after <= s.channels[k.channel].current
    && if k in s.consumers
       then s.consumers[k].generation == generation && s.consumers[k].revision == revision
            && s.consumers[k].baseline <= after <= s.consumers[k].offered
       else after == s.channels[k.channel].expiredThrough && revision == 0
  }

  /** A read returned as many rows as there are, up to the limit or its default of 100, and its consumer,
      new or not, has been offered all of them. Nothing else changed. */
  ghost predicate Offers(s: Store, t: Store, k: ConsumerKey, after: nat, limit: int, n: nat) {
    && k.channel in s.channels && k in t.consumers && t == s.(consumers := s.consumers[k := t.consumers[k]])
    && after <= s.channels[k.channel].current
    && n == Min(s.channels[k.channel].current - after, if 1 <= limit <= 500 then limit else 100)
    && (k in s.consumers ==>
          t.consumers[k] == s.consumers[k].(offered := Max(s.consumers[k].offered, after + n)))
    && (k !in s.consumers ==>
          && t.consumers[k].baseline == s.channels[k.channel].expiredThrough && t.consumers[k].offered == after + n
          && t.consumers[k].generation == s.channels[k.channel].generation
          && t.consumers[k].ack.None? && t.consumers[k].revision == 0)
  }

  lemma ReadMeans(s: Store, k: ConsumerKey, generation: Name, after: nat, revision: nat, limit: int, p: Progress,
                  n: nat)
    requires ReadableAt(s, k, generation, after, revision) && p == ProgressOf(s, k)
    requires n == Min(s.channels[k.channel].current - after, if 1 <= limit <= 500 then limit else 100)
    ensures var next := after + n;
            var t := s.(consumers := s.consumers[k := if next > p.offered then p.(offered := next) else p]);
            Read(s, k, generation, after, revision, limit) == (t, Ok(next)) && Offers(s, t, k, after, limit, n)
  {
  }

  function Min(a: nat, b: nat): nat { if a < b then a else b }

  function Max(a: nat, b: nat): nat { if a < b then b else a }

  class PgStore {
    const allowed: set<Channel>
    var optedOut: set<Channel>
    var workers: map<Channel, Name>
    var channels: map<Channel, ChannelRow>
    var grants: map<Token, Grant>
    var donations: map<EventId, Row>
    var outbox: map<EventId, OutboxRow>
    var consumers: map<ConsumerKey, Progress>
    var subscriptions: map<RequestKey, SubscriptionRecord>
    var recoveries: map<RequestKey, RecoveryRecord>
    var audit: seq<AuditRow>

    constructor (allowed: set<Channel>)
      ensures this.allowed == allowed
      ensures forall now ::
                View(now) == Store(now, allowed, {}, map[], map[], map[], map[], map[], map[], map[], map[], [])
    {
      this.allowed := allowed;
      optedOut, workers, channels, grants, donations, outbox := {}, map[], map[], map[], map[], map[];
      consumers, subscriptions, recoveries, audit := map[], map[], map[], [];
    }

    /** The committed tables, as seen at `now`. */
    function View(now: Time): (s: Store)
      reads this
    {
      Store(now, allowed, optedOut, workers, channels, grants, donations, outbox, consumers, subscriptions, recoveries,
            audit)
    }

    method EnsureCollection(ch: Channel, generation: Name, now: Time) returns (r: Result<()>)
      modifies this`channels
      ensures (View(now), r) == JournalOps.EnsureCollection(old(View(now)), ch, generation)
    {
      if ch.text == "" { return Ok(()); }
      if ch !in allowed { return Err(Disabled); }
      if ch !in channels {
        channels := channels[ch := ChannelRow(generation, 0, 0, true, None)];
      }
      return Ok(());
    }

    method AcquireCollection(ch: Channel, worker: Name, token: Token, now: Time) returns (r: Result<OwnerGrant>)
      modifies this
      ensures (View(now), r) == Acquire(old(View(now)), ch, worker, token)
    {
      if ch !in allowed { return Err(Disabled); }
      if ch !in channels { return Err(NotFound); }
      var c := channels[ch];
      if !(c.subscribed && ch !in optedOut) { return Err(Disabled); }
      if !(ch in workers && workers[ch] == worker) { return Err(Owner); }
      if c.owner.Some? {
        if c.owner.value !in grants { return Err(NotFound); }
        var valid := grants[c.owner.value].validUntil > now && grants[c.owner.value].closedAt.None?;
        if valid { return Err(Owner); }
      }
      if token in grants { return Err(Duplicate); }
      grants := grants[token := Grant(ch, worker, c.generation, now, now + 30 * SECOND, None)];
      channels := channels[ch := c.(owner := Some(token))];
      return Ok(OwnerGrant(token, ch, c.generation));
    }

    method RenewCollection(g: OwnerGrant, now: Time) returns (r: Result<Time>)
      modifies this
      ensures (View(now), r) == Renew(old(View(now)), g)
    {
      if g.channel !in channels { return Err(NotFound); }
      var c := channels[g.channel];
      if c.owner.None? || c.owner.value != g.token || c.generation != g.generation { return Err(Owner); }
      if !(c.subscribed && g.channel !in optedOut) { return Err(Disabled); }
      if g.token !in grants { return Err(Owner); }
      var row := grants[g.token];
      if row.closedAt.Some? || row.validUntil <= now { return Err(Owner); }
      if !(row.channel in workers && workers[row.channel] == row.worker) { return Err(Owner); }
      var until := now + 30 * SECOND;
      grants := grants[g.token := row.(validUntil := until)];
      return Ok(until);
    }

    method ReleaseCollection(g: OwnerGrant, now: Time)
      modifies this`grants
      ensures View(now) == Release(old(View(now)), g.token)
    {
      if g.token in grants && grants[g.token].closedAt.None? {
        grants := grants[g.token := grants[g.token].(closedAt := Some(now))];
      } else if g.token in grants {
        assert grants[g.token := grants[g.token]] == grants;
      }
    }

    /** An append with its original grant: a replay of a stored event changes nothing. */
    method AppendDonation(g: OwnerGrant, d: Donation, acceptedAt: Time, length: nat, size: nat, now: Time)
      returns (r: Result<Donation>)
      modifies this
      ensures (View(now), r) == Append(old(View(now)), g, d, acceptedAt, length, size)
    {
      if !d.Acceptable() { return Err(Invalid); }
      if acceptedAt < now - 30 * DAY { return Err(CursorExpired); }
      if d.channelId != g.channel || d.channelId !in allowed { return Err(Disabled); }
      if d.channelId !in channels { return Err(NotFound); }
      var c := channels[d.channelId];
      if g.generation != c.generation { return Err(Generation); }
      if d.eventId in donations {
        var kept := donations[d.eventId].payload;
        if kept.None? { return Err(CursorExpired); }
        if !kept.value.SameObservation(d) { return Err(Conflict); }
        return Ok(kept.value);
      }
      if !(c.subscribed && d.channelId !in optedOut) { return Err(Disabled); }
      if g.token !in grants { return Err(Owner); }
      var row := grants[g.token];
      var valid := row.channel == g.channel && row.generation == g.generation
        && row.grantedAt <= acceptedAt <= row.validUntil
        && (row.closedAt.None? || acceptedAt <= row.closedAt.value) && acceptedAt <= now + SECOND;
      if !valid { return Err(Owner); }
      if c.current == MAX_U64 { return Err(Exhausted); }
      if d.hasSource { return Err(Invalid); }
      var held := SumPayloads(donations, d.channelId);
      if held + length > JOURNAL_BYTES { return Err(JournalFull); }
      var stored := d.(generation := c.generation, offset := c.current + 1);
      donations := donations[d.eventId := Row(d.channelId, c.generation, stored.offset, Some(stored), size, now)];
      outbox := outbox[d.eventId := OutboxRow(d.channelId, now)];
      channels := channels[d.channelId := c.(current := stored.offset)];
      return Ok(stored);
    }

    /** A read at a valid cursor returns exactly the next events, in offset order. */
    method ReadDonations(k: ConsumerKey, generation: Name, after: nat, revision: nat, limit: int, now: Time)
      returns (r: Result<seq<Donation>>)
      requires Shape(View(now))
      modifies this`consumers
      ensures View(now) == Read(old(View(now)), k, generation, after, revision, limit).0
      ensures match Read(old(View(now)), k, generation, after, revision, limit).1
              case Err(e) => r == Err(e)
              case Ok(through) =>
                r.Ok? && |r.value| == through - after && NextEvents(old(View(now)), k.channel, after, r.value)
      ensures r.Ok? <==> ReadableAt(old(View(now)), k, generation, after, revision)
      ensures r.Ok? ==> Offers(old(View(now)), View(now), k, after, limit, |r.value|)
    {
      var error := CheckCursor(k, generation, after, revision, limit, now);
      if error.Some? { return Err(error.value); }
      var c := channels[k.channel];
      var p := if k in consumers then consumers[k]
               else Progress(generation, c.expiredThrough, c.expiredThrough, None, 0);
      var n := if limit < 1 || limit > 500 then 100 else limit;
      var rows, next, contiguous := Deliver(View(now), k.channel, after, n);
      ReadMeans(View(now), k, generation, after, revision, limit, p, |rows|);
      r := if contiguous then Ok(rows) else Err(CursorExpired);
      if r.Ok? {
        consumers := consumers[k := if next > p.offered then p.(offered := next) else p];
      }
    }

    /** The checks of a read, in order. */
    method CheckCursor(k: ConsumerKey, generation: Name, after: nat, revision: nat, limit: int, now: Time)
      returns (error: Option<Error>)
      ensures error.None? <==> ReadableAt(View(now), k, generation, after, revision)
      ensures match Read(View(now), k, generation, after, revision, limit).1
              case Err(e) => error == Some(e)
              case Ok(_) => error.None?
    {
      if k.channel !in channels { return Some(NotFound); }
      var c := channels[k.channel];
      if generation != c.generation { return Some(Generation); }
      if after < c.expiredThrough { return Some(CursorExpired); }
      if after > c.current { return Some(Cursor); }
      var p := if k in consumers then consumers[k]
               else Progress(generation, c.expiredThrough, c.expiredThrough, None, 0);
      if p.generation != generation { return Some(Generation); }
      if p.revision != revision { return Some(Revision); }
      if after < p.baseline || after > p.offered { return Some(Cursor); }
      return None;
    }

    method AckDonations(k: ConsumerKey, generation: Name, offset: nat, revision: nat, now: Time) returns (r: Result<()>)
      modifies this`consumers
      ensures (View(now), r) == Ack(old(View(now)), k, generation, offset, revision)
    {
      if k.channel !in channels { return Err(NotFound); }
      var c := channels[k.channel];
      if c.generation != generation { return Err(Generation); }
      if offset < c.expiredThrough { return Err(CursorExpired); }
      if k !in consumers { return Err(Cursor); }
      var p := consumers[k];
      if p.generation != generation { return Err(Generation); }
      if p.revision != revision { return Err(Revision); }
      if offset <= p.baseline || offset > p.offered || (p.ack.Some? && offset < p.ack.value) { return Err(Cursor); }
      consumers := consumers[k := p.(ack := Some(offset))];
      return Ok(());
    }

    method SetSubscription(rk: RequestKey, enabled: bool, now: Time) returns (r: Result<bool>)
      modifies this
      ensures (View(now), r) == Subscribe(old(View(now)), rk, enabled)
    {
      if rk.key.text == "" || |rk.key.text| > 200 { return Err(Cursor); }
      if rk.channel !in channels { return Err(NotFound); }
      if rk in subscriptions {
        if subscriptions[rk].enabled != enabled { return Err(Conflict); }
        return Ok(subscriptions[rk].enabled);
      }
      if enabled && rk.channel in optedOut { return Err(Disabled); }
      channels := channels[rk.channel := channels[rk.channel].(subscribed := enabled)];
      if !enabled {
        grants := CloseChannel(grants, rk.channel, now);
      }
      subscriptions := subscriptions[rk := SubscriptionRecord(enabled, now)];
      return Ok(enabled);
    }

    method ResolveRecovery(rk: RequestKey, previous: Name, next: Name, resume: nat, expected: nat,
                           request: RecoveryRequest, now: Time) returns (r: Result<RecoveryDecision>)
      modifies this
      ensures (View(now), r) == Resolve(old(View(now)), rk, previous, next, resume, expected, request)
    {
      var k := ConsumerKey(rk.consumer, rk.channel);
      if rk.channel !in channels { return Err(NotFound); }
      if rk in recoveries {
        if recoveries[rk].request != request { return Err(Conflict); }
        return Ok(recoveries[rk].decision);
      }
      var c := channels[rk.channel];
      if next != c.generation { return Err(Generation); }
      if resume < c.expiredThrough || resume > c.current { return Err(Cursor); }
      var p := if k in consumers then consumers[k] else Progress(previous, 0, 0, None, 0);
      if p.generation != previous { return Err(Generation); }
      if expected == MAX_U64 { return Err(Revision); }
      if expected != p.revision { return Err(Revision); }
      var settled := if p.ack.Some? then p.ack.value else p.baseline;
      if previous == next && resume < settled { return Err(Cursor); }
      if previous == next && resume > settled {
        if request.ranges.None? { return Err(Cursor); }
        var covered := Covers(settled, resume, request.ranges.value, previous);
        if !covered { return Err(Cursor); }
      }
      var decision := RecoveryDecision(previous, next, settled, resume, expected + 1);
      consumers := consumers[k := Progress(next, resume, resume, None, expected + 1)];
      recoveries := recoveries[rk := RecoveryRecord(request, decision, now)];
      audit := audit + [RecoveryAudit(rk.consumer, rk.channel, request, decision, now)];
      return Ok(decision);
    }

    method ExpireDonations(ch: Channel, policy: Policy, now: Time) returns (r: Result<()>)
      requires Shape(View(now))
      modifies this`channels, this`donations
      ensures (View(now), r) == Expire(old(View(now)), ch, policy)
    {
      if policy.minAge < 0 || policy.maxAge < policy.minAge || policy.maxBytes <= 0 { return Err(Invalid); }
      if ch !in channels { return Err(NotFound); }
      var c := channels[ch];
      var s := View(now);
      var total := SumPayloads(donations, ch);
      var candidates := Candidates(s, ch);
      var through := ExpireLoop(s, ch, policy, candidates, total);
      if through > c.expiredThrough {
        donations := Dropped(donations, ch, c.generation, through);
        channels := channels[ch := c.(expiredThrough := through)];
      }
      return Ok(());
    }

    method DeleteOld(ch: Channel, now: Time)
      modifies this
      ensures View(now) == Cleanup(old(View(now)), ch)
    {
      DeleteRows(ch, now);
      DeleteRecords(ch, now);
    }

    /** Outbox rows, tombstones and grants. */
    method DeleteRows(ch: Channel, now: Time)
      modifies this
      ensures View(now) == CleanRows(old(View(now)), ch)
    {
      var limit := now - 90 * DAY;
      var owner := if ch in channels then channels[ch].owner else None;
      outbox := OutboxLeft(outbox, ch, limit);
      donations := RowsLeft(donations, outbox, ch, limit);
      grants := GrantsLeft(grants, owner, ch, limit);
    }

    /** Saved requests and audit rows. */
    method DeleteRecords(ch: Channel, now: Time)
      modifies this
      ensures View(now) == CleanRecords(old(View(now)), ch)
    {
      subscriptions := SubscriptionsLeft(subscriptions, ch, now - 90 * DAY);
      recoveries := RecoveriesLeft(recoveries, ch, now - 90 * DAY);
      audit := AuditLeft(audit, ch, now - 365 * DAY);
    }

    /** One maintenance pass: expiry by the product's limits, then the deletions. */
    method MaintainCollection(ch: Channel, now: Time) returns (r: Result<()>)
      requires Shape(View(now))
      modifies this
      ensures var policy := Policy(7 * DAY, 30 * DAY, 0x4000_0000 - 0x10_0000);
              r == Expire(old(View(now)), ch, policy).1
              && View(now) == if r.Ok? then Cleanup(Expire(old(View(now)), ch, policy).0, ch) else old(View(now))
    {
      r := ExpireDonations(ch, Policy(7 * DAY, 30 * DAY, 0x4000_0000 - 0x10_0000), now);
      if r.Ok? {
        DeleteOld(ch, now);
      }
    }

    method RotateJournal(ch: Channel, expected: Name, reason: Name, next: Name, now: Time) returns (r: Result<Name>)
      modifies this
      ensures (View(now), r) == Rotate(old(View(now)), ch, expected, reason, next)
    {
      if ch.text == "" || expected.text == "" || reason.text == "" { return Err(Invalid); }
      if ch !in channels { return Err(NotFound); }
      if channels[ch].generation != expected { return Err(Generation); }
      grants := CloseChannel(grants, ch, now);
      donations := Regenerated(donations, ch, expected, next);
      channels := channels[ch := channels[ch].(generation := next, owner := None)];
      audit := audit + [RestoreAudit(ch, reason, expected, next, now)];
      return Ok(next);
    }
  }
}
