/** Each journal transaction as a function from the committed store to the next committed store and
    the caller's result. A failed transaction rolls back, so it returns the store unchanged. */
module JournalOps {
  import opened JournalTypes

  // ---- Channels and owner grants ----

  function EnsureCollection(s: Store, ch: Channel, generation: Name): (Store, Result<()>) {
    if ch.text == "" then (s, Ok(()))
    else if ch !in s.allowed then (s, Err(Disabled))
    else if ch in s.channels then (s, Ok(()))
    else (s.(channels := s.channels[ch := ChannelRow(generation, 0, 0, true, None)]), Ok(()))
  }

  function Acquire(s: Store, ch: Channel, worker: Name, token: Token): (Store, Result<OwnerGrant>) {
    if ch !in s.allowed then (s, Err(Disabled))
    else if ch !in s.channels then (s, Err(NotFound))
    else if !s.Collecting(ch) then (s, Err(Disabled))
    else if !(ch in s.workers && s.workers[ch] == worker) then (s, Err(Owner))
    else
      var c := s.channels[ch];
      if c.owner.Some? && c.owner.value !in s.grants then (s, Err(NotFound))
      else if c.owner.Some? && s.grants[c.owner.value].Live(s.clock) then (s, Err(Owner))
      else if token in s.grants then (s, Err(Duplicate))
      else
        var g := Grant(ch, worker, c.generation, s.clock, s.clock + GRANT_LIFE, None);
        (s.(grants := s.grants[token := g], channels := s.channels[ch := c.(owner := Some(token))]),
         Ok(OwnerGrant(token, ch, c.generation)))
  }

  function Renew(s: Store, g: OwnerGrant): (Store, Result<Time>) {
    if g.channel !in s.channels then (s, Err(NotFound))
    else
      var c := s.channels[g.channel];
      if c.owner != Some(g.token) || c.generation != g.generation then (s, Err(Owner))
      else if !s.Collecting(g.channel) then (s, Err(Disabled))
      else if g.token !in s.grants then (s, Err(Owner))
      else
        var row := s.grants[g.token];
        if !row.Live(s.clock) || !(row.channel in s.workers && s.workers[row.channel] == row.worker)
        then (s, Err(Owner))
        else
          var until := s.clock + GRANT_LIFE;
          (s.(grants := s.grants[g.token := row.(validUntil := until)]), Ok(until))
  }

  function Release(s: Store, token: Token): Store {
    if token !in s.grants then s
    else s.(grants := s.grants[token := s.grants[token].Close(s.clock)])
  }

  function CloseChannel(grants: map<Token, Grant>, ch: Channel, now: Time): map<Token, Grant> {
    map t | t in grants :: if grants[t].channel == ch then grants[t].Close(now) else grants[t]
  }

  // ---- Appending ----

  ghost function SumSizes(t: map<EventId, Row>, es: set<EventId>): nat
    requires es <= t.Keys
    decreases |es|
  {
    if es == {} then 0
    else
      var e :| e in es;
      t[e].size + SumSizes(t, es - {e})
  }

  function Payloads(t: map<EventId, Row>, ch: Channel): set<EventId> {
    set e | e in t && t[e].channel == ch && t[e].payload.Some?
  }

  ghost function TotalSize(t: map<EventId, Row>, ch: Channel): nat {
    SumSizes(t, Payloads(t, ch))
  }

  /** `length` is the encoded length checked against the limit, `size` the stored column size. */
  ghost function Append(s: Store, g: OwnerGrant, d: Donation, acceptedAt: Time, length: nat, size: nat)
    : (Store, Result<Donation>)
  {
    if !d.Acceptable() then (s, Err(Invalid))
    else if acceptedAt < s.clock - REPLAY_AGE then (s, Err(CursorExpired))
    else if d.channelId != g.channel || d.channelId !in s.allowed then (s, Err(Disabled))
    else if d.channelId !in s.channels then (s, Err(NotFound))
    else
      var c := s.channels[d.channelId];
      if g.generation != c.generation then (s, Err(Generation))
      else if d.eventId in s.donations then
        var kept := s.donations[d.eventId].payload;
        if kept.None? then (s, Err(CursorExpired))
        else if !kept.value.SameObservation(d) then (s, Err(Conflict))
        else (s, Ok(kept.value))
      else if !s.Collecting(d.channelId) then (s, Err(Disabled))
      else if g.token !in s.grants then (s, Err(Owner))
      else
        var row := s.grants[g.token];
        if !(row.channel == g.channel && row.generation == g.generation && row.Accepts(acceptedAt)
             && acceptedAt <= s.clock + SECOND)
        then (s, Err(Owner))
        else if c.current == MAX_U64 then (s, Err(Exhausted))
        else if d.hasSource then (s, Err(Invalid))
        else if TotalSize(s.donations, d.channelId) + length > JOURNAL_BYTES then (s, Err(JournalFull))
        else
          var stored := d.(generation := c.generation, offset := c.current + 1);
          (Journaled(s, stored, size), Ok(stored))
  }

  function Journaled(s: Store, d: Donation, size: nat): Store
    requires d.channelId in s.channels
  {
    s.(donations := s.donations[d.eventId := Row(d.channelId, d.generation, d.offset, Some(d), size, s.clock)],
       outbox := s.outbox[d.eventId := OutboxRow(d.channelId, s.clock)],
       channels := s.channels[d.channelId := s.channels[d.channelId].(current := d.offset)])
  }

  function Dispatched(s: Store, e: EventId): Store {
    s.(outbox := s.outbox - {e})
  }

  // ---- Consumers ----

  function Bounded(limit: int): (n: nat)
    ensures 1 <= n <= 500
  {
    if limit < 1 || limit > 500 then 100 else limit
  }

  function ProgressOf(s: Store, k: ConsumerKey): Progress
    requires k.channel in s.channels
  {
    if k in s.consumers then s.consumers[k]
    else
      var c := s.channels[k.channel];
      Progress(c.generation, c.expiredThrough, c.expiredThrough, None, 0)
  }

  /** A read returns the last offset delivered: the next `Bounded(limit)` offsets, or what there is. */
  function Read(s: Store, k: ConsumerKey, generation: Name, after: nat, revision: nat, limit: int)
    : (Store, Result<nat>)
  {
    if k.channel !in s.channels then (s, Err(NotFound))
    else
      var c := s.channels[k.channel];
      var p := ProgressOf(s, k);
      if generation != c.generation then (s, Err(Generation))
      else if after < c.expiredThrough then (s, Err(CursorExpired))
      else if after > c.current then (s, Err(Cursor))
      else if p.generation != generation then (s, Err(Generation))
      else if p.revision != revision then (s, Err(Revision))
      else if after < p.baseline || after > p.offered then (s, Err(Cursor))
      else
        var n := if c.current - after < Bounded(limit) then c.current - after else Bounded(limit);
        var next := after + n;
        (s.(consumers := s.consumers[k := if next > p.offered then p.(offered := next) else p]), Ok(next))
  }

  function Ack(s: Store, k: ConsumerKey, generation: Name, offset: nat, revision: nat): (Store, Result<()>) {
    if k.channel !in s.channels then (s, Err(NotFound))
    else
      var c := s.channels[k.channel];
      if c.generation != generation then (s, Err(Generation))
      else if offset < c.expiredThrough then (s, Err(CursorExpired))
      else if k !in s.consumers then (s, Err(Cursor))
      else
        var p := s.consumers[k];
        if p.generation != generation then (s, Err(Generation))
        else if p.revision != revision then (s, Err(Revision))
        else if offset <= p.baseline || offset > p.offered || (p.ack.Some? && offset < p.ack.value)
        then (s, Err(Cursor))
        else (s.(consumers := s.consumers[k := p.(ack := Some(offset))]), Ok(()))
  }

  function Subscribe(s: Store, rk: RequestKey, enabled: bool): (Store, Result<bool>) {
    if rk.key.text == "" || |rk.key.text| > 200 then (s, Err(Cursor))
    else if rk.channel !in s.channels then (s, Err(NotFound))
    else if rk in s.subscriptions then
      if s.subscriptions[rk].enabled != enabled then (s, Err(Conflict))
      else (s, Ok(s.subscriptions[rk].enabled))
    else if enabled && rk.channel in s.optedOut then (s, Err(Disabled))
    else
      (s.(channels := s.channels[rk.channel := s.channels[rk.channel].(subscribed := enabled)],
          grants := if enabled then s.grants else CloseChannel(s.grants, rk.channel, s.clock),
          subscriptions := s.subscriptions[rk := SubscriptionRecord(enabled, s.clock)]),
       Ok(enabled))
  }

  /** The coverage walk over the loss ranges, from `covered` on; None is a rejected list.
      `covered + 1` is 64-bit arithmetic. */
  function Cover(covered: nat, ranges: seq<LossRange>, generation: Name): Option<nat>
    decreases |ranges|
  {
    if ranges == [] then Some(covered)
    else
      var r := ranges[0];
      if r.startGeneration != generation || r.endGeneration != generation || r.start > r.end then None
      else if r.start > (covered + 1) % (MAX_U64 + 1) then None
      else Cover(if r.end > covered then r.end else covered, ranges[1..], generation)
  }

  /** Whether the audit part of a recovery request permits moving from `settled` to `resume`. */
  predicate Audited(settled: nat, resume: nat, previous: Name, next: Name, request: RecoveryRequest) {
    previous != next || resume == settled
    || (resume > settled && request.ranges.Some? && Cover(settled, request.ranges.value, previous) == Some(resume))
  }

  function RecoveryProgress(s: Store, k: ConsumerKey, previous: Name): Progress {
    if k in s.consumers then s.consumers[k] else Progress(previous, 0, 0, None, 0)
  }

  function Resolve(s: Store, rk: RequestKey, previous: Name, next: Name,
                   resume: nat, expected: nat, request: RecoveryRequest): (Store, Result<RecoveryDecision>)
  {
    var k := ConsumerKey(rk.consumer, rk.channel);
    if k.channel !in s.channels then (s, Err(NotFound))
    else if rk in s.recoveries then
      if s.recoveries[rk].request != request then (s, Err(Conflict))
      else (s, Ok(s.recoveries[rk].decision))
    else
      var c := s.channels[k.channel];
      var p := RecoveryProgress(s, k, previous);
      if next != c.generation then (s, Err(Generation))
      else if resume < c.expiredThrough || resume > c.current then (s, Err(Cursor))
      else if p.generation != previous then (s, Err(Generation))
      else if expected == MAX_U64 || expected != p.revision then (s, Err(Revision))
      else if !Audited(p.Settled(), resume, previous, next, request) then (s, Err(Cursor))
      else
        var decision := RecoveryDecision(previous, next, p.Settled(), resume, expected + 1);
        (s.(consumers := s.consumers[k := Progress(next, resume, resume, None, expected + 1)],
            recoveries := s.recoveries[rk := RecoveryRecord(request, decision, s.clock)],
            audit := s.audit + [RecoveryAudit(rk.consumer, rk.channel, request, decision, s.clock)]),
         Ok(decision))
  }

  // ---- Retention and restore ----

  ghost predicate At(t: map<EventId, Row>, ch: Channel, offset: nat, e: EventId) {
    e in t && t[e].channel == ch && t[e].offset == offset
  }

  ghost predicate Stored(t: map<EventId, Row>, ch: Channel, offset: nat) {
    exists e :: At(t, ch, offset, e)
  }

  ghost function RowAt(t: map<EventId, Row>, ch: Channel, offset: nat): Row
    requires Stored(t, ch, offset)
  {
    var e :| At(t, ch, offset, e);
    t[e]
  }

  /** No registered consumer still needs `offset`, and at least one is registered. */
  predicate Acknowledged(s: Store, ch: Channel, offset: nat)
    requires ch in s.channels
  {
    && (exists k :: k in s.consumers && k.channel == ch)
    && forall k :: k in s.consumers && k.channel == ch ==>
         s.consumers[k].generation == s.channels[ch].generation && s.consumers[k].Settled() >= offset
  }

  predicate Forced(now: Time, storedAt: Time, total: int, policy: Policy) {
    now - storedAt > policy.maxAge || total > policy.maxBytes
  }

  predicate Expirable(s: Store, ch: Channel, offset: nat, storedAt: Time, total: int, policy: Policy)
    requires ch in s.channels
  {
    Forced(s.clock, storedAt, total, policy)
    || (s.clock - storedAt >= policy.minAge && Acknowledged(s, ch, offset))
  }

  /** How far expiry reaches: from `from`, over at most `left` further rows, `total` bytes now held. */
  ghost function Reach(s: Store, ch: Channel, policy: Policy, from: nat, total: int, left: nat): nat
    requires ch in s.channels
    decreases left
  {
    if left == 0 || !Stored(s.donations, ch, from + 1) then from
    else
      var row := RowAt(s.donations, ch, from + 1);
      if Expirable(s, ch, from + 1, row.storedAt, total, policy)
      then Reach(s, ch, policy, from + 1, total - row.size, left - 1)
      else from
  }

  function Dropped(t: map<EventId, Row>, ch: Channel, generation: Name, through: nat): map<EventId, Row> {
    map e | e in t ::
      if t[e].channel == ch && t[e].generation == generation && t[e].offset <= through
      then t[e].(payload := None) else t[e]
  }

  function ExpiredTo(s: Store, ch: Channel, through: nat): Store
    requires ch in s.channels
  {
    var c := s.channels[ch];
    if through <= c.expiredThrough then s
    else s.(donations := Dropped(s.donations, ch, c.generation, through),
            channels := s.channels[ch := c.(expiredThrough := through)])
  }

  ghost function Expire(s: Store, ch: Channel, policy: Policy): (Store, Result<()>) {
    if !policy.WellFormed() then (s, Err(Invalid))
    else if ch !in s.channels then (s, Err(NotFound))
    else
      var through := Reach(s, ch, policy, s.channels[ch].expiredThrough,
                           TotalSize(s.donations, ch), EXPIRE_BATCH);
      (ExpiredTo(s, ch, through), Ok(()))
  }

  function OutboxLeft(t: map<EventId, OutboxRow>, ch: Channel, limit: Time): map<EventId, OutboxRow> {
    map e | e in t && !(t[e].channel == ch && t[e].createdAt < limit) :: t[e]
  }

  /** A tombstone goes only when no outbox row refers to it. */
  function RowsLeft(t: map<EventId, Row>, outbox: map<EventId, OutboxRow>, ch: Channel, limit: Time)
    : map<EventId, Row>
  {
    map e | e in t && !(t[e].channel == ch && t[e].payload.None? && t[e].storedAt < limit && e !in outbox) :: t[e]
  }

  function GrantsLeft(t: map<Token, Grant>, owner: Option<Token>, ch: Channel, limit: Time): map<Token, Grant> {
    map k | k in t && !(t[k].channel == ch && t[k].validUntil < limit && owner != Some(k)) :: t[k]
  }

  function SubscriptionsLeft(t: map<RequestKey, SubscriptionRecord>, ch: Channel, limit: Time)
    : map<RequestKey, SubscriptionRecord>
  {
    map k | k in t && !(k.channel == ch && t[k].createdAt < limit) :: t[k]
  }

  function RecoveriesLeft(t: map<RequestKey, RecoveryRecord>, ch: Channel, limit: Time)
    : map<RequestKey, RecoveryRecord>
  {
    map k | k in t && !(k.channel == ch && t[k].createdAt < limit) :: t[k]
  }

  /** The audit rows of other channels and those younger than the limit, in order. */
  function AuditLeft(audit: seq<AuditRow>, ch: Channel, limit: Time): seq<AuditRow>
    decreases |audit|
  {
    if audit == [] then []
    else
      var rest, row := AuditLeft(audit[..|audit| - 1], ch, limit), audit[|audit| - 1];
      if row.channel == ch && row.createdAt < limit then rest else rest + [row]
  }

  function CleanRows(s: Store, ch: Channel): Store {
    var limit := s.clock - TOMBSTONE_AGE;
    var outbox := OutboxLeft(s.outbox, ch, limit);
    var owner := if ch in s.channels then s.channels[ch].owner else None;
    s.(outbox := outbox,
       donations := RowsLeft(s.donations, outbox, ch, limit),
       grants := GrantsLeft(s.grants, owner, ch, limit))
  }

  function CleanRecords(s: Store, ch: Channel): Store {
    s.(subscriptions := SubscriptionsLeft(s.subscriptions, ch, s.clock - TOMBSTONE_AGE),
       recoveries := RecoveriesLeft(s.recoveries, ch, s.clock - TOMBSTONE_AGE),
       audit := AuditLeft(s.audit, ch, s.clock - AUDIT_AGE))
  }

  /** The deletions of the maintenance pass, each by its own age limit. */
  function Cleanup(s: Store, ch: Channel): Store {
    CleanRecords(CleanRows(s, ch), ch)
  }

  function Regenerated(t: map<EventId, Row>, ch: Channel, current: Name, next: Name): map<EventId, Row> {
    map e | e in t ::
      if t[e].channel == ch && t[e].generation == current
      then t[e].(generation := next,
                 payload := if t[e].payload.None? then None else Some(t[e].payload.value.(generation := next)))
      else t[e]
  }

  function Rotate(s: Store, ch: Channel, expected: Name, reason: Name, next: Name): (Store, Result<Name>) {
    if ch.text == "" || expected.text == "" || reason.text == "" then (s, Err(Invalid))
    else if ch !in s.channels then (s, Err(NotFound))
    else if s.channels[ch].generation != expected then (s, Err(Generation))
    else
      (s.(grants := CloseChannel(s.grants, ch, s.clock),
          donations := Regenerated(s.donations, ch, expected, next),
          channels := s.channels[ch := s.channels[ch].(generation := next, owner := None)],
          audit := s.audit + [RestoreAudit(ch, reason, expected, next, s.clock)]),
       Ok(next))
  }
}
