/** Runs of the journal: any interleaving of its transactions, of the passage of time and of changes
    made by other parts of the system, together with a record of what was promised on the way. */
module JournalRuns {
  import opened JournalTypes
  import opened JournalOps
  import opened JournalShape

  datatype Op =
    | Tick(elapsed: nat)
    | OptingOut(optedOut: set<Channel>)
    | Assigning(workers: map<Channel, Name>)
    | Ensuring(channel: Channel, generation: Name)
    | Acquiring(channel: Channel, worker: Name, token: Token)
    | Renewing(grant: OwnerGrant)
    | Releasing(token: Token)
    | Appending(grant: OwnerGrant, donation: Donation, acceptedAt: Time, length: nat, size: nat)
    | Dispatching(event: EventId)
    | Reading(key: ConsumerKey, generation: Name, after: nat, revision: nat, limit: int)
    | Acking(key: ConsumerKey, generation: Name, offset: nat, revision: nat)
    | Subscribing(request: RequestKey, enabled: bool)
    | Recovering(request: RequestKey, previous: Name, next: Name, resume: nat, expected: nat,
                 body: RecoveryRequest)
    | Expiring(channel: Channel, policy: Policy)
    | Cleaning(channel: Channel)
    | Rotating(channel: Channel, from: Name, reason: Name, next: Name)

  ghost function Next(s: Store, op: Op): Store {
    match op
    case Tick(d) => s.(clock := s.clock + d)
    case OptingOut(chs) => s.(optedOut := chs)
    case Assigning(ws) => s.(workers := ws)
    case Ensuring(ch, gen) => EnsureCollection(s, ch, gen).0
    case Acquiring(ch, w, t) => Acquire(s, ch, w, t).0
    case Renewing(g) => Renew(s, g).0
    case Releasing(t) => Release(s, t)
    case Appending(g, d, at, len, size) => Append(s, g, d, at, len, size).0
    case Dispatching(e) => Dispatched(s, e)
    case Reading(k, gen, after, rev, limit) => Read(s, k, gen, after, rev, limit).0
    case Acking(k, gen, offset, rev) => Ack(s, k, gen, offset, rev).0
    case Subscribing(rk, enabled) => Subscribe(s, rk, enabled).0
    case Recovering(rk, prev, next, resume, exp, body) => Resolve(s, rk, prev, next, resume, exp, body).0
    case Expiring(ch, policy) => Expire(s, ch, policy).0
    case Cleaning(ch) => Cleanup(s, ch)
    case Rotating(ch, exp, reason, next) => Rotate(s, ch, exp, reason, next).0
  }

  /** One offset given to one event. */
  datatype Issue = Issue(event: EventId, channel: Channel, offset: nat, acceptedAt: Time, token: Token)
  datatype Delivery = Delivery(key: ConsumerKey, offset: nat, event: EventId)
  datatype LossAudit = LossAudit(key: ConsumerKey, start: nat, end: nat)

  /** What happened so far, including what the store has since deleted.
      `first` is where a consumer's responsibility began: offsets up to it had expired before it
      registered. `crossed` holds the consumers recovered from another generation, `forced` the
      channels on which a retention limit overrode the consumers. */
  datatype History = History(
    issued: seq<Issue>,
    grants: map<Token, Grant>,
    delivered: set<Delivery>,
    audits: set<LossAudit>,
    first: map<ConsumerKey, nat>,
    crossed: set<ConsumerKey>,
    forced: set<Channel>)

  datatype Sys = Sys(s: Store, h: History)

  ghost predicate Unforced(s: Store, ch: Channel, policy: Policy) {
    && TotalSize(s.donations, ch) <= policy.maxBytes
    && forall e :: e in Payloads(s.donations, ch) ==> s.clock - s.donations[e].storedAt <= policy.maxAge
  }

  function Deliveries(s: Store, k: ConsumerKey, after: nat, through: nat): set<Delivery> {
    set e | e in s.donations && s.donations[e].channel == k.channel && after < s.donations[e].offset <= through
      :: Delivery(k, s.donations[e].offset, e)
  }

  function AuditsOf(k: ConsumerKey, ranges: seq<LossRange>): set<LossAudit> {
    set r | r in ranges :: LossAudit(k, r.start, r.end)
  }

  function Registered(h: History, s: Store, k: ConsumerKey, offset: nat): map<ConsumerKey, nat> {
    if k in s.consumers then h.first else h.first[k := offset]
  }

  ghost predicate Journals(s: Store, op: Op) {
    op.Appending? && op.donation.eventId !in s.donations && op.donation.eventId in Next(s, op).donations
  }

  ghost predicate Recovers(s: Store, op: Op) {
    op.Recovering? && op.request !in s.recoveries && op.request in Next(s, op).recoveries
  }

  /** The history after a step from `s`, apart from the grants. */
  ghost function Recorded(h: History, s: Store, op: Op): History {
    match op
    case Appending(g, d, at, len, size) =>
      if Journals(s, op)
      then h.(issued := h.issued +
                [Issue(d.eventId, d.channelId, Next(s, op).donations[d.eventId].offset, at, g.token)])
      else h
    case Reading(k, gen, after, rev, limit) =>
      var r := Read(s, k, gen, after, rev, limit).1;
      if r.Err? then h
      else h.(delivered := h.delivered + Deliveries(s, k, after, r.value),
              first := Registered(h, s, k, s.channels[k.channel].expiredThrough))
    case Recovering(rk, prev, next, resume, exp, body) =>
      var k := ConsumerKey(rk.consumer, rk.channel);
      if !Recovers(s, op) then h
      else if prev != next then h.(crossed := h.crossed + {k}, first := Registered(h, s, k, 0))
      else if body.ranges.Some? && resume > RecoveryProgress(s, k, prev).Settled()
      then h.(audits := h.audits + AuditsOf(k, body.ranges.value), first := Registered(h, s, k, 0))
      else h.(first := Registered(h, s, k, 0))
    case Expiring(ch, policy) =>
      if Expire(s, ch, policy).1.Err? || Unforced(s, ch, policy) then h else h.(forced := h.forced + {ch})
    case _ => h
  }

  ghost function Step(y: Sys, op: Op): Sys {
    var t := Next(y.s, op);
    var h := Recorded(y.h, y.s, op);
    Sys(t, h.(grants := h.grants + t.grants))
  }

  /** What a run may assume of its callers: tokens are fresh, and an event is always submitted
      with the one acceptance time it was observed at. */
  predicate Enabled(y: Sys, op: Op, accepted: EventId -> Time) {
    match op
    case Acquiring(ch, w, t) => t !in y.h.grants
    case Appending(g, d, at, len, size) => at == accepted(d.eventId)
    case _ => true
  }

  ghost function Exec(y: Sys, ops: seq<Op>): Sys
    decreases |ops|
  {
    if ops == [] then y else Step(Exec(y, ops[..|ops| - 1]), ops[|ops| - 1])
  }

  ghost predicate Legal(y: Sys, ops: seq<Op>, accepted: EventId -> Time)
    decreases |ops|
  {
    ops == [] ||
    (Legal(y, ops[..|ops| - 1], accepted) && Enabled(Exec(y, ops[..|ops| - 1]), ops[|ops| - 1], accepted))
  }

  function Empty(clock: Time, allowed: set<Channel>): Sys {
    Sys(Store(clock, allowed, {}, map[], map[], map[], map[], map[], map[], map[], map[], []),
        History([], map[], {}, {}, map[], {}, {}))
  }

  /** The transactions that never touch rows, offsets or consumers. */
  predicate OwnerOp(op: Op) {
    op.Tick? || op.OptingOut? || op.Assigning? || op.Ensuring? || op.Acquiring? || op.Renewing?
    || op.Releasing? || op.Dispatching? || op.Subscribing?
  }

  lemma RowUpdateKeepsJournal(s: Store, t: Store, ch: Channel, row: ChannelRow)
    requires t.channels == s.channels[ch := row] && t.donations == s.donations
    requires if ch in s.channels
             then row.(subscribed := s.channels[ch].subscribed, owner := s.channels[ch].owner) == s.channels[ch]
             else row.current == 0 && row.expiredThrough == 0
    ensures SameJournal(s, t)
  {
  }

  lemma EnsureKeepsJournal(s: Store, ch: Channel, generation: Name)
    ensures SameJournal(s, EnsureCollection(s, ch, generation).0)
  {
    var (t, r) := EnsureCollection(s, ch, generation);
    if r.Ok? && ch.text != "" && ch !in s.channels {
      RowUpdateKeepsJournal(s, t, ch, ChannelRow(generation, 0, 0, true, None));
    } else {
      assert t == s;
    }
  }

  lemma AcquireKeepsJournal(s: Store, ch: Channel, worker: Name, token: Token)
    ensures SameJournal(s, Acquire(s, ch, worker, token).0)
  {
    var (t, r) := Acquire(s, ch, worker, token);
    if r.Ok? {
      RowUpdateKeepsJournal(s, t, ch, s.channels[ch].(owner := Some(token)));
    } else {
      assert t == s;
    }
  }

  lemma SubscribeKeepsJournal(s: Store, rk: RequestKey, enabled: bool)
    ensures SameJournal(s, Subscribe(s, rk, enabled).0)
  {
    var (t, r) := Subscribe(s, rk, enabled);
    if r.Ok? && rk !in s.subscriptions {
      RowUpdateKeepsJournal(s, t, rk.channel, s.channels[rk.channel].(subscribed := enabled));
    } else {
      assert t == s;
    }
  }

  lemma RenewKeepsJournal(s: Store, g: OwnerGrant)
    ensures SameJournal(s, Renew(s, g).0)
  {
    var (t, r) := Renew(s, g);
    if r.Ok? {
      assert t.channels == s.channels && t.donations == s.donations;
    } else {
      assert t == s;
    }
  }

  lemma ReleaseKeepsJournal(s: Store, token: Token)
    ensures SameJournal(s, Release(s, token))
  {
  }

  lemma GrantOpsKeepJournal(s: Store, op: Op)
    requires op.Acquiring? || op.Renewing? || op.Releasing?
    ensures SameJournal(s, Next(s, op))
  {
    match op
    case Acquiring(ch, w, token) => AcquireKeepsJournal(s, ch, w, token);
    case Renewing(g) => RenewKeepsJournal(s, g);
    case Releasing(token) => ReleaseKeepsJournal(s, token);
  }

  lemma ChannelOpsKeepJournal(s: Store, op: Op)
    requires op.Ensuring? || op.Subscribing?
    ensures SameJournal(s, Next(s, op))
  {
    match op
    case Ensuring(ch, gen) => EnsureKeepsJournal(s, ch, gen);
    case Subscribing(rk, on) => SubscribeKeepsJournal(s, rk, on);
  }

  lemma AmbientOpsKeepJournal(s: Store, op: Op)
    requires op.Tick? || op.OptingOut? || op.Assigning? || op.Dispatching?
    ensures SameJournal(s, Next(s, op))
  {
  }

  lemma OwnerOpsKeepConsumers(s: Store, op: Op)
    requires OwnerOp(op)
    ensures Next(s, op).consumers == s.consumers
  {
  }

  lemma OwnerOpsKeepJournal(s: Store, op: Op)
    requires OwnerOp(op)
    ensures SameJournal(s, Next(s, op)) && Next(s, op).consumers == s.consumers
  {
    OwnerOpsKeepConsumers(s, op);
    if op.Acquiring? || op.Renewing? || op.Releasing? {
      GrantOpsKeepJournal(s, op);
    } else if op.Ensuring? || op.Subscribing? {
      ChannelOpsKeepJournal(s, op);
    } else {
      AmbientOpsKeepJournal(s, op);
    }
  }

  lemma StepKeepsShape(s: Store, op: Op)
    requires Shape(s)
    ensures Shape(Next(s, op))
  {
    if OwnerOp(op) {
      OwnerOpsKeepJournal(s, op);
      OwnerStepKeepsShape(s, Next(s, op));
    } else {
      JournalOpsKeepShape(s, op);
    }
  }

  lemma JournalOpsKeepShape(s: Store, op: Op)
    requires Shape(s) && !OwnerOp(op)
    ensures Shape(Next(s, op))
  {
    match op
    case Appending(g, d, at, len, size) => AppendKeepsShape(s, g, d, at, len, size);
    case Reading(k, gen, after, rev, limit) => ReadKeepsShape(s, k, gen, after, rev, limit);
    case Acking(k, gen, offset, rev) => AckKeepsShape(s, k, gen, offset, rev);
    case Recovering(rk, prev, next, resume, exp, body) => ResolveKeepsShape(s, rk, prev, next, resume, exp, body);
    case Expiring(ch, policy) => ExpireKeepsShape(s, ch, policy);
    case Cleaning(ch) => CleanupKeepsShape(s, ch);
    case Rotating(ch, exp, reason, next) => RotateKeepsShape(s, ch, exp, reason, next);
  }
}
