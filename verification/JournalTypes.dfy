/** The tables of the donation journal: one record per row type, and the store that holds them.
    A store value is the committed database content between two transactions. */
module JournalTypes {

  type Time = int

  /** An identifier: a channel, worker, consumer, generation, token, request key or event ID. */
  datatype Name = Name(text: string)

  type Channel = Name
  type Token = Name
  type EventId = Name

  const SECOND: int := 1_000_000_000
  const DAY: int := 86_400 * SECOND
  const MAX_U64: nat := 0xFFFF_FFFF_FFFF_FFFF
  const GRANT_LIFE: int := 30 * SECOND
  const REPLAY_AGE: int := 30 * DAY
  const TOMBSTONE_AGE: int := 90 * DAY
  const AUDIT_AGE: int := 365 * DAY
  const JOURNAL_BYTES: int := 0x4000_0000
  const EXPIRE_BATCH: nat := 500

  datatype Option<+T> = None | Some(value: T)

  datatype Error =
    | Disabled | Owner | Generation | CursorExpired | Cursor | Revision | Conflict
    | JournalFull | NotFound | Invalid | Exhausted | Duplicate

  datatype Result<+T> = Ok(value: T) | Err(error: Error)

  /** A platform observation; `generation` and `offset` are assigned when it is journaled. */
  datatype Donation = Donation(
    eventId: EventId, channelId: Channel, count: int, kind: Name, donorId: Name,
    displayName: Name, message: Name, epoch: Name, sequence: nat,
    observedAt: Time, hasSource: bool, generation: Name, offset: nat)
  {
    predicate Acceptable() {
      && |eventId.text| <= 256 && |channelId.text| <= 100 && |donorId.text| <= 256
      && |displayName.text| <= 4096 && |message.text| <= 65536 && |epoch.text| <= 256
      && eventId.text != "" && channelId.text != "" && donorId.text != "" && epoch.text != ""
      && sequence != 0 && 0 < count <= 9007199254740991 && kind.text == "balloon" && observedAt != 0
    }

    /** The fields a replay must repeat exactly. */
    predicate SameObservation(d: Donation) {
      && channelId == d.channelId && epoch == d.epoch && sequence == d.sequence
      && count == d.count && donorId == d.donorId && message == d.message
    }
  }

  datatype ChannelRow = ChannelRow(
    generation: Name, current: nat, expiredThrough: nat, subscribed: bool, owner: Option<Token>)

  datatype Grant = Grant(
    channel: Channel, worker: Name, generation: Name,
    grantedAt: Time, validUntil: Time, closedAt: Option<Time>)
  {
    predicate Live(now: Time) { validUntil > now && closedAt.None? }

    /** The last instant at which an observation can be accepted under this grant. */
    function End(): Time {
      if closedAt.Some? && closedAt.value < validUntil then closedAt.value else validUntil
    }

    predicate Accepts(at: Time) { grantedAt <= at <= End() }

    function Close(now: Time): Grant {
      if closedAt.Some? then this else this.(closedAt := Some(now))
    }
  }

  /** What a worker keeps of its grant. */
  datatype OwnerGrant = OwnerGrant(token: Token, channel: Channel, generation: Name)

  /** A journal row. Without payload it is the tombstone of an expired event. */
  datatype Row = Row(channel: Channel, generation: Name, offset: nat,
                     payload: Option<Donation>, size: nat, storedAt: Time)

  datatype OutboxRow = OutboxRow(channel: Channel, createdAt: Time)

  datatype ConsumerKey = ConsumerKey(consumer: Name, channel: Channel)

  datatype Progress = Progress(generation: Name, baseline: nat, offered: nat,
                               ack: Option<nat>, revision: nat)
  {
    /** The offset the consumer has settled: its acknowledgement, or its baseline before the first one. */
    function Settled(): nat { if ack.Some? then ack.value else baseline }
  }

  datatype LossRange = LossRange(startGeneration: Name, start: nat, endGeneration: Name, end: nat)

  /** A recovery request body; `ranges` is None when the body does not parse. */
  datatype RecoveryRequest = RecoveryRequest(reason: Name, ranges: Option<seq<LossRange>>)

  datatype RecoveryDecision = RecoveryDecision(
    previousGeneration: Name, newGeneration: Name,
    previousOffset: nat, resumeFrom: nat, revision: nat)

  datatype RequestKey = RequestKey(consumer: Name, channel: Channel, key: Name)
  datatype SubscriptionRecord = SubscriptionRecord(enabled: bool, createdAt: Time)
  datatype RecoveryRecord = RecoveryRecord(request: RecoveryRequest, decision: RecoveryDecision, createdAt: Time)

  /** The permanent record of a recovery decision, or of a restore. */
  datatype AuditRow =
    | RecoveryAudit(consumer: Name, channel: Channel, request: RecoveryRequest, decision: RecoveryDecision,
                    createdAt: Time)
    | RestoreAudit(channel: Channel, reason: Name, previous: Name, next: Name, createdAt: Time)

  datatype Policy = Policy(minAge: int, maxAge: int, maxBytes: int)
  {
    predicate WellFormed() { 0 <= minAge <= maxAge && 0 < maxBytes }
  }

  /** `allowed` is the configured channel filter; `workers` names the worker of each live channel. */
  datatype Store = Store(
    clock: Time,
    allowed: set<Channel>,
    optedOut: set<Channel>,
    workers: map<Channel, Name>,
    channels: map<Channel, ChannelRow>,
    grants: map<Token, Grant>,
    donations: map<EventId, Row>,
    outbox: map<EventId, OutboxRow>,
    consumers: map<ConsumerKey, Progress>,
    subscriptions: map<RequestKey, SubscriptionRecord>,
    recoveries: map<RequestKey, RecoveryRecord>,
    audit: seq<AuditRow>)
  {
    predicate Collecting(ch: Channel)
      requires ch in channels
    {
      channels[ch].subscribed && ch !in optedOut
    }
  }
}
