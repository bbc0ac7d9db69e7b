/** What each transaction means to its caller: exactly when it succeeds, what it then leaves in the store
    and what it leaves alone. */
module JournalEffects {
  import opened JournalTypes
  import opened JournalOps
  import opened JournalRuns

  // ---- Channels and grants ----

  /** A channel gets its row once: subscribed, unowned, with nothing journaled or expired. */
  lemma EnsureEffect(s: Store, ch: Channel, generation: Name)
    ensures var (t, r) := EnsureCollection(s, ch, generation);
            && (r.Ok? <==> ch.text == "" || ch in s.allowed)
            && t == s.(channels := t.channels)
            && (forall c :: c in t.channels <==> c in s.channels || (c == ch && ch.text != "" && ch in s.allowed))
            && (forall c :: c in s.channels ==> t.channels[c] == s.channels[c])
            && (forall c :: c in t.channels && c !in s.channels ==>
                  && t.channels[c].generation == generation && t.channels[c].owner.None? && t.channels[c].subscribed
                  && t.channels[c].current == 0 == t.channels[c].expiredThrough)
  {
    var (t, r) := EnsureCollection(s, ch, generation);
    if r.Err? || ch.text == "" || ch in s.channels {
      assert t == s;
    } else {
      assert t.channels == s.channels[ch := t.channels[ch]];
    }
  }

  /** The channel exists, is subscribed and has not opted out. */
  predicate Collected(s: Store, ch: Channel) {
    ch in s.channels && s.channels[ch].subscribed && ch !in s.optedOut
  }

  /** Nobody owns the channel now. */
  predicate Unowned(s: Store, ch: Channel)
    requires ch in s.channels
  {
    s.channels[ch].owner.None? || (s.channels[ch].owner.value in s.grants
                                   && !s.grants[s.channels[ch].owner.value].Live(s.clock))
  }

  /** The channel's assigned worker gets a grant exactly if the channel is collected and unowned. The grant
      accepts observations of the next thirty seconds. */
  lemma AcquireEffect(s: Store, ch: Channel, worker: Name, token: Token)
    ensures var (t, r) := Acquire(s, ch, worker, token);
            && (r.Ok? <==>
                  && ch in s.allowed && Collected(s, ch) && Unowned(s, ch)
                  && ch in s.workers && s.workers[ch] == worker && token !in s.grants)
            && (r.Err? ==> t == s)
            && (r.Ok? ==>
                  && r.value.token == token && r.value.channel == ch && r.value.generation == s.channels[ch].generation
                  && t == s.(grants := t.grants, channels := t.channels) && t.grants.Keys == s.grants.Keys + {token}
                  && (forall u :: u in s.grants ==> t.grants[u] == s.grants[u])
                  && t.channels == s.channels[ch := s.channels[ch].(owner := Some(token))]
                  && t.grants[token].channel == ch && t.grants[token].worker == worker
                  && t.grants[token].generation == s.channels[ch].generation
                  && (forall at :: t.grants[token].Accepts(at) <==> s.clock <= at <= s.clock + 30 * SECOND))
  {
  }

  /** The owner's live grant is prolonged exactly if the channel is still collected by the same worker; it
      then accepts observations of the next thirty seconds as well. */
  lemma RenewEffect(s: Store, g: OwnerGrant)
    ensures var (t, r) := Renew(s, g);
            && (r.Ok? <==>
                  && Collected(s, g.channel) && g.token in s.grants
                  && s.channels[g.channel].owner == Some(g.token) && s.channels[g.channel].generation == g.generation
                  && s.grants[g.token].Live(s.clock) && s.grants[g.token].channel in s.workers
                  && s.workers[s.grants[g.token].channel] == s.grants[g.token].worker)
            && (r.Err? ==> t == s)
            && (r.Ok? ==>
                  && r.value == s.clock + 30 * SECOND && t == s.(grants := t.grants)
                  && t.grants.Keys == s.grants.Keys
                  && (forall u :: u in s.grants && u != g.token ==> t.grants[u] == s.grants[u])
                  && t.grants[g.token] == s.grants[g.token].(validUntil := t.grants[g.token].validUntil)
                  && (forall at ::
                        t.grants[g.token].Accepts(at) <==> s.grants[g.token].grantedAt <= at <= s.clock + 30 * SECOND))
  {
  }

  /** Closed at a time: later observations are not accepted, earlier ones as before. */
  ghost predicate ClosedAt(before: Grant, after: Grant, now: Time) {
    && after == before.(closedAt := after.closedAt) && !after.Live(now)
    && (before.closedAt.Some? ==> after == before)
    && (before.closedAt.None? ==> forall at :: after.Accepts(at) <==> before.Accepts(at) && at <= now)
  }

  lemma ReleaseEffect(s: Store, token: Token)
    ensures var t := Release(s, token);
            && t == s.(grants := t.grants) && t.grants.Keys == s.grants.Keys
            && (forall u :: u in s.grants && u != token ==> t.grants[u] == s.grants[u])
            && (token in s.grants ==> ClosedAt(s.grants[token], t.grants[token], s.clock))
  {
  }

  /** Exactly the channel's grants are closed. */
  ghost predicate ClosesChannel(s: Store, t: Store, ch: Channel) {
    && t.grants.Keys == s.grants.Keys
    && (forall u :: u in s.grants ==>
          if s.grants[u].channel == ch then ClosedAt(s.grants[u], t.grants[u], s.clock)
          else t.grants[u] == s.grants[u])
  }

  // ---- Appending ----

  /** The grant covers the observation, in the channel's current generation. */
  predicate Covered(s: Store, g: OwnerGrant, at: Time) {
    && g.token in s.grants && s.grants[g.token].channel == g.channel && s.grants[g.token].generation == g.generation
    && s.grants[g.token].Accepts(at) && at <= s.clock + SECOND
  }

  /** What any append needs, a replay included. */
  predicate Appendable(s: Store, g: OwnerGrant, d: Donation, at: Time) {
    && d.Acceptable() && at >= s.clock - 30 * DAY && d.channelId == g.channel && d.channelId in s.allowed
    && d.channelId in s.channels && g.generation == s.channels[d.channelId].generation
  }

  /** The same observation, told again. */
  predicate Agrees(kept: Donation, d: Donation) {
    && kept.channelId == d.channelId && kept.donorId == d.donorId && kept.count == d.count
    && kept.message == d.message && kept.epoch == d.epoch && kept.sequence == d.sequence
  }

  /** A replay changes nothing. It gets the stored donation exactly if the payload is still there and is
      the same observation. */
  lemma ReplayEffect(s: Store, g: OwnerGrant, d: Donation, at: Time, length: nat, size: nat)
    requires d.eventId in s.donations
    ensures var (t, r) := Append(s, g, d, at, length, size);
            && t == s && (r.Ok? ==> s.donations[d.eventId].payload == Some(r.value))
            && (r.Ok? <==> Appendable(s, g, d, at) && s.donations[d.eventId].payload.Some?
                           && Agrees(s.donations[d.eventId].payload.value, d))
  {
  }

  /** A new event is journaled exactly if the channel is collected, its grant covers it, and there is an
      offset and room left. It is stored as observed, under the next offset, and queued for dispatch. */
  lemma AppendEffect(s: Store, g: OwnerGrant, d: Donation, at: Time, length: nat, size: nat)
    requires d.eventId !in s.donations
    ensures var (t, r) := Append(s, g, d, at, length, size);
            && (r.Ok? <==>
                  && Appendable(s, g, d, at) && Collected(s, d.channelId) && Covered(s, g, at) && !d.hasSource
                  && s.channels[d.channelId].current != MAX_U64
                  && TotalSize(s.donations, d.channelId) + length <= 0x4000_0000)
            && (r.Err? ==> t == s)
            && (r.Ok? ==> Stores(s, t, d, r.value, size))
  {
  }

  /** The next store has the donation as one more row. */
  ghost predicate Stores(s: Store, t: Store, d: Donation, stored: Donation, size: nat)
  {
    && d.channelId in s.channels && d.channelId in t.channels && d.eventId in t.donations
    && stored.offset == s.channels[d.channelId].current + 1 == t.channels[d.channelId].current
    && stored.generation == s.channels[d.channelId].generation
    && stored == d.(offset := stored.offset, generation := stored.generation)
    && t == s.(donations := t.donations, outbox := t.outbox, channels := t.channels)
    && t.channels == s.channels[d.channelId := s.channels[d.channelId].(current := stored.offset)]
    && t.donations.Keys == s.donations.Keys + {d.eventId}
    && (forall e :: e in s.donations && e != d.eventId ==> t.donations[e] == s.donations[e])
    && t.donations[d.eventId].payload == Some(stored) && t.donations[d.eventId].channel == d.channelId
    && t.donations[d.eventId].offset == stored.offset && t.donations[d.eventId].generation == stored.generation
    && t.donations[d.eventId].size == size && t.donations[d.eventId].storedAt == s.clock
    && t.outbox.Keys == s.outbox.Keys + {d.eventId}
    && t.outbox[d.eventId].channel == d.channelId && t.outbox[d.eventId].createdAt == s.clock
    && (forall e :: e in s.outbox && e != d.eventId ==> t.outbox[e] == s.outbox[e])
  }

  // ---- Consumers ----

  /** An acknowledgement is accepted exactly if it names an offset the consumer was offered and that is
      not behind what it has settled. It settles exactly that offset and changes nothing else. */
  lemma AckEffect(s: Store, k: ConsumerKey, generation: Name, offset: nat, revision: nat)
    ensures var (t, r) := Ack(s, k, generation, offset, revision);
            && (r.Ok? <==>
                  && k.channel in s.channels && s.channels[k.channel].generation == generation
                  && s.channels[k.channel].expiredThrough <= offset
                  && k in s.consumers && s.consumers[k].generation == generation && s.consumers[k].revision == revision
                  && s.consumers[k].baseline < offset <= s.consumers[k].offered
                  && s.consumers[k].Settled() <= offset)
            && (r.Err? ==> t == s)
            && (r.Ok? ==>
                  && t == s.(consumers := t.consumers) && t.consumers.Keys == s.consumers.Keys
                  && (forall j :: j in s.consumers && j != k ==> t.consumers[j] == s.consumers[j])
                  && t.consumers[k].Settled() == offset
                  && t.consumers[k] == s.consumers[k].(ack := t.consumers[k].ack))
  {
  }

  /** A new request sets whether the channel is subscribed, and closes its grants if it is not. */
  lemma SubscribeEffect(s: Store, rk: RequestKey, enabled: bool)
    requires rk !in s.subscriptions
    ensures var (t, r) := Subscribe(s, rk, enabled);
            && (r.Ok? <==>
                  0 < |rk.key.text| <= 200 && rk.channel in s.channels && !(enabled && rk.channel in s.optedOut))
            && (r.Err? ==> t == s)
            && (r.Ok? ==>
                  && r.value == enabled && rk.channel in t.channels
                  && t == s.(channels := t.channels, grants := t.grants, subscriptions := t.subscriptions)
                  && t.channels == s.channels[rk.channel := s.channels[rk.channel].(subscribed := enabled)]
                  && (Collected(t, rk.channel) <==> enabled)
                  && (if enabled then t.grants == s.grants else ClosesChannel(s, t, rk.channel))
                  && t.subscriptions.Keys == s.subscriptions.Keys + {rk} && t.subscriptions[rk].createdAt == s.clock
                  && t.subscriptions[rk].enabled == enabled
                  && (forall q :: q in s.subscriptions ==> t.subscriptions[q] == s.subscriptions[q]))
  {
  }

  /** A repeated request changes nothing and gets its first answer. */
  lemma SubscribeRepeats(s: Store, rk: RequestKey, enabled: bool)
    requires rk in s.subscriptions
    ensures Subscribe(s, rk, enabled).0 == s
    ensures Subscribe(s, rk, enabled).1.Ok? ==> Subscribe(s, rk, enabled).1.value == enabled
    ensures 0 < |rk.key.text| <= 200 && rk.channel in s.channels ==>
              (Subscribe(s, rk, enabled).1.Ok? <==> s.subscriptions[rk].enabled == enabled)
  {
  }

  /** A recovery decision tells where the consumer was settled and where it now resumes, under the next
      revision; the same is kept as the answer to a repetition and in the audit table. */
  lemma ResolveEffect(s: Store, rk: RequestKey, previous: Name, next: Name, resume: nat, expected: nat,
                      request: RecoveryRequest)
    requires rk !in s.recoveries
    ensures var (t, r) := Resolve(s, rk, previous, next, resume, expected, request);
            var k := ConsumerKey(rk.consumer, rk.channel);
            && (r.Err? ==> t == s)
            && (r.Ok? ==>
                  && Decides(s, t, k, r.value) && r.value.previousGeneration == previous
                  && r.value.newGeneration == next && r.value.resumeFrom == resume
                  && t == s.(consumers := t.consumers, recoveries := t.recoveries, audit := t.audit)
                  && t.recoveries.Keys == s.recoveries.Keys + {rk}
                  && t.recoveries[rk].request == request && t.recoveries[rk].decision == r.value
                  && t.recoveries[rk].createdAt == s.clock
                  && (forall q :: q in s.recoveries ==> t.recoveries[q] == s.recoveries[q])
                  && |t.audit| == |s.audit| + 1 && s.audit <= t.audit
                  && t.audit[|s.audit|] == RecoveryAudit(rk.consumer, rk.channel, request, r.value, s.clock))
  {
  }

  /** The decision agrees with the consumer before and after it. An unknown consumer was settled at 0. */
  ghost predicate Decides(s: Store, t: Store, k: ConsumerKey, d: RecoveryDecision) {
    && k in t.consumers && t.consumers.Keys == s.consumers.Keys + {k}
    && (forall j :: j in s.consumers && j != k ==> t.consumers[j] == s.consumers[j])
    && d.previousOffset == (if k in s.consumers then s.consumers[k].Settled() else 0)
    && d.resumeFrom == t.consumers[k].baseline == t.consumers[k].offered == t.consumers[k].Settled()
    && d.newGeneration == t.consumers[k].generation
    && (k in s.consumers ==> d.previousGeneration == s.consumers[k].generation)
    && d.revision == t.consumers[k].revision == 1 + (if k in s.consumers then s.consumers[k].revision else 0)
  }

  /** A new recovery is decided exactly if it names the current generations, revision and a retained
      resume offset, and what it skips within one generation is covered by its loss ranges. */
  lemma ResolveExactly(s: Store, rk: RequestKey, previous: Name, next: Name, resume: nat, expected: nat,
                       request: RecoveryRequest)
    requires rk !in s.recoveries
    ensures var k := ConsumerKey(rk.consumer, rk.channel);
            var known := k in s.consumers;
            var settled := if known then s.consumers[k].Settled() else 0;
            Resolve(s, rk, previous, next, resume, expected, request).1.Ok? <==>
              && rk.channel in s.channels && next == s.channels[rk.channel].generation
              && s.channels[rk.channel].expiredThrough <= resume <= s.channels[rk.channel].current
              && (known ==> s.consumers[k].generation == previous)
              && expected == (if known then s.consumers[k].revision else 0) && expected != MAX_U64
              && (previous != next || resume == settled
                  || (resume > settled && request.ranges.Some?
                      && Cover(settled, request.ranges.value, previous) == Some(resume)))
  {
  }

  /** A repeated recovery changes nothing and gets its first answer. */
  lemma ResolveRepeats(s: Store, rk: RequestKey, previous: Name, next: Name, resume: nat, expected: nat,
                       request: RecoveryRequest)
    requires rk in s.recoveries
    ensures var (t, r) := Resolve(s, rk, previous, next, resume, expected, request);
            && t == s && (r.Ok? ==> r.value == s.recoveries[rk].decision)
            && (r.Ok? <==> rk.channel in s.channels && s.recoveries[rk].request == request)
  {
  }

  // ---- Restore and maintenance ----

  /** A rotation moves the channel to the next generation with all of its rows, closes its grants and puts
      the restore on record. Offsets, payloads and cursors stay. */
  lemma RotateEffect(s: Store, ch: Channel, expected: Name, reason: Name, next: Name)
    ensures var (t, r) := Rotate(s, ch, expected, reason, next);
            && (r.Ok? <==>
                  && ch.text != "" && expected.text != "" && reason.text != ""
                  && ch in s.channels && s.channels[ch].generation == expected)
            && (r.Err? ==> t == s)
            && (r.Ok? ==>
                  && r.value == next && ClosesChannel(s, t, ch) && ch in t.channels
                  && t == s.(grants := t.grants, donations := t.donations, channels := t.channels, audit := t.audit)
                  && t.channels == s.channels[ch := s.channels[ch].(generation := next, owner := None)]
                  && t.audit == s.audit + [RestoreAudit(ch, reason, expected, next, s.clock)]
                  && t.donations.Keys == s.donations.Keys
                  && (forall e :: e in s.donations ==> Moved(s.donations[e], t.donations[e], ch, expected, next)))
  {
  }

  /** A row of the channel's old generation has the new one, and its payload too; nothing else of it changed. */
  predicate Moved(before: Row, after: Row, ch: Channel, from: Name, next: Name) {
    if before.channel != ch || before.generation != from then after == before
    else
      && after.generation == next && after == before.(generation := after.generation, payload := after.payload)
      && (before.payload.None? ==> after.payload.None?)
      && (before.payload.Some? ==> after.payload == Some(before.payload.value.(generation := next)))
  }

  /** What is left of a table is as it was. */
  ghost predicate Within<K, V>(before: map<K, V>, after: map<K, V>) {
    forall k :: k in after ==> k in before && after[k] == before[k]
  }

  /** Maintenance deletes the channel's rows of over ninety days ago and nothing else: dispatch entries,
      tombstones without one, and grants that do not own the channel. */
  lemma CleanupEffect(s: Store, ch: Channel)
    ensures var t, limit := Cleanup(s, ch), s.clock - 90 * DAY;
            && Within(s.outbox, t.outbox) && Within(s.donations, t.donations) && Within(s.grants, t.grants)
            && (forall e :: e in s.outbox ==>
                  (e in t.outbox <==> s.outbox[e].channel != ch || s.outbox[e].createdAt >= limit))
            && (forall e :: e in s.donations ==>
                  (e in t.donations <==> || s.donations[e].channel != ch || s.donations[e].payload.Some?
                                         || s.donations[e].storedAt >= limit || e in t.outbox))
            && (forall u :: u in s.grants ==>
                  (u in t.grants <==> || s.grants[u].channel != ch || s.grants[u].validUntil >= limit
                                      || (ch in s.channels && s.channels[ch].owner == Some(u))))
  {
  }

  /** It also deletes answers to requests of over ninety days ago, and touches no other table but the
      audit. */
  lemma CleanupForgets(s: Store, ch: Channel)
    ensures var t, limit := Cleanup(s, ch), s.clock - 90 * DAY;
            && t == s.(outbox := t.outbox, donations := t.donations, grants := t.grants,
                       subscriptions := t.subscriptions, recoveries := t.recoveries, audit := t.audit)
            && Within(s.subscriptions, t.subscriptions) && Within(s.recoveries, t.recoveries)
            && (forall q :: q in s.subscriptions ==>
                  (q in t.subscriptions <==> q.channel != ch || s.subscriptions[q].createdAt >= limit))
            && (forall q :: q in s.recoveries ==>
                  (q in t.recoveries <==> q.channel != ch || s.recoveries[q].createdAt >= limit))
  {
  }

  // ---- A channel that is not collected ----

  /** While a channel is not collected nothing is granted, prolonged or newly journaled on it. */
  lemma NothingUncollected(s: Store, op: Op, ch: Channel)
    requires !Collected(s, ch)
    ensures op.Acquiring? && op.channel == ch ==> Acquire(s, ch, op.worker, op.token).1.Err?
    ensures op.Renewing? && op.grant.channel == ch ==> Renew(s, op.grant).1.Err?
    ensures op.Appending? && op.donation.channelId == ch ==> !Journals(s, op)
  {
    if op.Appending? && op.donation.eventId !in s.donations {
      AppendEffect(s, op.grant, op.donation, op.acceptedAt, op.length, op.size);
    }
  }

  lemma IssuesWhenCollected(y: Sys, op: Op, ch: Channel)
    requires !Collected(y.s, ch)
    ensures y.h.issued <= Step(y, op).h.issued
    ensures forall i :: |y.h.issued| <= i < |Step(y, op).h.issued| ==> Step(y, op).h.issued[i].channel != ch
  {
    NothingUncollected(y.s, op, ch);
  }

  /** Over any stretch of a run in which a channel is never collected, no event of it gets an offset. */
  lemma {:induction false} QuietWhileUncollected(y: Sys, ops: seq<Op>, i: nat, ch: Channel)
    requires i <= |ops| && forall j :: i <= j < |ops| ==> !Collected(Exec(y, ops[..j]).s, ch)
    ensures Exec(y, ops[..i]).h.issued <= Exec(y, ops).h.issued
    ensures forall n :: |Exec(y, ops[..i]).h.issued| <= n < |Exec(y, ops).h.issued| ==>
              Exec(y, ops).h.issued[n].channel != ch
    decreases |ops|
  {
    if i == |ops| {
      assert ops[..i] == ops;
    } else {
      var before, op := ops[..|ops| - 1], ops[|ops| - 1];
      assert before[..i] == ops[..i];
      forall j | i <= j < |before| ensures !Collected(Exec(y, before[..j]).s, ch) { assert before[..j] == ops[..j]; }
      QuietWhileUncollected(y, before, i, ch);
      IssuesWhenCollected(Exec(y, before), op, ch);
    }
  }
}
