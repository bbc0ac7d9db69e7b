/** What a consumer has settled, over whole runs: the last offset it acknowledged, or where it registered
    or resumed if that came later. Answers to its requests are repeated. */
module JournalConsumers {
  import opened JournalTypes
  import opened JournalOps
  import opened JournalRuns
  import opened JournalCoverage
  import opened JournalEffects

  function Consumer(op: Op): Option<ConsumerKey> {
    match op
    case Reading(k, _, _, _, _) => Some(k)
    case Acking(k, _, _, _) => Some(k)
    case Recovering(rk, _, _, _, _, _) => Some(ConsumerKey(rk.consumer, rk.channel))
    case _ => None
  }

  lemma OthersKeepProgress(s: Store, op: Op, k: ConsumerKey)
    requires Consumer(op) != Some(k)
    ensures k in Next(s, op).consumers <==> k in s.consumers
    ensures k in s.consumers ==> Next(s, op).consumers[k] == s.consumers[k]
  {
    match op
    case Reading(_, _, _, _, _) => ReadKeepsOthers(s, op, k);
    case Acking(j, generation, offset, revision) => AckEffect(s, j, generation, offset, revision);
    case Recovering(rk, previous, next, resume, expected, body) =>
      if rk in s.recoveries {
        ResolveRepeats(s, rk, previous, next, resume, expected, body);
      } else {
        ResolveEffect(s, rk, previous, next, resume, expected, body);
      }
    case _ => RestKeepsProgress(s, op);
  }

  lemma ReadKeepsOthers(s: Store, op: Op, k: ConsumerKey)
    requires op.Reading? && op.key != k
    ensures k in Next(s, op).consumers <==> k in s.consumers
    ensures k in s.consumers ==> Next(s, op).consumers[k] == s.consumers[k]
  {
    if Read(s, op.key, op.generation, op.after, op.revision, op.limit).1.Ok? {
      ReadEffect(s, op);
    } else {
      assert Next(s, op) == s;
    }
  }

  lemma RestKeepsProgress(s: Store, op: Op)
    requires Consumer(op).None?
    ensures Next(s, op).consumers == s.consumers
  {
    if OwnerOp(op) {
      OwnerOpsKeepConsumers(s, op);
    } else if op.Appending? {
      if Append(s, op.grant, op.donation, op.acceptedAt, op.length, op.size).1.Err? { assert Next(s, op) == s; }
    } else if op.Rotating? {
      RotateEffect(s, op.channel, op.from, op.reason, op.next);
    }
  }

  /** Whether the step registers the consumer by its first read. */
  ghost predicate Registers(s: Store, op: Op, k: ConsumerKey) {
    && op.Reading? && op.key == k && k !in s.consumers
    && Read(s, k, op.generation, op.after, op.revision, op.limit).1.Ok?
  }

  ghost predicate Resumes(s: Store, op: Op, k: ConsumerKey) {
    op.Recovering? && ConsumerKey(op.request.consumer, op.request.channel) == k && Recovers(s, op)
  }

  ghost predicate Acknowledges(s: Store, op: Op, k: ConsumerKey) {
    op.Acking? && op.key == k && Ack(s, k, op.generation, op.offset, op.revision).1.Ok?
  }

  /** What the consumer's own calls of a run have settled: the last of the offsets it acknowledged,
      resumed from, or found expired when it registered. */
  ghost function SettledBy(y: Sys, ops: seq<Op>, k: ConsumerKey): Option<nat>
    decreases |ops|
  {
    if ops == [] then None
    else
      var before, op := ops[..|ops| - 1], ops[|ops| - 1];
      var s := Exec(y, before).s;
      if Acknowledges(s, op, k) then Some(op.offset)
      else if Resumes(s, op, k) then Some(op.resume)
      else if Registers(s, op, k) && k.channel in s.channels then Some(s.channels[k.channel].expiredThrough)
      else SettledBy(y, before, k)
  }

  /** What a step does to what a consumer has settled. */
  ghost predicate Settles(s: Store, t: Store, op: Op, k: ConsumerKey) {
    if Acknowledges(s, op, k) then
      && k in s.consumers && k in t.consumers && t.consumers[k].Settled() == op.offset
      && s.consumers[k].Settled() <= op.offset && t.consumers[k].revision == s.consumers[k].revision
    else if Resumes(s, op, k) then
      && k in t.consumers && t.consumers[k].Settled() == op.resume
      && (k in s.consumers ==> t.consumers[k].revision == s.consumers[k].revision + 1)
    else if Registers(s, op, k) then
      && k in t.consumers && k.channel in s.channels
      && t.consumers[k].Settled() == s.channels[k.channel].expiredThrough
    else SettledStays(s, t, k)
  }

  predicate SettledStays(s: Store, t: Store, k: ConsumerKey) {
    && (k in t.consumers <==> k in s.consumers)
    && (k in s.consumers ==>
          t.consumers[k].Settled() == s.consumers[k].Settled() && t.consumers[k].revision == s.consumers[k].revision)
  }

  lemma StepSettles(s: Store, op: Op, k: ConsumerKey)
    ensures Settles(s, Next(s, op), op, k)
  {
    if Consumer(op) != Some(k) {
      OthersKeepProgress(s, op, k);
    } else if op.Acking? {
      AckSettles(s, op);
    } else if op.Recovering? {
      RecoverySettles(s, op);
    } else {
      ReadSettles(s, op);
    }
  }

  lemma AckSettles(s: Store, op: Op)
    requires op.Acking?
    ensures Settles(s, Next(s, op), op, op.key)
  {
    AckEffect(s, op.key, op.generation, op.offset, op.revision);
  }

  lemma ReadSettles(s: Store, op: Op)
    requires op.Reading?
    ensures Settles(s, Next(s, op), op, op.key)
  {
    if Read(s, op.key, op.generation, op.after, op.revision, op.limit).1.Err? { assert Next(s, op) == s; }
  }

  lemma RecoverySettles(s: Store, op: Op)
    requires op.Recovering?
    ensures Settles(s, Next(s, op), op, ConsumerKey(op.request.consumer, op.request.channel))
  {
    if op.request in s.recoveries {
      ResolveRepeats(s, op.request, op.previous, op.next, op.resume, op.expected, op.body);
    } else {
      ResolveEffect(s, op.request, op.previous, op.next, op.resume, op.expected, op.body);
    }
  }

  /** In every run a registered consumer has settled exactly what its own calls last said. */
  lemma {:induction false} SettledIsLastSaid(clock: Time, allowed: set<Channel>, ops: seq<Op>, k: ConsumerKey)
    ensures var s, said := Exec(Empty(clock, allowed), ops).s, SettledBy(Empty(clock, allowed), ops, k);
            (k in s.consumers <==> said.Some?) && (k in s.consumers ==> s.consumers[k].Settled() == said.value)
    decreases |ops|
  {
    if ops != [] {
      var before, op := ops[..|ops| - 1], ops[|ops| - 1];
      SettledIsLastSaid(clock, allowed, before, k);
      StepSettles(Exec(Empty(clock, allowed), before).s, op, k);
    }
  }

  /** Over any stretch of a run without a recovery of the consumer, what it has settled never falls. */
  lemma {:induction false} SettledNeverFalls(y: Sys, ops: seq<Op>, i: nat, k: ConsumerKey)
    requires i <= |ops| && k in Exec(y, ops[..i]).s.consumers
    ensures var p := Exec(y, ops[..i]).s.consumers[k];
            && k in Exec(y, ops).s.consumers && p.revision <= Exec(y, ops).s.consumers[k].revision
            && (p.revision == Exec(y, ops).s.consumers[k].revision ==>
                  p.Settled() <= Exec(y, ops).s.consumers[k].Settled())
    decreases |ops|
  {
    if i == |ops| {
      assert ops[..i] == ops;
    } else {
      var before, op := ops[..|ops| - 1], ops[|ops| - 1];
      assert before[..i] == ops[..i];
      SettledNeverFalls(y, before, i, k);
      StepSettles(Exec(y, before).s, op, k);
    }
  }

  // ---- Repeated requests ----

  /** The request keys answered so far keep their answers, but for those of over ninety days ago. */
  ghost predicate Remembers(s: Store, t: Store) {
    && (forall q :: q in s.subscriptions && s.subscriptions[q].createdAt >= t.clock - 90 * DAY ==>
          q in t.subscriptions && t.subscriptions[q] == s.subscriptions[q])
    && (forall q :: q in s.recoveries && s.recoveries[q].createdAt >= t.clock - 90 * DAY ==>
          q in t.recoveries && t.recoveries[q] == s.recoveries[q])
    && s.channels.Keys <= t.channels.Keys && s.clock <= t.clock
  }

  lemma StepRemembers(s: Store, op: Op)
    ensures Remembers(s, Next(s, op))
  {
    match op
    case Cleaning(ch) => CleanupForgets(s, ch);
    case Subscribing(rk, enabled) => SubscribeRemembers(s, rk, enabled);
    case Recovering(rk, previous, next, resume, expected, body) => ResolveRemembers(s, op);
    case _ => OthersRemember(s, op);
  }

  lemma SubscribeRemembers(s: Store, rk: RequestKey, enabled: bool)
    ensures Remembers(s, Subscribe(s, rk, enabled).0)
  {
    if rk in s.subscriptions { SubscribeRepeats(s, rk, enabled); } else { SubscribeEffect(s, rk, enabled); }
  }

  lemma ResolveRemembers(s: Store, op: Op)
    requires op.Recovering?
    ensures Remembers(s, Next(s, op))
  {
    if op.request in s.recoveries {
      ResolveRepeats(s, op.request, op.previous, op.next, op.resume, op.expected, op.body);
    } else {
      ResolveEffect(s, op.request, op.previous, op.next, op.resume, op.expected, op.body);
    }
  }

  /** Steps that answer no request. */
  predicate SameAnswers(s: Store, t: Store) {
    t.subscriptions == s.subscriptions && t.recoveries == s.recoveries && s.clock <= t.clock
    && s.channels.Keys <= t.channels.Keys
  }

  lemma OthersRemember(s: Store, op: Op)
    requires !op.Cleaning? && !op.Subscribing? && !op.Recovering?
    ensures SameAnswers(s, Next(s, op))
  {
    if op.Appending? {
      AppendRemembers(s, op);
    } else if op.Reading? {
      ReadRemembers(s, op.key, op.generation, op.after, op.revision, op.limit);
    } else if op.Acking? {
      AckEffect(s, op.key, op.generation, op.offset, op.revision);
    } else if op.Expiring? {
      ExpireRemembers(s, op.channel, op.policy);
    } else if op.Rotating? {
      RotateEffect(s, op.channel, op.from, op.reason, op.next);
    } else {
      OwnerOpsRemember(s, op);
    }
  }

  lemma AppendRemembers(s: Store, op: Op)
    requires op.Appending?
    ensures SameAnswers(s, Next(s, op))
  {
    if op.donation.eventId in s.donations {
      ReplayEffect(s, op.grant, op.donation, op.acceptedAt, op.length, op.size);
    } else {
      AppendEffect(s, op.grant, op.donation, op.acceptedAt, op.length, op.size);
    }
  }

  lemma ReadRemembers(s: Store, k: ConsumerKey, generation: Name, after: nat, revision: nat, limit: int)
    ensures SameAnswers(s, Read(s, k, generation, after, revision, limit).0)
  {
  }

  lemma ExpireRemembers(s: Store, ch: Channel, policy: Policy)
    ensures SameAnswers(s, Expire(s, ch, policy).0)
  {
  }

  lemma OwnerOpsRemember(s: Store, op: Op)
    requires OwnerOp(op) && !op.Subscribing?
    ensures SameAnswers(s, Next(s, op))
  {
    match op
    case Acquiring(ch, w, token) => AcquireEffect(s, ch, w, token);
    case Renewing(g) => RenewEffect(s, g);
    case Ensuring(ch, generation) => EnsureEffect(s, ch, generation);
    case _ =>
  }

  lemma {:induction false} RunRemembers(y: Sys, ops: seq<Op>, i: nat)
    requires i <= |ops|
    ensures Remembers(Exec(y, ops[..i]).s, Exec(y, ops).s)
    decreases |ops|
  {
    if i == |ops| {
      assert ops[..i] == ops;
    } else {
      var before, op := ops[..|ops| - 1], ops[|ops| - 1];
      assert before[..i] == ops[..i];
      RunRemembers(y, before, i);
      StepRemembers(Exec(y, before).s, op);
    }
  }

  lemma ResolvedAgain(s: Store, op: Op, t: Store)
    requires op.Recovering? && op.request !in s.recoveries && Remembers(Next(s, op), t)
    requires Resolve(s, op.request, op.previous, op.next, op.resume, op.expected, op.body).1.Ok?
    requires t.clock <= s.clock + 90 * DAY
    ensures Resolve(t, op.request, op.previous, op.next, op.resume, op.expected, op.body)
            == (t, Resolve(s, op.request, op.previous, op.next, op.resume, op.expected, op.body).1)
  {
    ResolveEffect(s, op.request, op.previous, op.next, op.resume, op.expected, op.body);
    ResolveExactly(s, op.request, op.previous, op.next, op.resume, op.expected, op.body);
    ResolveRepeats(t, op.request, op.previous, op.next, op.resume, op.expected, op.body);
  }

  /** In every run a recovery decided at step i, asked for again within ninety days, changes nothing and
      gets the same decision. */
  lemma RecoveryIsRepeatable(y: Sys, ops: seq<Op>, i: nat)
    requires i < |ops| && ops[i].Recovering? && ops[i].request !in Exec(y, ops[..i]).s.recoveries
    requires var op, s := ops[i], Exec(y, ops[..i]).s;
             Resolve(s, op.request, op.previous, op.next, op.resume, op.expected, op.body).1.Ok?
    requires Exec(y, ops).s.clock <= Exec(y, ops[..i]).s.clock + 90 * DAY
    ensures var op, s, t := ops[i], Exec(y, ops[..i]).s, Exec(y, ops).s;
            Resolve(t, op.request, op.previous, op.next, op.resume, op.expected, op.body)
            == (t, Resolve(s, op.request, op.previous, op.next, op.resume, op.expected, op.body).1)
  {
    AfterStep(y, ops, i);
    RunRemembers(y, ops, i + 1);
    ResolvedAgain(Exec(y, ops[..i]).s, ops[i], Exec(y, ops).s);
  }

  lemma AfterStep(y: Sys, ops: seq<Op>, i: nat)
    requires i < |ops|
    ensures Exec(y, ops[..i + 1]).s == Next(Exec(y, ops[..i]).s, ops[i])
  {
    assert ops[..i + 1][..i] == ops[..i];
  }

  lemma SubscribedAgain(s: Store, op: Op, t: Store)
    requires op.Subscribing? && op.request !in s.subscriptions && Subscribe(s, op.request, op.enabled).1.Ok?
    requires Remembers(Next(s, op), t) && t.clock <= s.clock + 90 * DAY
    ensures Subscribe(t, op.request, op.enabled) == (t, Ok(op.enabled))
    ensures Subscribe(t, op.request, !op.enabled).1.Err?
  {
    SubscribeEffect(s, op.request, op.enabled);
    SubscribeRepeats(t, op.request, op.enabled);
    SubscribeRepeats(t, op.request, !op.enabled);
  }

  /** The same for a subscription request; the opposite request under its key is refused. */
  lemma SubscriptionIsRepeatable(y: Sys, ops: seq<Op>, i: nat)
    requires i < |ops| && ops[i].Subscribing? && ops[i].request !in Exec(y, ops[..i]).s.subscriptions
    requires Subscribe(Exec(y, ops[..i]).s, ops[i].request, ops[i].enabled).1.Ok?
    requires Exec(y, ops).s.clock <= Exec(y, ops[..i]).s.clock + 90 * DAY
    ensures Subscribe(Exec(y, ops).s, ops[i].request, ops[i].enabled) == (Exec(y, ops).s, Ok(ops[i].enabled))
    ensures Subscribe(Exec(y, ops).s, ops[i].request, !ops[i].enabled).1.Err?
  {
    AfterStep(y, ops, i);
    RunRemembers(y, ops, i + 1);
    SubscribedAgain(Exec(y, ops[..i]).s, ops[i], Exec(y, ops).s);
  }
}
