/** The journal's promises over whole runs: every property below holds after any legal sequence of
    transactions, starting from an empty store. */
module JournalTheorems {
  import opened JournalTypes
  import opened JournalOps
  import opened JournalShape
  import opened JournalRuns
  import opened JournalAuthority
  import opened JournalDedup
  import opened JournalCoverage
  import opened JournalRetention

  // ---- Grants only age ----

  /** A grant keeps its channel and start, is only prolonged, and closes once, at the time of the step. */
  predicate Ages(g: Grant, k: Grant, clock: Time) {
    && k.channel == g.channel && k.grantedAt == g.grantedAt && g.validUntil <= k.validUntil
    && (k.closedAt == g.closedAt || (g.closedAt.None? && k.closedAt == Some(clock)))
  }

  lemma RenewAges(s: Store, g: OwnerGrant, t: Token)
    requires t in s.grants && s.grants[t].validUntil <= s.clock + GRANT_LIFE
    ensures var z := Renew(s, g).0; t in z.grants && Ages(s.grants[t], z.grants[t], s.clock)
  {
    if Renew(s, g).1.Err? { assert Renew(s, g).0 == s; }
  }

  lemma AcquireAges(s: Store, ch: Channel, worker: Name, token: Token, t: Token)
    requires t in s.grants
    ensures var z := Acquire(s, ch, worker, token).0; t in z.grants && z.grants[t] == s.grants[t]
  {
    if Acquire(s, ch, worker, token).1.Err? { assert Acquire(s, ch, worker, token).0 == s; }
  }

  lemma SubscribeAges(s: Store, rk: RequestKey, enabled: bool, t: Token)
    requires t in s.grants
    ensures var z := Subscribe(s, rk, enabled).0; t in z.grants && Ages(s.grants[t], z.grants[t], s.clock)
  {
    if Subscribe(s, rk, enabled).1.Err? { assert Subscribe(s, rk, enabled).0 == s; }
  }

  lemma RotateAges(s: Store, ch: Channel, expected: Name, reason: Name, next: Name, t: Token)
    requires t in s.grants
    ensures var z := Rotate(s, ch, expected, reason, next).0; t in z.grants && Ages(s.grants[t], z.grants[t], s.clock)
  {
    if Rotate(s, ch, expected, reason, next).1.Err? { assert Rotate(s, ch, expected, reason, next).0 == s; }
  }

  lemma StoredGrantAges(s: Store, op: Op, t: Token)
    requires t in s.grants && t in Next(s, op).grants && s.grants[t].validUntil <= s.clock + GRANT_LIFE
    ensures Ages(s.grants[t], Next(s, op).grants[t], s.clock)
  {
    if op.Acquiring? {
      AcquireAges(s, op.channel, op.worker, op.token, t);
    } else if op.Renewing? {
      RenewAges(s, op.grant, t);
    } else if op.Subscribing? {
      SubscribeAges(s, op.request, op.enabled, t);
    } else if op.Rotating? {
      RotateAges(s, op.channel, op.from, op.reason, op.next, t);
    } else {
      OtherGrantsStay(s, op, t);
    }
  }

  lemma ReleaseAges(s: Store, token: Token, t: Token)
    requires t in s.grants
    ensures t in Release(s, token).grants && Ages(s.grants[t], Release(s, token).grants[t], s.clock)
  {
    if token in s.grants {
      assert Release(s, token).grants == s.grants[token := s.grants[token].Close(s.clock)];
    } else {
      assert Release(s, token) == s;
    }
  }

  lemma CleanupAges(s: Store, ch: Channel, t: Token)
    ensures t in Cleanup(s, ch).grants ==> t in s.grants && Cleanup(s, ch).grants[t] == s.grants[t]
  {
  }

  lemma OtherGrantsStay(s: Store, op: Op, t: Token)
    requires t in s.grants && t in Next(s, op).grants
    requires !op.Acquiring? && !op.Renewing? && !op.Subscribing? && !op.Rotating?
    ensures Ages(s.grants[t], Next(s, op).grants[t], s.clock)
  {
    match op
    case Releasing(token) => ReleaseAges(s, token, t);
    case Cleaning(ch) => CleanupAges(s, ch, t);
    case Tick(d) =>
    case Ensuring(ch, gen) => EnsureKeepsGrants(s, ch, gen);
    case _ => OtherOpsKeepOwners(s, op, Name(""));
  }

  lemma EnsureKeepsGrants(s: Store, ch: Channel, generation: Name)
    ensures EnsureCollection(s, ch, generation).0.grants == s.grants
  {
  }

  /** Only acquiring adds a grant to the table. */
  lemma NewGrantsAreAcquired(s: Store, op: Op, t: Token)
    ensures t in Next(s, op).grants ==> t in s.grants || (op.Acquiring? && op.token == t)
  {
    if op.Acquiring? {
      if Acquire(s, op.channel, op.worker, op.token).1.Err? { assert Next(s, op) == s; }
    } else if op.Renewing? {
      if Renew(s, op.grant).1.Err? { assert Next(s, op) == s; }
    } else if op.Subscribing? {
      if Subscribe(s, op.request, op.enabled).1.Err? { assert Next(s, op) == s; }
    } else if op.Rotating? {
      if Rotate(s, op.channel, op.from, op.reason, op.next).1.Err? { assert Next(s, op) == s; }
    } else if op.Ensuring? {
      EnsureKeepsGrants(s, op.channel, op.generation);
    } else if op.Cleaning? {
      CleanupAges(s, op.channel, t);
    } else if !GrantOp(op) {
      OtherOpsKeepOwners(s, op, Name(""));
    }
  }

  lemma GrantAges(y: Sys, op: Op, accepted: EventId -> Time, t: Token)
    requires Authority(y) && Enabled(y, op, accepted) && t in y.h.grants
    ensures t in Step(y, op).h.grants && Ages(y.h.grants[t], Step(y, op).h.grants[t], y.s.clock)
  {
    RecordingKeepsGrants(y, op);
    NewGrantsAreAcquired(y.s, op, t);
    if t in Next(y.s, op).grants {
      assert Timely(y.h.grants[t], y.s.clock);
      StoredGrantAges(y.s, op, t);
    }
  }

  // ---- Journaled under authority ----

  /** An event was accepted while its grant held authority; the clock allowance of the append check
      can put it at most one second past a later closing. */
  predicate UnderGrant(h: History, x: Issue) {
    && x.token in h.grants
    && var g := h.grants[x.token];
       && g.channel == x.channel && g.grantedAt <= x.acceptedAt <= g.validUntil
       && (g.closedAt.Some? ==> x.acceptedAt <= g.closedAt.value + SECOND)
  }

  ghost predicate Authorized(y: Sys) {
    forall i :: 0 <= i < |y.h.issued| ==>
      UnderGrant(y.h, y.h.issued[i]) && y.h.issued[i].acceptedAt <= y.s.clock + SECOND
  }

  lemma AgedStillUnderGrant(h: History, h': History, x: Issue, clock: Time)
    requires UnderGrant(h, x) && x.acceptedAt <= clock + SECOND
    requires x.token in h'.grants && Ages(h.grants[x.token], h'.grants[x.token], clock)
    ensures UnderGrant(h', x)
  {
  }

  lemma StepAppendsIssues(y: Sys, op: Op)
    ensures y.s.clock <= Step(y, op).s.clock
    ensures if Journals(y.s, op) then |Step(y, op).h.issued| == |y.h.issued| + 1 && y.h.issued <= Step(y, op).h.issued
            else Step(y, op).h.issued == y.h.issued
  {
    ClockAdvances(y.s, op);
  }

  lemma ClockAdvances(s: Store, op: Op)
    ensures s.clock <= Next(s, op).clock
  {
    if op.Cleaning? {
    } else if Journals(s, op) {
      var d := Append(s, op.grant, op.donation, op.acceptedAt, op.length, op.size).1.value;
      assert Next(s, op) == Journaled(s, d, op.size);
    } else {
      OtherOpsKeepSlots(s, op);
    }
  }

  /** What the append check has established about a newly journaled event. */
  lemma NewIssueIsAuthorized(y: Sys, op: Op)
    requires Authority(y) && Journals(y.s, op)
    ensures var z := Step(y, op); var x := z.h.issued[|y.h.issued|];
            x.token in y.h.grants && UnderGrant(y.h, x) && x.acceptedAt <= y.s.clock + SECOND
  {
    assert op.grant.token in y.s.grants;
  }

  lemma StepKeepsAuthorized(y: Sys, op: Op, accepted: EventId -> Time)
    requires Authorized(y) && Authority(y) && Enabled(y, op, accepted)
    ensures Authorized(Step(y, op))
  {
    var z := Step(y, op);
    StepAppendsIssues(y, op);
    if Journals(y.s, op) {
      NewIssueIsAuthorized(y, op);
    }
    forall i | 0 <= i < |z.h.issued|
      ensures UnderGrant(z.h, z.h.issued[i]) && z.h.issued[i].acceptedAt <= z.s.clock + SECOND
    {
      var x := z.h.issued[i];
      assert i < |y.h.issued| ==> x == y.h.issued[i];
      GrantAges(y, op, accepted, x.token);
      AgedStillUnderGrant(y.h, z.h, x, y.s.clock);
    }
  }

  // ---- The run invariant ----

  ghost predicate Inv(y: Sys, accepted: EventId -> Time) {
    Shape(y.s) && Authority(y) && Dedup(y, accepted) && Coverage(y) && Retained(y) && Authorized(y)
  }

  lemma StepKeepsInv(y: Sys, op: Op, accepted: EventId -> Time)
    requires Inv(y, accepted) && Enabled(y, op, accepted)
    ensures Inv(Step(y, op), accepted)
  {
    StepKeepsShape(y.s, op);
    StepKeepsAuthority(y, op, accepted);
    StepKeepsDedup(y, op, accepted);
    StepKeepsCoverage(y, op, accepted);
    StepKeepsRetained(y, op);
    StepKeepsAuthorized(y, op, accepted);
  }

  lemma {:induction false} RunKeepsInv(y: Sys, ops: seq<Op>, accepted: EventId -> Time)
    requires Inv(y, accepted) && Legal(y, ops, accepted)
    ensures Inv(Exec(y, ops), accepted)
    decreases |ops|
  {
    if ops != [] {
      RunKeepsInv(y, ops[..|ops| - 1], accepted);
      StepKeepsInv(Exec(y, ops[..|ops| - 1]), ops[|ops| - 1], accepted);
    }
  }

  ghost predicate Reachable(y: Sys, accepted: EventId -> Time) {
    exists clock, allowed, ops :: Legal(Empty(clock, allowed), ops, accepted) && y == Exec(Empty(clock, allowed), ops)
  }

  lemma EmptyInv(clock: Time, allowed: set<Channel>, accepted: EventId -> Time)
    ensures Inv(Empty(clock, allowed), accepted)
  {
  }

  lemma ReachableInv(y: Sys, accepted: EventId -> Time)
    requires Reachable(y, accepted)
    ensures Inv(y, accepted)
  {
    var clock, allowed, ops :| Legal(Empty(clock, allowed), ops, accepted) && y == Exec(Empty(clock, allowed), ops);
    EmptyInv(clock, allowed, accepted);
    RunKeepsInv(Empty(clock, allowed), ops, accepted);
  }

  // ---- Theorems ----

  /** Two grants of one channel never both hold authority at two instants, the only live grant is the
      one the owner token names, and the owner token always names a stored grant. */
  lemma OwnersNeverOverlap(y: Sys, accepted: EventId -> Time)
    requires Reachable(y, accepted)
    ensures forall t, u, a, b ::
              (t in y.h.grants && u in y.h.grants && t != u && y.h.grants[t].channel == y.h.grants[u].channel
               && y.h.grants[t].Accepts(a) && y.h.grants[u].Accepts(a)
               && y.h.grants[t].Accepts(b) && y.h.grants[u].Accepts(b)) ==> a == b
    ensures forall t :: t in y.h.grants && y.h.grants[t].Live(y.s.clock) ==>
              Owns(y.s.channels, y.h.grants[t].channel, t)
    ensures forall ch, t :: Owns(y.s.channels, ch, t) ==> t in y.s.grants && y.s.grants[t].channel == ch
  {
    ReachableInv(y, accepted);
    forall t, u, a, b | t in y.h.grants && u in y.h.grants && t != u && y.h.grants[t].channel == y.h.grants[u].channel
      && y.h.grants[t].Accepts(a) && y.h.grants[u].Accepts(a)
      && y.h.grants[t].Accepts(b) && y.h.grants[u].Accepts(b)
      ensures a == b
    {
      assert Apart(y.h.grants[t], y.h.grants[u]);
    }
  }

  /** An event is given an offset at most once, an offset is given to at most one event, and no offset
      is left out. */
  lemma EventsAndOffsetsPairUp(y: Sys, accepted: EventId -> Time)
    requires Reachable(y, accepted)
    ensures forall i, j ::
              (0 <= i < |y.h.issued| && 0 <= j < |y.h.issued| && y.h.issued[i].event == y.h.issued[j].event) ==> i == j
    ensures forall i, j ::
              (0 <= i < |y.h.issued| && 0 <= j < |y.h.issued| && y.h.issued[i].channel == y.h.issued[j].channel
               && y.h.issued[i].offset == y.h.issued[j].offset) ==> i == j
    ensures forall ch, o: nat ::
              (ch in y.s.channels && 1 <= o <= y.s.channels[ch].current) ==> GivenOut(y.h.issued, ch, o)
  {
    ReachableInv(y, accepted);
    forall i, j | 0 <= i < |y.h.issued| && 0 <= j < |y.h.issued|
      ensures y.h.issued[i].event == y.h.issued[j].event ==> i == j
      ensures y.h.issued[i].channel == y.h.issued[j].channel && y.h.issued[i].offset == y.h.issued[j].offset ==> i == j
    {
      assert OnceEach(y.h.issued);
    }
  }

  /** Every journaled event was accepted under the grant it was submitted with. */
  lemma EveryEventWasAuthorized(y: Sys, accepted: EventId -> Time, i: nat)
    requires Reachable(y, accepted) && i < |y.h.issued|
    ensures UnderGrant(y.h, y.h.issued[i]) && y.h.issued[i].acceptedAt == accepted(y.h.issued[i].event)
  {
    ReachableInv(y, accepted);
  }

  /** No silent loss, for every consumer never moved across generations. */
  lemma NoSilentLoss(y: Sys, accepted: EventId -> Time, k: ConsumerKey, i: nat)
    requires Reachable(y, accepted) && k in y.s.consumers && k !in y.h.crossed && i < |y.h.issued|
    requires y.h.issued[i].channel == k.channel && y.h.issued[i].offset <= y.s.consumers[k].Settled()
    ensures k in y.h.first && Accounted(y.h, k, y.h.issued[i])
  {
    ReachableInv(y, accepted);
    assert ProgressShape(y.s, k);
    assert AllAccounted(y.h, k, y.s.consumers[k].offered);
  }

  /** Until a retention limit forces expiry on a channel, nothing a consumer still needs has expired. */
  lemma UnforcedRetentionWaits(y: Sys, accepted: EventId -> Time, k: ConsumerKey)
    requires Reachable(y, accepted) && k in y.s.consumers && k.channel !in y.h.forced
    ensures k.channel in y.s.channels
    ensures y.s.channels[k.channel].expiredThrough <= y.s.consumers[k].Settled()
  {
    ReachableInv(y, accepted);
    assert ProgressShape(y.s, k);
  }
}
