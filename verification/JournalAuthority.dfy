/** Owner authority never overlaps. A grant holds authority from `grantedAt` to the earlier of
    `validUntil` and `closedAt`; over every run, two grants of a channel share at most an instant. */
module JournalAuthority {
  import opened JournalTypes
  import opened JournalOps
  import opened JournalRuns

  /** Of two grants on one channel, one ended before or when the other began. */
  predicate Apart(g: Grant, k: Grant) {
    g.channel == k.channel ==> g.End() <= k.grantedAt || k.End() <= g.grantedAt
  }

  predicate Timely(g: Grant, clock: Time) {
    && g.grantedAt <= clock && g.grantedAt <= g.validUntil <= clock + GRANT_LIFE
    && (g.closedAt.Some? ==> g.grantedAt <= g.closedAt.value <= clock)
  }

  predicate Owns(channels: map<Channel, ChannelRow>, ch: Channel, t: Token) {
    ch in channels && channels[ch].owner == Some(t)
  }

  /** Authority over the tables it rests on; `ever` holds every grant there has been. */
  ghost predicate Sound(clock: Time, channels: map<Channel, ChannelRow>,
                        grants: map<Token, Grant>, ever: map<Token, Grant>)
  {
    && (forall t :: t in grants ==> t in ever && ever[t] == grants[t])
    && (forall t :: t in ever ==> Timely(ever[t], clock))
    && (forall t :: t in ever && ever[t].Live(clock) ==> Owns(channels, ever[t].channel, t))
    && (forall ch, t :: Owns(channels, ch, t) ==> t in grants && grants[t].channel == ch)
    && (forall t, u :: t in ever && u in ever && t != u ==> Apart(ever[t], ever[u]))
  }

  ghost predicate Authority(y: Sys) {
    Sound(y.s.clock, y.s.channels, y.s.grants, y.h.grants)
  }

  /** A grant that only loses authority: unchanged, or closed at `clock`. */
  predicate Fades(g: Grant, k: Grant, clock: Time) {
    k == g || (g.closedAt.None? && g.grantedAt <= clock && k == g.(closedAt := Some(clock)))
  }

  lemma FadedApart(g: Grant, k: Grant, g': Grant, k': Grant, clock: Time)
    requires Apart(g, k) && Fades(g, g', clock) && Fades(k, k', clock)
    ensures Apart(g', k')
  {
  }

  lemma FadedTimely(g: Grant, g': Grant, before: Time, clock: Time)
    requires Timely(g, before) && Fades(g, g', clock) && before <= clock
    ensures Timely(g', clock) && g'.channel == g.channel
    ensures g'.Live(clock) ==> g.Live(before)
  {
  }

  /** No step but acquiring and renewing gives authority to anyone. */
  lemma FadingKeepsSound(clock: Time, channels: map<Channel, ChannelRow>, grants: map<Token, Grant>,
                         ever: map<Token, Grant>, clock': Time, channels': map<Channel, ChannelRow>,
                         grants': map<Token, Grant>, ever': map<Token, Grant>)
    requires Sound(clock, channels, grants, ever) && clock <= clock' && ever'.Keys == ever.Keys
    requires forall t :: t in ever ==> Fades(ever[t], ever'[t], clock')
    requires forall t :: t in grants' ==> t in ever' && ever'[t] == grants'[t]
    requires forall ch, t :: Owns(channels', ch, t) ==> Owns(channels, ch, t) && t in grants'
    requires forall ch, t :: Owns(channels, ch, t) && ever'[t].Live(clock') ==> Owns(channels', ch, t)
    ensures Sound(clock', channels', grants', ever')
  {
    forall t | t in ever' ensures Timely(ever'[t], clock')
      ensures ever'[t].Live(clock') ==> Owns(channels', ever'[t].channel, t)
    {
      FadedTimely(ever[t], ever'[t], clock, clock');
    }
    forall ch, t | Owns(channels', ch, t) ensures t in grants' && grants'[t].channel == ch {
      FadedTimely(ever[t], ever'[t], clock, clock');
    }
    forall t, u | t in ever' && u in ever' && t != u ensures Apart(ever'[t], ever'[u]) {
      FadedApart(ever[t], ever[u], ever'[t], ever'[u], clock');
    }
  }

  lemma FadingKeepsAuthority(y: Sys, z: Sys)
    requires Authority(y)
    requires y.s.clock <= z.s.clock
    requires z.h.grants.Keys == y.h.grants.Keys
    requires forall t :: t in y.h.grants ==> Fades(y.h.grants[t], z.h.grants[t], z.s.clock)
    requires forall t :: t in z.s.grants ==> t in z.h.grants && z.h.grants[t] == z.s.grants[t]
    requires forall ch, t :: Owns(z.s.channels, ch, t) ==> Owns(y.s.channels, ch, t) && t in z.s.grants
    requires forall ch, t :: Owns(y.s.channels, ch, t) && z.h.grants[t].Live(z.s.clock) ==> Owns(z.s.channels, ch, t)
    ensures Authority(z)
  {
    FadingKeepsSound(y.s.clock, y.s.channels, y.s.grants, y.h.grants, z.s.clock, z.s.channels, z.s.grants, z.h.grants);
  }

  /** A step that leaves grants and owners alone keeps authority, however long it takes. */
  lemma QuietKeepsAuthority(y: Sys, z: Sys)
    requires Authority(y) && y.s.clock <= z.s.clock
    requires z.s.grants == y.s.grants && z.h.grants == y.h.grants
    requires forall ch, t :: Owns(z.s.channels, ch, t) <==> Owns(y.s.channels, ch, t)
    ensures Authority(z)
  {
    FadingKeepsAuthority(y, z);
  }

  lemma NothingLiveOn(clock: Time, channels: map<Channel, ChannelRow>, grants: map<Token, Grant>,
                      ever: map<Token, Grant>, ch: Channel, t: Token)
    requires Sound(clock, channels, grants, ever) && ch in channels
    requires channels[ch].owner.Some? ==>
               var o := channels[ch].owner.value; o in grants && !grants[o].Live(clock)
    requires t in ever && ever[t].channel == ch
    ensures ever[t].End() <= clock
  {
    assert ever[t].Live(clock) ==> Owns(channels, ch, t);
    assert Timely(ever[t], clock);
  }

  lemma AcquireKeepsSound(clock: Time, channels: map<Channel, ChannelRow>, grants: map<Token, Grant>,
                          ever: map<Token, Grant>, ch: Channel, token: Token, g: Grant)
    requires Sound(clock, channels, grants, ever) && ch in channels && token !in ever
    requires channels[ch].owner.Some? ==>
               var o := channels[ch].owner.value; o in grants && !grants[o].Live(clock)
    requires g.channel == ch && g.grantedAt == clock <= g.validUntil <= clock + GRANT_LIFE && g.closedAt.None?
    ensures Sound(clock, channels[ch := channels[ch].(owner := Some(token))], grants[token := g], ever[token := g])
  {
    var channels' := channels[ch := channels[ch].(owner := Some(token))];
    var grants', ever' := grants[token := g], ever[token := g];
    forall c, t | Owns(channels', c, t) ensures t in grants' && grants'[t].channel == c {
      if c != ch {
        assert Owns(channels, c, t);
      }
    }
    forall t | t in ever' && ever'[t].Live(clock) ensures Owns(channels', ever'[t].channel, t) {
      if t != token {
        assert Owns(channels, ever[t].channel, t);
      }
    }
    forall t, u | t in ever' && u in ever' && t != u ensures Apart(ever'[t], ever'[u]) {
      if t == token && ever[u].channel == ch {
        NothingLiveOn(clock, channels, grants, ever, ch, u);
      } else if u == token && ever[t].channel == ch {
        NothingLiveOn(clock, channels, grants, ever, ch, t);
      }
    }
  }

  lemma RenewedApart(g: Grant, k: Grant, clock: Time, until: Time)
    requires Apart(g, k) && Timely(g, clock) && Timely(k, clock) && g.Live(clock)
    ensures Apart(g.(validUntil := until), k) && Apart(k, g.(validUntil := until))
  {
  }

  lemma RenewKeepsSound(clock: Time, channels: map<Channel, ChannelRow>, grants: map<Token, Grant>,
                        ever: map<Token, Grant>, token: Token, until: Time)
    requires Sound(clock, channels, grants, ever) && clock <= until <= clock + GRANT_LIFE
    requires token in grants && grants[token].Live(clock)
    ensures var g := grants[token].(validUntil := until);
            Sound(clock, channels, grants[token := g], ever[token := g])
  {
    var g := grants[token].(validUntil := until);
    var grants', ever' := grants[token := g], ever[token := g];
    forall t | t in ever' && ever'[t].Live(clock) ensures Owns(channels, ever'[t].channel, t) {
      assert ever[t].Live(clock);
    }
    forall t, u | t in ever' && u in ever' && t != u ensures Apart(ever'[t], ever'[u]) {
      if t == token {
        RenewedApart(ever[t], ever[u], clock, until);
      } else if u == token {
        RenewedApart(ever[u], ever[t], clock, until);
      }
    }
  }

  lemma MergeOne(grants: map<Token, Grant>, ever: map<Token, Grant>, token: Token, g: Grant)
    requires forall t :: t in grants ==> t in ever && ever[t] == grants[t]
    ensures ever + grants[token := g] == ever[token := g]
    ensures ever + grants == ever
  {
  }

  lemma MergeSome(grants: map<Token, Grant>, ever: map<Token, Grant>, kept: map<Token, Grant>)
    requires forall t :: t in grants ==> t in ever && ever[t] == grants[t]
    requires forall t :: t in kept ==> t in grants && kept[t] == grants[t]
    ensures ever + kept == ever
  {
  }

  /** The remaining steps leave owner tokens and grants as they are. */
  predicate GrantOp(op: Op) {
    op.Tick? || op.Ensuring? || op.Acquiring? || op.Renewing? || op.Releasing? || op.Subscribing?
    || op.Cleaning? || op.Rotating?
  }

  lemma OtherOpsKeepOwners(s: Store, op: Op, ch: Channel)
    requires !GrantOp(op)
    ensures Next(s, op).grants == s.grants && Next(s, op).clock == s.clock
    ensures ch in Next(s, op).channels <==> ch in s.channels
    ensures ch in s.channels ==> Next(s, op).channels[ch].owner == s.channels[ch].owner
  {
    var t := Next(s, op);
    if t == s {
    } else if op.Appending? {
      assert t == Journaled(s, Append(s, op.grant, op.donation, op.acceptedAt, op.length, op.size).1.value, op.size);
    } else if op.Expiring? {
      var c := s.channels[op.channel];
      assert t == ExpiredTo(s, op.channel, t.channels[op.channel].expiredThrough);
    } else {
      assert t.channels == s.channels;
    }
  }

  lemma OtherOpsKeepAuthority(y: Sys, op: Op)
    requires Authority(y) && !GrantOp(op)
    ensures Authority(Step(y, op))
  {
    var z := Step(y, op);
    forall ch, t ensures Owns(z.s.channels, ch, t) <==> Owns(y.s.channels, ch, t) {
      OtherOpsKeepOwners(y.s, op, ch);
    }
    OtherOpsKeepOwners(y.s, op, Name(""));
    RecordingKeepsGrants(y, op);
    QuietKeepsAuthority(y, z);
  }

  lemma RecordingKeepsGrants(y: Sys, op: Op)
    requires Authority(y)
    ensures Recorded(y.h, y.s, op).grants == y.h.grants
    ensures Step(y, op).s.grants == y.s.grants ==> Step(y, op).h.grants == y.h.grants
  {
    MergeSome(y.s.grants, y.h.grants, y.s.grants);
  }

  lemma EnsuringKeepsAuthority(y: Sys, ch: Channel, generation: Name)
    requires Authority(y)
    ensures Authority(Step(y, Ensuring(ch, generation)))
  {
    var z := Step(y, Ensuring(ch, generation));
    RecordingKeepsGrants(y, Ensuring(ch, generation));
    if z.s != y.s {
      assert z.s.channels == y.s.channels[ch := ChannelRow(generation, 0, 0, true, None)];
    }
    QuietKeepsAuthority(y, z);
  }

  lemma AcquiringKeepsAuthority(y: Sys, ch: Channel, worker: Name, token: Token)
    requires Authority(y) && token !in y.h.grants
    ensures Authority(Step(y, Acquiring(ch, worker, token)))
  {
    var z := Step(y, Acquiring(ch, worker, token));
    if Acquire(y.s, ch, worker, token).1.Err? {
      RecordingKeepsGrants(y, Acquiring(ch, worker, token));
      QuietKeepsAuthority(y, z);
    } else {
      var g := z.s.grants[token];
      AcquireKeepsSound(y.s.clock, y.s.channels, y.s.grants, y.h.grants, ch, token, g);
      MergeOne(y.s.grants, y.h.grants, token, g);
    }
  }

  lemma RenewingKeepsAuthority(y: Sys, g: OwnerGrant)
    requires Authority(y)
    ensures Authority(Step(y, Renewing(g)))
  {
    var z := Step(y, Renewing(g));
    if Renew(y.s, g).1.Err? {
      RecordingKeepsGrants(y, Renewing(g));
      QuietKeepsAuthority(y, z);
    } else {
      var until := z.s.grants[g.token].validUntil;
      RenewKeepsSound(y.s.clock, y.s.channels, y.s.grants, y.h.grants, g.token, until);
      MergeOne(y.s.grants, y.h.grants, g.token, z.s.grants[g.token]);
    }
  }

  lemma ReleasingKeepsAuthority(y: Sys, token: Token)
    requires Authority(y)
    ensures Authority(Step(y, Releasing(token)))
  {
    var z := Step(y, Releasing(token));
    if token in y.s.grants {
      assert Timely(y.h.grants[token], y.s.clock);
      MergeOne(y.s.grants, y.h.grants, token, z.s.grants[token]);
    } else {
      MergeSome(y.s.grants, y.h.grants, z.s.grants);
    }
    FadingKeepsAuthority(y, z);
  }

  /** Closing all grants of a channel, with or without dropping its owner token. */
  lemma ClosingKeepsAuthority(y: Sys, z: Sys, ch: Channel, row: ChannelRow)
    requires Authority(y) && ch in y.s.channels
    requires z.s.clock == y.s.clock && z.s.grants == CloseChannel(y.s.grants, ch, y.s.clock)
    requires z.h.grants == y.h.grants + z.s.grants
    requires z.s.channels == y.s.channels[ch := row]
    requires row.owner == y.s.channels[ch].owner || row.owner == None
    ensures Authority(z)
  {
    assert z.s.grants.Keys == y.s.grants.Keys;
    forall t | t in y.h.grants ensures Fades(y.h.grants[t], z.h.grants[t], z.s.clock) {
      assert Timely(y.h.grants[t], y.s.clock);
    }
    forall c, t | Owns(z.s.channels, c, t) ensures Owns(y.s.channels, c, t) && t in z.s.grants {
      assert Owns(y.s.channels, c, t);
    }
    FadingKeepsAuthority(y, z);
  }

  lemma SubscribingKeepsAuthority(y: Sys, rk: RequestKey, enabled: bool)
    requires Authority(y)
    ensures Authority(Step(y, Subscribing(rk, enabled)))
  {
    var z := Step(y, Subscribing(rk, enabled));
    var ch := rk.channel;
    if z.s == y.s || enabled {
      RecordingKeepsGrants(y, Subscribing(rk, enabled));
      if z.s != y.s {
        assert z.s.channels == y.s.channels[ch := y.s.channels[ch].(subscribed := enabled)];
      }
      QuietKeepsAuthority(y, z);
    } else {
      ClosingKeepsAuthority(y, z, ch, y.s.channels[ch].(subscribed := false));
    }
  }

  lemma RotatingKeepsAuthority(y: Sys, ch: Channel, from: Name, reason: Name, next: Name)
    requires Authority(y)
    ensures Authority(Step(y, Rotating(ch, from, reason, next)))
  {
    var z := Step(y, Rotating(ch, from, reason, next));
    if Rotate(y.s, ch, from, reason, next).1.Ok? {
      ClosingKeepsAuthority(y, z, ch, y.s.channels[ch].(generation := next, owner := None));
    } else {
      RecordingKeepsGrants(y, Rotating(ch, from, reason, next));
      QuietKeepsAuthority(y, z);
    }
  }

  /** Clean-up may forget old grants, but never the one the owner token names. */
  lemma CleaningKeepsAuthority(y: Sys, ch: Channel)
    requires Authority(y)
    ensures Authority(Step(y, Cleaning(ch)))
  {
    var z := Step(y, Cleaning(ch));
    MergeSome(y.s.grants, y.h.grants, z.s.grants);
    forall c, t | Owns(z.s.channels, c, t) ensures t in z.s.grants {
      assert t in y.s.grants && y.s.grants[t].channel == c;
    }
    FadingKeepsAuthority(y, z);
  }

  lemma StepKeepsAuthority(y: Sys, op: Op, accepted: EventId -> Time)
    requires Authority(y) && Enabled(y, op, accepted)
    ensures Authority(Step(y, op))
  {
    match op
    case Tick(d) => RecordingKeepsGrants(y, op); QuietKeepsAuthority(y, Step(y, op));
    case Ensuring(ch, gen) => EnsuringKeepsAuthority(y, ch, gen);
    case Acquiring(ch, w, t) => AcquiringKeepsAuthority(y, ch, w, t);
    case Renewing(g) => RenewingKeepsAuthority(y, g);
    case Releasing(t) => ReleasingKeepsAuthority(y, t);
    case Subscribing(rk, enabled) => SubscribingKeepsAuthority(y, rk, enabled);
    case Cleaning(ch) => CleaningKeepsAuthority(y, ch);
    case Rotating(ch, from, reason, next) => RotatingKeepsAuthority(y, ch, from, reason, next);
    case _ => OtherOpsKeepAuthority(y, op);
  }
}
