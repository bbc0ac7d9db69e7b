/** What a worker run keeps: a saved donation is on disk or journaled after any crash, and everything
    published was accepted inside its grant's database validity. */
module WorkerSafety {
  import opened JournalTypes
  import opened JournalOps
  import opened JournalRuns
  import opened JournalAuthority
  import opened JournalDedup
  import opened JournalTheorems
  import opened WorkerRuns

  // ---- What the journal's progress never takes back ----

  ghost predicate EverJournaled(h: History, e: EventId) {
    exists i :: 0 <= i < |h.issued| && h.issued[i].event == e
  }

  ghost predicate Grows(y: Sys, z: Sys) {
    && y.s.clock <= z.s.clock
    && (forall e :: EverJournaled(y.h, e) ==> EverJournaled(z.h, e))
    && (forall t :: t in y.h.grants ==>
          && t in z.h.grants && z.h.grants[t].channel == y.h.grants[t].channel
          && z.h.grants[t].grantedAt == y.h.grants[t].grantedAt && y.h.grants[t].validUntil <= z.h.grants[t].validUntil)
  }

  lemma StepGrows(y: Sys, op: Op, accepted: EventId -> Time)
    requires Authority(y) && Enabled(y, op, accepted)
    ensures Grows(y, Step(y, op))
  {
    var z := Step(y, op);
    StepAppendsIssues(y, op);
    forall e | EverJournaled(y.h, e) ensures EverJournaled(z.h, e) {
      var i :| 0 <= i < |y.h.issued| && y.h.issued[i].event == e;
      assert z.h.issued[i] == y.h.issued[i];
    }
    forall t | t in y.h.grants
      ensures t in z.h.grants && Ages(y.h.grants[t], z.h.grants[t], y.s.clock)
    {
      GrantAges(y, op, accepted, t);
    }
  }

  lemma StoredIsIssued(y: Sys, accepted: EventId -> Time, e: EventId)
    requires Dedup(y, accepted) && e in y.s.donations
    ensures EverJournaled(y.h, e)
  {
    assert Known(y.h.issued, e, y.s.donations[e].channel, y.s.donations[e].offset);
  }

  // ---- Local authority ----

  /** A local deadline the database grant outlives. */
  ghost predicate Backed(y: Sys, g: OwnerGrant, deadline: Time) {
    && g.token in y.h.grants && y.h.grants[g.token].channel == g.channel
    && y.h.grants[g.token].grantedAt <= y.s.clock && deadline <= y.h.grants[g.token].validUntil
  }

  ghost predicate SessionOk(y: Sys, n: Session) {
    match n
    case Starting(started) => started <= y.s.clock
    case Active(g, deadline, renewal) =>
      && Backed(y, g, deadline)
      && match renewal
         case NoRenewal => true
         case Requested(started) => started <= y.s.clock
         case Confirmed(started) => Backed(y, g, started + 30 * SECOND)
  }

  ghost predicate SessionsOk(w: World) {
    && (forall id :: id in w.sessions ==> SessionOk(w.y, w.sessions[id]))
    && (forall c :: c in w.captures ==> Backed(w.y, c.grant, c.deadline))
  }

  lemma GrowthKeepsSession(y: Sys, z: Sys, n: Session)
    requires SessionOk(y, n) && Grows(y, z)
    ensures SessionOk(z, n)
  {
  }

  /** An acquisition that began at `started` is valid at least until `started` plus the grant life. */
  lemma AcquiredIsBacked(y: Sys, ch: Channel, worker: Name, token: Token, started: Time)
    requires Acquire(y.s, ch, worker, token).1.Ok? && started <= y.s.clock
    ensures var z := Step(y, Acquiring(ch, worker, token));
            Backed(z, OwnerGrant(token, ch, y.s.channels[ch].generation), started + 30 * SECOND)
  {
    var t := Acquire(y.s, ch, worker, token).0;
    assert t.grants[token].validUntil == y.s.clock + GRANT_LIFE;
  }

  lemma RenewedIsBacked(y: Sys, g: OwnerGrant, deadline: Time, started: Time)
    requires Authority(y) && Renew(y.s, g).1.Ok? && started <= y.s.clock && Backed(y, g, deadline)
    ensures Backed(Step(y, Renewing(g)), g, started + 30 * SECOND)
  {
    RenewExtends(y.s, g);
    assert y.h.grants[g.token] == y.s.grants[g.token];
  }

  lemma RenewExtends(s: Store, g: OwnerGrant)
    requires Renew(s, g).1.Ok?
    ensures g.token in s.grants
    ensures Renew(s, g).0.grants == s.grants[g.token := s.grants[g.token].(validUntil := s.clock + GRANT_LIFE)]
  {
  }

  lemma GrantedSession(w: World, a: Act, accepted: EventId -> Time)
    requires SessionsOk(w) && Authority(w.y) && Can(w, a, accepted) && (a.AcquireDone? || a.RenewCommit?)
    requires Grows(w.y, NextSys(w, a))
    ensures a.id in NextSession(w, a) && SessionOk(NextSys(w, a), NextSession(w, a)[a.id])
  {
    var n := w.sessions[a.id];
    assert SessionOk(w.y, n);
    if a.AcquireDone? {
      AcquiredIsBacked(w.y, a.channel, a.worker, a.token, n.started);
    } else {
      RenewedIsBacked(w.y, n.grant, n.deadline, n.renewal.started);
      GrowthKeepsSession(w.y, NextSys(w, a), n);
    }
  }

  lemma SessionStep(w: World, a: Act, accepted: EventId -> Time, id: Name)
    requires SessionsOk(w) && Authority(w.y) && Can(w, a, accepted) && Grows(w.y, NextSys(w, a))
    requires id in NextSession(w, a)
    ensures SessionOk(NextSys(w, a), NextSession(w, a)[id])
  {
    if (a.AcquireDone? || a.RenewCommit?) && a.id == id {
      GrantedSession(w, a, accepted);
    } else if id in w.sessions {
      GrowthKeepsSession(w.y, NextSys(w, a), w.sessions[id]);
    }
  }

  lemma SessionsStep(w: World, a: Act, accepted: EventId -> Time)
    requires SessionsOk(w) && Authority(w.y) && Can(w, a, accepted) && Grows(w.y, NextSys(w, a))
    ensures SessionsOk(Do(w, a))
  {
    forall id | id in NextSession(w, a) ensures SessionOk(NextSys(w, a), NextSession(w, a)[id]) {
      SessionStep(w, a, accepted, id);
    }
    forall c | c in NextCaptures(w, a) ensures Backed(NextSys(w, a), c.grant, c.deadline) {
      if c !in w.captures {
        assert SessionOk(w.y, w.sessions[a.id]);
      }
    }
  }

  // ---- The spool ----

  /** The record was accepted while its grant was valid in the database. */
  ghost predicate Covered(y: Sys, r: Record) {
    && r.grant.token in y.h.grants && y.h.grants[r.grant.token].channel == r.grant.channel
    && y.h.grants[r.grant.token].grantedAt <= r.acceptedAt <= y.h.grants[r.grant.token].validUntil
  }

  predicate Filed(dir: map<FileName, Record>, r: Record) {
    NameOf(r) in dir && dir[NameOf(r)] == r
  }

  /** On disk whatever a crash does, or journaled. */
  ghost predicate Kept(y: Sys, p: Spool, r: Record) {
    (Filed(p.live, r) && Filed(p.durable, r)) || EverJournaled(y.h, r.donation.eventId)
  }

  ghost predicate Published'(y: Sys, p: Spool, accepted: EventId -> Time) {
    && (forall r :: r in p.published ==>
          r.donation.eventId in p.saved && accepted(r.donation.eventId) == r.acceptedAt && Covered(y, r))
    && (forall q, r :: q in p.published && r in p.published && q.donation.eventId == r.donation.eventId ==> q == r)
  }

  ghost predicate Directories(p: Spool) {
    && (forall n :: n in p.live ==> n == NameOf(p.live[n]) && p.live[n] in p.published)
    && (forall n :: n in p.durable ==> n == NameOf(p.durable[n]) && p.durable[n] in p.published)
  }

  ghost predicate AtStage(y: Sys, p: Spool, accepted: EventId -> Time) {
    match p.pc
    case Idle => true
    case Saving(r, deadline, written) =>
      && r.donation.eventId in p.saved && accepted(r.donation.eventId) == r.acceptedAt
      && (forall q :: q in p.published ==> q.donation.eventId != r.donation.eventId)
      && Backed(y, r.grant, deadline) && y.h.grants[r.grant.token].grantedAt <= r.acceptedAt <= y.s.clock
    case Published(r) => r in p.published && Filed(p.live, r)
    case Draining(files, at, stage, saved) =>
      && (saved.Some? ==> saved.value in p.published && Kept(y, p, saved.value))
      && (!stage.AtFile? && at < |files| ==> EverJournaled(y.h, files[at].event))
  }

  ghost predicate SpoolOk(y: Sys, p: Spool, accepted: EventId -> Time) {
    && Published'(y, p, accepted) && Directories(p) && AtStage(y, p, accepted)
    && (forall r :: r in p.acked ==> r in p.published && Kept(y, p, r))
  }

  lemma GrowthKeepsSpool(y: Sys, z: Sys, p: Spool, accepted: EventId -> Time)
    requires SpoolOk(y, p, accepted) && Grows(y, z)
    ensures SpoolOk(z, p, accepted)
  {
    forall r | r in p.published ensures Covered(z, r) {
      assert Covered(y, r);
    }
    forall r | r in p.acked ensures Kept(z, p, r) {
      assert Kept(y, p, r);
    }
  }

  lemma ReturnKeepsSpool(y: Sys, p: Spool, accepted: EventId -> Time)
    requires SpoolOk(y, p, accepted)
    ensures SpoolOk(y, Returned(p), accepted) && SpoolOk(y, p.(pc := Idle), accepted)
  {
    var q := Returned(p);
    forall r | r in q.acked ensures r in q.published && Kept(y, q, r) {
      assert Kept(y, p, r);
    }
    forall r | r in p.acked ensures Kept(y, p.(pc := Idle), r) {
      assert Kept(y, p, r);
    }
  }

  /** A new file under a new name disturbs no record. */
  lemma PublishKeepsSpool(w: World, accepted: EventId -> Time)
    requires SpoolOk(w.y, w.spool, accepted) && Can(w, SavePublish, accepted)
    ensures SpoolOk(w.y, NextSpool(w, SavePublish), accepted)
  {
    var p, q := w.spool, NextSpool(w, SavePublish);
    var r := p.pc.record;
    forall x | x in q.acked ensures x in q.published && Kept(w.y, q, x) {
      assert Kept(w.y, p, x) && NameOf(x) != NameOf(r);
    }
    assert Covered(w.y, r);
  }

  lemma SyncKeepsSpool(y: Sys, p: Spool, pc: Pc, pending: set<FileName>, accepted: EventId -> Time)
    requires SpoolOk(y, p, accepted)
    requires AtStage(y, p.(pc := pc, durable := p.live, durablePending := pending), accepted)
    ensures SpoolOk(y, p.(pc := pc, durable := p.live, durablePending := pending), accepted)
  {
    var q := p.(pc := pc, durable := p.live, durablePending := pending);
    forall r | r in q.acked ensures r in q.published && Kept(y, q, r) {
      assert Kept(y, p, r);
    }
  }

  lemma RemoveKeepsSpool(w: World, accepted: EventId -> Time)
    requires SpoolOk(w.y, w.spool, accepted) && Can(w, DrainRemove, accepted)
    ensures SpoolOk(w.y, NextSpool(w, DrainRemove), accepted)
  {
    var p, q := w.spool, NextSpool(w, DrainRemove);
    var n := p.pc.files[p.pc.at];
    forall r | r in p.published && Kept(w.y, p, r) ensures Kept(w.y, q, r) {
      assert NameOf(r) == n ==> r.donation.eventId == n.event;
    }
  }

  /** A crash loses no record that was both seen and synced. */
  lemma CrashKeepsSpool(w: World, json: map<FileName, Record>, pending: set<FileName>, accepted: EventId -> Time)
    requires SpoolOk(w.y, w.spool, accepted) && Can(w, Crash(json, pending), accepted)
    ensures SpoolOk(w.y, NextSpool(w, Crash(json, pending)), accepted)
  {
    var p, q := w.spool, NextSpool(w, Crash(json, pending));
    forall r | r in q.acked ensures r in q.published && Kept(w.y, q, r) {
      assert Kept(w.y, p, r);
    }
  }

  lemma SaveStartKeepsSpool(w: World, capture: Capture, d: Donation, accepted: EventId -> Time)
    requires SpoolOk(w.y, w.spool, accepted) && SessionsOk(w) && Can(w, SaveStart(capture, d), accepted)
    ensures SpoolOk(w.y, NextSpool(w, SaveStart(capture, d)), accepted)
  {
    var p, q := w.spool, NextSpool(w, SaveStart(capture, d));
    assert Backed(w.y, capture.grant, capture.deadline);
    forall r | r in q.acked ensures r in q.published && Kept(w.y, q, r) {
      assert Kept(w.y, p, r);
    }
  }

  lemma SyncStepsKeepSpool(w: World, a: Act, accepted: EventId -> Time)
    requires SpoolOk(w.y, w.spool, accepted) && Can(w, a, accepted) && (a.SaveSync? || a.DrainSync?)
    ensures SpoolOk(w.y, NextSpool(w, a), accepted)
  {
    var p := w.spool;
    SyncKeepsSpool(w.y, p, NextSpool(w, a).pc, p.livePending, accepted);
  }

  lemma PlainStepsKeepSpool(w: World, a: Act, accepted: EventId -> Time)
    requires SpoolOk(w.y, w.spool, accepted) && Can(w, a, accepted)
    requires a.SaveWrite? || a.DrainStart? || a.Inspect? || a.DrainEnd? || a.Fail?
    ensures SpoolOk(w.y, NextSpool(w, a), accepted)
  {
    var p, q := w.spool, NextSpool(w, a);
    if a.DrainEnd? || a.Fail? {
      ReturnKeepsSpool(w.y, p, accepted);
    } else {
      forall r | r in q.acked ensures r in q.published && Kept(w.y, q, r) {
        assert Kept(w.y, p, r);
      }
    }
  }

  lemma AppendedIsStored(s: Store, r: Record, length: nat, size: nat)
    requires Append(s, r.grant, r.donation, r.acceptedAt, length, size).1.Ok?
    ensures r.donation.eventId in Append(s, r.grant, r.donation, r.acceptedAt, length, size).0.donations
  {
  }

  lemma AppendedKeepsSpool(z: Sys, p: Spool, accepted: EventId -> Time)
    requires SpoolOk(z, p, accepted) && CanDrain(p) && EverJournaled(z.h, p.pc.files[p.pc.at].event)
    ensures SpoolOk(z, p.(pc := p.pc.(stage := Appended)), accepted)
  {
    var q := p.(pc := p.pc.(stage := Appended));
    forall x | x in q.acked ensures x in q.published && Kept(z, q, x) {
      assert Kept(z, p, x);
    }
  }

  /** The drain's append, with the journal already in its new state. */
  lemma AppendKeepsSpool(w: World, z: Sys, a: Act, accepted: EventId -> Time)
    requires a.DrainAppend? && Can(w, a, accepted) && SpoolOk(z, w.spool, accepted) && Dedup(z, accepted)
    requires z == NextSys(w, a)
    ensures SpoolOk(z, AfterAppend(w, a.length, a.size, a.heard), accepted)
  {
    var p, r := w.spool, Current(w.spool);
    if a.heard && Append(w.y.s, r.grant, r.donation, r.acceptedAt, a.length, a.size).1.Ok? {
      AppendedIsStored(w.y.s, r, a.length, a.size);
      StoredIsIssued(z, accepted, r.donation.eventId);
      AppendedKeepsSpool(z, p, accepted);
    } else {
      ReturnKeepsSpool(z, p, accepted);
    }
  }

  lemma SpoolStep(w: World, a: Act, accepted: EventId -> Time)
    requires SpoolOk(w.y, w.spool, accepted) && SessionsOk(w) && Can(w, a, accepted) && !a.DrainAppend?
    ensures SpoolOk(w.y, NextSpool(w, a), accepted)
  {
    match a
    case SaveStart(capture, d) => SaveStartKeepsSpool(w, capture, d, accepted);
    case SavePublish => PublishKeepsSpool(w, accepted);
    case SaveSync(files) => SyncStepsKeepSpool(w, a, accepted);
    case DrainSync => SyncStepsKeepSpool(w, a, accepted);
    case DrainRemove => RemoveKeepsSpool(w, accepted);
    case Crash(json, pending) => CrashKeepsSpool(w, json, pending, accepted);
    case SaveWrite => PlainStepsKeepSpool(w, a, accepted);
    case DrainStart(files) => PlainStepsKeepSpool(w, a, accepted);
    case Inspect(pending) => PlainStepsKeepSpool(w, a, accepted);
    case DrainEnd => PlainStepsKeepSpool(w, a, accepted);
    case Fail => PlainStepsKeepSpool(w, a, accepted);
    case _ =>
  }

  // ---- Whole runs ----

  ghost predicate Good(w: World, accepted: EventId -> Time) {
    Inv(w.y, accepted) && SessionsOk(w) && SpoolOk(w.y, w.spool, accepted)
  }

  lemma JournalStep(w: World, a: Act, accepted: EventId -> Time)
    requires Good(w, accepted) && Can(w, a, accepted)
    ensures Inv(NextSys(w, a), accepted) && Grows(w.y, NextSys(w, a))
  {
    if OpOf(w, a).Some? {
      var op := OpOf(w, a).value;
      assert Enabled(w.y, op, accepted) by {
        if a.DrainAppend? {
          assert w.spool.live[w.spool.pc.files[w.spool.pc.at]] in w.spool.published;
        }
      }
      StepKeepsInv(w.y, op, accepted);
      StepGrows(w.y, op, accepted);
    }
  }

  lemma DoKeepsGood(w: World, a: Act, accepted: EventId -> Time)
    requires Good(w, accepted) && Can(w, a, accepted)
    ensures Good(Do(w, a), accepted)
  {
    JournalStep(w, a, accepted);
    SessionsStep(w, a, accepted);
    var z := NextSys(w, a);
    if a.DrainAppend? {
      GrowthKeepsSpool(w.y, z, w.spool, accepted);
      AppendKeepsSpool(w, z, a, accepted);
    } else {
      SpoolStep(w, a, accepted);
      GrowthKeepsSpool(w.y, z, NextSpool(w, a), accepted);
    }
  }

  lemma {:induction false} RunKeepsGood(w: World, acts: seq<Act>, accepted: EventId -> Time)
    requires Good(w, accepted) && Legitimate(w, acts, accepted)
    ensures Good(Run(w, acts), accepted)
    decreases |acts|
  {
    if acts != [] {
      RunKeepsGood(w, acts[..|acts| - 1], accepted);
      DoKeepsGood(Run(w, acts[..|acts| - 1]), acts[|acts| - 1], accepted);
    }
  }

  lemma FreshIsGood(y: Sys, accepted: EventId -> Time)
    requires Inv(y, accepted)
    ensures Good(Fresh(y), accepted)
  {
  }

  /** Crash safety: in every run from a reachable journal, every acknowledged donation is in the
      spool now and after whatever a crash leaves, or it has been journaled; and no event has been
      journaled twice. */
  lemma SavedIsNeverLost(y: Sys, acts: seq<Act>, accepted: EventId -> Time, r: Record,
                         json: map<FileName, Record>)
    requires Reachable(y, accepted) && Legitimate(Fresh(y), acts, accepted)
    requires r in Run(Fresh(y), acts).spool.acked
    requires Survives(Run(Fresh(y), acts).spool.live, Run(Fresh(y), acts).spool.durable, json)
    ensures var w := Run(Fresh(y), acts);
            && ((Filed(w.spool.live, r) && Filed(json, r)) || EverJournaled(w.y.h, r.donation.eventId))
            && OnceEach(w.y.h.issued)
  {
    ReachableInv(y, accepted);
    FreshIsGood(y, accepted);
    RunKeepsGood(Fresh(y), acts, accepted);
    assert Kept(Run(Fresh(y), acts).y, Run(Fresh(y), acts).spool, r);
  }

  /** Local authority implies database authority, for everything ever published. */
  lemma PublishedWithinGrant(y: Sys, acts: seq<Act>, accepted: EventId -> Time, r: Record)
    requires Reachable(y, accepted) && Legitimate(Fresh(y), acts, accepted)
    requires r in Run(Fresh(y), acts).spool.published
    ensures Covered(Run(Fresh(y), acts).y, r)
  {
    ReachableInv(y, accepted);
    FreshIsGood(y, accepted);
    RunKeepsGood(Fresh(y), acts, accepted);
  }
}
