/** The audit table: every recovery decision and every restore stays on record for a year. */
module JournalAudit {
  import opened JournalTypes
  import opened JournalOps
  import opened JournalRuns
  import opened JournalTheorems

  lemma {:induction false} AuditLeftHas(audit: seq<AuditRow>, ch: Channel, limit: Time, row: AuditRow)
    ensures row in AuditLeft(audit, ch, limit) <==> row in audit && !(row.channel == ch && row.createdAt < limit)
    decreases |audit|
  {
    if audit != [] {
      AuditLeftHas(audit[..|audit| - 1], ch, limit, row);
      assert audit == audit[..|audit| - 1] + [audit[|audit| - 1]];
    }
  }

  /** The row a step puts on record, if it decides a recovery or restores a journal. */
  ghost function Decided(s: Store, op: Op): Option<AuditRow> {
    match op
    case Recovering(rk, prev, next, resume, exp, body) =>
      if !Recovers(s, op) then None
      else
        var decision := Resolve(s, rk, prev, next, resume, exp, body).1.value;
        Some(RecoveryAudit(rk.consumer, rk.channel, body, decision, s.clock))
    case Rotating(ch, from, reason, next) =>
      if Rotate(s, ch, from, reason, next).1.Err? then None else Some(RestoreAudit(ch, reason, from, next, s.clock))
    case _ => None
  }

  lemma DecisionIsRecorded(s: Store, op: Op)
    requires Decided(s, op).Some?
    ensures Decided(s, op).value in Next(s, op).audit && Decided(s, op).value.createdAt == s.clock
  {
  }

  lemma AuditStays(s: Store, op: Op, row: AuditRow)
    requires row in s.audit
    ensures row in Next(s, op).audit || row.createdAt < Next(s, op).clock - AUDIT_AGE
  {
    match op
    case Cleaning(ch) => AuditLeftHas(s.audit, ch, s.clock - AUDIT_AGE, row);
    case Recovering(rk, prev, next, resume, exp, body) => ResolveExtendsAudit(s, rk, prev, next, resume, exp, body);
    case Rotating(ch, from, reason, next) => RotateExtendsAudit(s, ch, from, reason, next);
    case _ => OthersKeepAudit(s, op);
  }

  lemma ResolveExtendsAudit(s: Store, rk: RequestKey, prev: Name, next: Name, resume: nat, exp: nat,
                            body: RecoveryRequest)
    ensures s.audit <= Resolve(s, rk, prev, next, resume, exp, body).0.audit
  {
    var (t, r) := Resolve(s, rk, prev, next, resume, exp, body);
    if r.Err? || rk in s.recoveries { assert t == s; }
  }

  lemma RotateExtendsAudit(s: Store, ch: Channel, from: Name, reason: Name, next: Name)
    ensures s.audit <= Rotate(s, ch, from, reason, next).0.audit
  {
    var (t, r) := Rotate(s, ch, from, reason, next);
    if r.Err? { assert t == s; }
  }

  lemma OthersKeepAudit(s: Store, op: Op)
    requires !op.Cleaning? && !op.Recovering? && !op.Rotating?
    ensures Next(s, op).audit == s.audit
  {
    if op.Appending? {
      AppendKeepsAudit(s, op.grant, op.donation, op.acceptedAt, op.length, op.size);
    } else if op.Reading? {
      ReadKeepsAudit(s, op.key, op.generation, op.after, op.revision, op.limit);
    } else if op.Acking? {
      AckKeepsAudit(s, op.key, op.generation, op.offset, op.revision);
    } else if op.Expiring? {
      ExpireKeepsAudit(s, op.channel, op.policy);
    } else {
      OwnerOpsKeepAudit(s, op);
    }
  }

  lemma AppendKeepsAudit(s: Store, g: OwnerGrant, d: Donation, at: Time, length: nat, size: nat)
    ensures Append(s, g, d, at, length, size).0.audit == s.audit
  {
    var (t, r) := Append(s, g, d, at, length, size);
    if r.Err? { assert t == s; }
  }

  lemma ReadKeepsAudit(s: Store, k: ConsumerKey, gen: Name, after: nat, rev: nat, limit: int)
    ensures Read(s, k, gen, after, rev, limit).0.audit == s.audit
  {
    var (t, r) := Read(s, k, gen, after, rev, limit);
    if r.Err? { assert t == s; }
  }

  lemma AckKeepsAudit(s: Store, k: ConsumerKey, gen: Name, offset: nat, rev: nat)
    ensures Ack(s, k, gen, offset, rev).0.audit == s.audit
  {
    var (t, r) := Ack(s, k, gen, offset, rev);
    if r.Err? { assert t == s; }
  }

  lemma ExpireKeepsAudit(s: Store, ch: Channel, policy: Policy)
    ensures Expire(s, ch, policy).0.audit == s.audit
  {
  }

  lemma GrantOpsKeepAudit(s: Store, op: Op)
    requires op.Acquiring? || op.Renewing? || op.Subscribing?
    ensures Next(s, op).audit == s.audit
  {
    match op
    case Acquiring(ch, w, token) => if Acquire(s, ch, w, token).1.Err? { assert Next(s, op) == s; }
    case Renewing(g) => if Renew(s, g).1.Err? { assert Next(s, op) == s; }
    case Subscribing(rk, on) => if Subscribe(s, rk, on).1.Err? { assert Next(s, op) == s; }
  }

  lemma OwnerOpsKeepAudit(s: Store, op: Op)
    requires OwnerOp(op)
    ensures Next(s, op).audit == s.audit
  {
    if op.Acquiring? || op.Renewing? || op.Subscribing? { GrantOpsKeepAudit(s, op); }
  }

  lemma StepKeepsRecord(y: Sys, op: Op, row: AuditRow)
    requires row in y.s.audit || row.createdAt < y.s.clock - AUDIT_AGE
    ensures row in Step(y, op).s.audit || row.createdAt < Step(y, op).s.clock - AUDIT_AGE
  {
    ClockAdvances(y.s, op);
    if row in y.s.audit { AuditStays(y.s, op, row); }
  }

  lemma {:induction false} RowStays(y: Sys, ops: seq<Op>, i: nat, row: AuditRow)
    requires i <= |ops| && row in Exec(y, ops[..i]).s.audit
    ensures row in Exec(y, ops).s.audit || row.createdAt < Exec(y, ops).s.clock - AUDIT_AGE
    decreases |ops|
  {
    if i == |ops| {
      assert ops[..i] == ops;
    } else {
      var before := ops[..|ops| - 1];
      assert before[..i] == ops[..i];
      RowStays(y, before, i, row);
      StepKeepsRecord(Exec(y, before), ops[|ops| - 1], row);
    }
  }

  /** In every run, what the i-th step decided is on record at the end, or was decided over a year ago. */
  lemma DecisionsStayOnRecord(y: Sys, ops: seq<Op>, i: nat)
    requires i < |ops| && Decided(Exec(y, ops[..i]).s, ops[i]).Some?
    ensures var row := Decided(Exec(y, ops[..i]).s, ops[i]).value;
            row in Exec(y, ops).s.audit || row.createdAt < Exec(y, ops).s.clock - AUDIT_AGE
  {
    DecisionIsRecorded(Exec(y, ops[..i]).s, ops[i]);
    assert ops[..i + 1][..i] == ops[..i];
    RowStays(y, ops, i + 1, Decided(Exec(y, ops[..i]).s, ops[i]).value);
  }
}
