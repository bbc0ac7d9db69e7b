/** No silent loss: whatever a consumer has settled was delivered to it, declared lost in an audited
    range, or expired before it registered, as long as its recoveries stay in one generation. */
module JournalCoverage {
  import opened JournalTypes
  import opened JournalOps
  import opened JournalShape
  import opened JournalRuns
  import opened JournalDedup

  // ---- The coverage walk ----

  predicate Within(ranges: seq<LossRange>, o: nat) {
    exists i :: 0 <= i < |ranges| && ranges[i].start <= o <= ranges[i].end
  }

  lemma WithinTail(ranges: seq<LossRange>, o: nat)
    requires ranges != [] && Within(ranges[1..], o)
    ensures Within(ranges, o)
  {
    var i :| 0 <= i < |ranges[1..]| && ranges[1..][i].start <= o <= ranges[1..][i].end;
    assert ranges[i + 1] == ranges[1..][i];
  }

  /** An accepted list covers every skipped offset and claims none beyond where it stops. */
  lemma {:induction false} CoverIsSound(covered: nat, ranges: seq<LossRange>, generation: Name)
    requires Cover(covered, ranges, generation).Some?
    ensures var c := Cover(covered, ranges, generation).value;
            && covered <= c
            && (forall o: nat :: covered < o <= c ==> Within(ranges, o))
            && (forall r :: r in ranges ==> r.start <= r.end <= c && r.startGeneration == generation == r.endGeneration)
    decreases |ranges|
  {
    if ranges != [] {
      var r := ranges[0];
      var next := if r.end > covered then r.end else covered;
      CoverIsSound(next, ranges[1..], generation);
      var c := Cover(covered, ranges, generation).value;
      forall o: nat | covered < o <= c ensures Within(ranges, o) {
        if o <= next {
          assert ranges[0].start <= o <= ranges[0].end;
        } else {
          WithinTail(ranges, o);
        }
      }
    }
  }

  predicate Orderly(ranges: seq<LossRange>, generation: Name, resume: nat) {
    && (forall i :: 0 <= i < |ranges| ==>
          && ranges[i].startGeneration == generation == ranges[i].endGeneration
          && ranges[i].start <= ranges[i].end <= resume)
    && (forall i, j :: 0 <= i < j < |ranges| ==> ranges[i].start <= ranges[j].start)
  }

  /** No range that starts past 0 comes after the last 64-bit offset has been reached: the walk's own
      successor of that offset wraps to 0. */
  predicate NoneAfterLast(covered: nat, ranges: seq<LossRange>)
    decreases |ranges|
  {
    ranges == [] ||
    (&& (covered == MAX_U64 ==> ranges[0].start == 0)
     && NoneAfterLast(if ranges[0].end > covered then ranges[0].end else covered, ranges[1..]))
  }

  /** A list in start order that covers the skipped offsets is accepted, except exactly when a range
      follows after the last 64-bit offset was reached. */
  lemma {:induction false} CoverIsComplete(covered: nat, ranges: seq<LossRange>, generation: Name, resume: nat)
    requires Orderly(ranges, generation, resume) && covered <= resume <= MAX_U64
    requires forall o: nat :: covered < o <= resume ==> Within(ranges, o)
    ensures Cover(covered, ranges, generation) == Some(resume) <==> NoneAfterLast(covered, ranges)
    ensures resume < MAX_U64 ==> Cover(covered, ranges, generation) == Some(resume)
    decreases |ranges|
  {
    assert covered < resume ==> Within(ranges, covered + 1);
    if ranges != [] {
      var r := ranges[0];
      assert covered < resume ==> r.start <= covered + 1;
      var next := if r.end > covered then r.end else covered;
      forall o: nat | next < o <= resume ensures Within(ranges[1..], o) {
        assert Within(ranges, o);
        var i :| 0 <= i < |ranges| && ranges[i].start <= o <= ranges[i].end;
        assert ranges[1..][i - 1] == ranges[i];
      }
      CoverIsComplete(next, ranges[1..], generation, resume);
    }
  }

  // ---- Accounting for every event ----

  ghost predicate AuditedAt(h: History, k: ConsumerKey, o: nat) {
    exists a :: a in h.audits && a.key == k && a.start <= o <= a.end
  }

  ghost predicate Accounted(h: History, k: ConsumerKey, x: Issue)
    requires k in h.first
  {
    Delivery(k, x.offset, x.event) in h.delivered || AuditedAt(h, k, x.offset) || x.offset <= h.first[k]
  }

  /** Every event of the channel up to `through` is accounted for. */
  ghost predicate AllAccounted(h: History, k: ConsumerKey, through: nat) {
    && k in h.first
    && forall i :: 0 <= i < |h.issued| && h.issued[i].channel == k.channel && h.issued[i].offset <= through ==>
         Accounted(h, k, h.issued[i])
  }

  /** Only registered consumers appear in the record. */
  ghost predicate Ledger(h: History, consumers: map<ConsumerKey, Progress>) {
    && (forall k :: k in h.first ==> k in consumers)
    && (forall k :: k in h.crossed ==> k in consumers)
    && (forall d :: d in h.delivered ==> d.key in consumers)
    && (forall a :: a in h.audits ==> a.key in consumers)
  }

  ghost predicate Coverage(y: Sys) {
    && Ledger(y.h, y.s.consumers)
    && (forall k :: k in y.s.consumers && k !in y.h.crossed ==> AllAccounted(y.h, k, y.s.consumers[k].offered))
  }

  /** The record only grows. */
  ghost predicate Remembers(h: History, h': History) {
    && h'.issued == h.issued && h.delivered <= h'.delivered && h.audits <= h'.audits && h.crossed <= h'.crossed
    && (forall k :: k in h.first ==> k in h'.first && h'.first[k] == h.first[k])
  }

  lemma StillAccounted(h: History, h': History, k: ConsumerKey, through: nat)
    requires AllAccounted(h, k, through) && Remembers(h, h')
    ensures AllAccounted(h', k, through)
  {
    forall i | 0 <= i < |h'.issued| && h'.issued[i].channel == k.channel && h'.issued[i].offset <= through
      ensures Accounted(h', k, h'.issued[i])
    {
      assert Accounted(h, k, h.issued[i]);
    }
  }

  /** Steps that move no cursor and issue nothing. */
  lemma QuietKeepsCoverage(y: Sys, z: Sys)
    requires Coverage(y) && Remembers(y.h, z.h) && Ledger(z.h, z.s.consumers)
    requires z.s.consumers.Keys == y.s.consumers.Keys
    requires forall k :: k in y.s.consumers ==> z.s.consumers[k].offered == y.s.consumers[k].offered
    ensures Coverage(z)
  {
    forall k | k in z.s.consumers && k !in z.h.crossed ensures AllAccounted(z.h, k, z.s.consumers[k].offered) {
      StillAccounted(y.h, z.h, k, y.s.consumers[k].offered);
    }
  }

  /** One consumer's cursor moves to `p.offered`, accounted for; the others stay. */
  lemma MovingKeepsCoverage(y: Sys, z: Sys, k: ConsumerKey, p: Progress)
    requires Coverage(y) && Remembers(y.h, z.h) && Ledger(z.h, z.s.consumers)
    requires z.s.consumers == y.s.consumers[k := p]
    requires k !in z.h.crossed ==> AllAccounted(z.h, k, p.offered)
    ensures Coverage(z)
  {
    forall j | j in z.s.consumers && j !in z.h.crossed ensures AllAccounted(z.h, j, z.s.consumers[j].offered) {
      if j != k {
        StillAccounted(y.h, z.h, j, y.s.consumers[j].offered);
      }
    }
  }

  lemma JournalingKeepsCoverage(y: Sys, z: Sys, x: Issue)
    requires Coverage(y) && Shape(y.s) && x.channel in y.s.channels
    requires x.offset == y.s.channels[x.channel].current + 1
    requires z.s.consumers == y.s.consumers
    requires z.h == y.h.(issued := y.h.issued + [x], grants := z.h.grants)
    ensures Coverage(z)
  {
    forall k | k in z.s.consumers && k !in z.h.crossed ensures AllAccounted(z.h, k, z.s.consumers[k].offered) {
      assert AllAccounted(y.h, k, y.s.consumers[k].offered) && ProgressShape(y.s, k);
      forall i | 0 <= i < |z.h.issued| && z.h.issued[i].channel == k.channel
        && z.h.issued[i].offset <= z.s.consumers[k].offered
        ensures Accounted(z.h, k, z.h.issued[i])
      {
        assert i < |y.h.issued|;
        assert z.h.issued[i] == y.h.issued[i];
        assert Accounted(y.h, k, y.h.issued[i]);
      }
    }
  }

  // ---- Reading ----

  /** An unexpired issued event is the one its offset still holds. */
  lemma UnexpiredIsPresent(y: Sys, i: nat, accepted: EventId -> Time)
    requires Shape(y.s) && Dedup(y, accepted) && i < |y.h.issued|
    requires y.h.issued[i].offset > y.s.channels[y.h.issued[i].channel].expiredThrough
    ensures At(y.s.donations, y.h.issued[i].channel, y.h.issued[i].offset, y.h.issued[i].event)
  {
    var x := y.h.issued[i];
    assert Stored(y.s.donations, x.channel, x.offset);
    var e :| At(y.s.donations, x.channel, x.offset, e);
    assert Known(y.h.issued, e, x.channel, x.offset);
    var j :| 0 <= j < |y.h.issued| && y.h.issued[j].event == e
          && y.h.issued[j].channel == x.channel && y.h.issued[j].offset == x.offset;
    assert i == j;
  }

  /** A read delivers every event issued in the range it returns. */
  lemma ReadDelivers(y: Sys, k: ConsumerKey, after: nat, through: nat, i: nat, accepted: EventId -> Time)
    requires Shape(y.s) && Dedup(y, accepted) && i < |y.h.issued| && y.h.issued[i].channel == k.channel
    requires k.channel in y.s.channels && y.s.channels[k.channel].expiredThrough <= after
    requires after < y.h.issued[i].offset <= through
    ensures Delivery(k, y.h.issued[i].offset, y.h.issued[i].event) in Deliveries(y.s, k, after, through)
  {
    UnexpiredIsPresent(y, i, accepted);
    var e := y.h.issued[i].event;
    assert y.s.donations[e].offset == y.h.issued[i].offset;
  }

  lemma ReadAccounts(y: Sys, h: History, k: ConsumerKey, after: nat, through: nat, accepted: EventId -> Time)
    requires Shape(y.s) && Dedup(y, accepted) && h.issued == y.h.issued && k.channel in y.s.channels
    requires y.s.channels[k.channel].expiredThrough <= after
    requires AllAccounted(h, k, after) && Deliveries(y.s, k, after, through) <= h.delivered
    ensures AllAccounted(h, k, through)
  {
    forall i | 0 <= i < |h.issued| && h.issued[i].channel == k.channel && h.issued[i].offset <= through
      ensures Accounted(h, k, h.issued[i])
    {
      if h.issued[i].offset > after {
        ReadDelivers(y, k, after, through, i, accepted);
      }
    }
  }

  lemma ReadingKeepsCoverage(y: Sys, op: Op, accepted: EventId -> Time)
    requires op.Reading? && Coverage(y) && Shape(y.s) && Dedup(y, accepted)
    ensures Coverage(Step(y, op))
  {
    var r := Read(y.s, op.key, op.generation, op.after, op.revision, op.limit).1;
    if r.Err? {
      QuietKeepsCoverage(y, Step(y, op));
    } else {
      ReadKeepsRecord(y, op);
      ReadEffect(y.s, op);
      if op.key !in y.h.crossed {
        ReaderAccounts(y, op, accepted);
      }
      MovingKeepsCoverage(y, Step(y, op), op.key, Step(y, op).s.consumers[op.key]);
    }
  }

  lemma ReadEffect(s: Store, op: Op)
    requires op.Reading? && Read(s, op.key, op.generation, op.after, op.revision, op.limit).1.Ok?
    ensures var p := ProgressOf(s, op.key);
            var through := Read(s, op.key, op.generation, op.after, op.revision, op.limit).1.value;
            && op.key.channel in s.channels
            && s.channels[op.key.channel].expiredThrough <= op.after <= p.offered && op.after <= through
            && Next(s, op).consumers == s.consumers[op.key := Next(s, op).consumers[op.key]]
            && Next(s, op).consumers[op.key].offered == if through > p.offered then through else p.offered
  {
  }

  lemma ReaderAccounts(y: Sys, op: Op, accepted: EventId -> Time)
    requires op.Reading? && Coverage(y) && Shape(y.s) && Dedup(y, accepted)
    requires Read(y.s, op.key, op.generation, op.after, op.revision, op.limit).1.Ok?
    requires op.key !in y.h.crossed
    ensures AllAccounted(Step(y, op).h, op.key, Step(y, op).s.consumers[op.key].offered)
  {
    var z, k, p := Step(y, op), op.key, ProgressOf(y.s, op.key);
    var through := Read(y.s, k, op.generation, op.after, op.revision, op.limit).1.value;
    ReadKeepsRecord(y, op);
    ReadEffect(y.s, op);
    if k in y.s.consumers {
      StillAccounted(y.h, z.h, k, p.offered);
    }
    if through > p.offered {
      ReadAccounts(y, z.h, k, op.after, through, accepted);
    }
  }

  lemma ReadKeepsRecord(y: Sys, op: Op)
    requires op.Reading? && Read(y.s, op.key, op.generation, op.after, op.revision, op.limit).1.Ok?
    requires op.key !in y.s.consumers ==> op.key !in y.h.first
    ensures Remembers(y.h, Step(y, op).h)
  {
  }

  // ---- Recovering ----

  /** The audited ranges account for everything a same-generation recovery skips. */
  lemma AuditAccounts(h: History, k: ConsumerKey, settled: nat, resume: nat, ranges: seq<LossRange>, generation: Name)
    requires AllAccounted(h, k, settled) && AuditsOf(k, ranges) <= h.audits
    requires Cover(settled, ranges, generation) == Some(resume)
    ensures AllAccounted(h, k, resume)
  {
    CoverIsSound(settled, ranges, generation);
    forall i | 0 <= i < |h.issued| && h.issued[i].channel == k.channel && h.issued[i].offset <= resume
      ensures Accounted(h, k, h.issued[i])
    {
      var o := h.issued[i].offset;
      if o > settled {
        assert Within(ranges, o);
        var j :| 0 <= j < |ranges| && ranges[j].start <= o <= ranges[j].end;
        assert LossAudit(k, ranges[j].start, ranges[j].end) in h.audits;
      }
    }
  }

  lemma RecoveryKeepsRecord(y: Sys, op: Op)
    requires op.Recovering? && Recovers(y.s, op)
    requires var k := ConsumerKey(op.request.consumer, op.request.channel); k !in y.s.consumers ==> k !in y.h.first
    ensures Remembers(y.h, Step(y, op).h)
  {
  }

  /** What an applied recovery writes, and what its request must have shown. */
  lemma RecoveryEffect(s: Store, op: Op)
    requires op.Recovering? && Recovers(s, op)
    ensures var k := ConsumerKey(op.request.consumer, op.request.channel);
            var settled := RecoveryProgress(s, k, op.previous).Settled();
            && Next(s, op).consumers == s.consumers[k := Progress(op.next, op.resume, op.resume, None, op.expected + 1)]
            && Audited(settled, op.resume, op.previous, op.next, op.body)
  {
  }

  lemma RecoveringKeepsCoverage(y: Sys, op: Op)
    requires op.Recovering? && Recovers(y.s, op) && Coverage(y) && Shape(y.s)
    ensures Coverage(Step(y, op))
  {
    var z := Step(y, op);
    var k := ConsumerKey(op.request.consumer, op.request.channel);
    var settled := RecoveryProgress(y.s, k, op.previous).Settled();
    RecoveryKeepsRecord(y, op);
    RecoveryEffect(y.s, op);
    if k !in z.h.crossed {
      assert AllAccounted(z.h, k, settled) by {
        if k in y.s.consumers {
          assert ProgressShape(y.s, k);
          StillAccounted(y.h, z.h, k, y.s.consumers[k].offered);
        }
      }
      if op.resume > settled {
        AuditAccounts(z.h, k, settled, op.resume, op.body.ranges.value, op.previous);
      }
    }
    MovingKeepsCoverage(y, z, k, z.s.consumers[k]);
  }

  // ---- Every step ----

  lemma OtherOpsKeepCursors(s: Store, op: Op)
    requires !op.Reading? && !Recovers(s, op)
    ensures Next(s, op).consumers.Keys == s.consumers.Keys
    ensures forall k :: k in s.consumers ==>
              && Next(s, op).consumers[k].offered == s.consumers[k].offered
              && Next(s, op).consumers[k].revision == s.consumers[k].revision
  {
    var t := Next(s, op);
    if op.Acking? {
      if t != s { assert t.consumers == s.consumers[op.key := s.consumers[op.key].(ack := Some(op.offset))]; }
    } else if OwnerOp(op) {
      OwnerOpsKeepJournal(s, op);
    } else {
      assert t.consumers == s.consumers;
    }
  }

  lemma IssuingKeepsCoverage(y: Sys, op: Op)
    requires Coverage(y) && Shape(y.s) && Journals(y.s, op)
    ensures Coverage(Step(y, op))
  {
    var z := Step(y, op);
    var x := z.h.issued[|y.h.issued|];
    assert z.s.consumers == y.s.consumers;
    JournalingKeepsCoverage(y, z, x);
  }

  lemma SilentOpsKeepRecord(y: Sys, op: Op)
    requires Coverage(y) && !op.Reading? && !Recovers(y.s, op) && !Journals(y.s, op)
    ensures var h := Step(y, op).h;
            && Remembers(y.h, h) && h.first == y.h.first && h.crossed == y.h.crossed
            && h.delivered == y.h.delivered && h.audits == y.h.audits
  {
  }

  lemma StepKeepsCoverage(y: Sys, op: Op, accepted: EventId -> Time)
    requires Coverage(y) && Shape(y.s) && Dedup(y, accepted)
    ensures Coverage(Step(y, op))
  {
    if op.Reading? {
      ReadingKeepsCoverage(y, op, accepted);
    } else if Recovers(y.s, op) {
      RecoveringKeepsCoverage(y, op);
    } else if Journals(y.s, op) {
      IssuingKeepsCoverage(y, op);
    } else {
      OtherOpsKeepCursors(y.s, op);
      SilentOpsKeepRecord(y, op);
      QuietKeepsCoverage(y, Step(y, op));
    }
  }
}
