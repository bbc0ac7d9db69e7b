/** What a recovery may skip: exactly when nothing is lost, also for recoveries that name another
    generation and need no audit. */
module JournalRecovery {
  import opened JournalTypes
  import opened JournalOps
  import opened JournalShape
  import opened JournalRuns
  import opened JournalDedup
  import opened JournalCoverage
  import opened JournalTheorems

  /** Nothing was shown to the consumer, audited for it or expired before it registered past `mark`. */
  ghost predicate Shown(h: History, k: ConsumerKey, mark: nat) {
    && (forall d :: d in h.delivered && d.key == k ==> d.offset <= mark)
    && (forall a :: a in h.audits && a.key == k ==> a.end <= mark)
    && (k in h.first ==> h.first[k] <= mark)
  }

  /** `mark` is the highest offset ever offered to the consumer. As long as none of its recoveries skipped
      anything, all up to the mark is accounted for. */
  ghost predicate Mark(y: Sys, k: ConsumerKey, mark: nat, unskipped: bool) {
    && Shown(y.h, k, mark)
    && (k in y.s.consumers ==>
          && k.channel in y.s.channels && y.s.consumers[k].offered <= mark <= y.s.channels[k.channel].current
          && (y.s.consumers[k].revision == 0 ==> unskipped && mark == y.s.consumers[k].offered)
          && (unskipped ==> AllAccounted(y.h, k, mark)))
    && (k !in y.s.consumers ==> unskipped && mark == 0)
  }

  function Higher(consumers: map<ConsumerKey, Progress>, k: ConsumerKey, mark: nat): nat {
    if k in consumers && consumers[k].offered > mark then consumers[k].offered else mark
  }

  /** The highest offset ever offered to the consumer in a run. */
  ghost function HighWater(y: Sys, ops: seq<Op>, k: ConsumerKey): nat
    decreases |ops|
  {
    if ops == [] then 0 else Higher(Exec(y, ops).s.consumers, k, HighWater(y, ops[..|ops| - 1], k))
  }

  /** The step recovers the consumer from another generation, past the mark. */
  ghost predicate Skips(s: Store, op: Op, k: ConsumerKey, mark: nat) {
    && op.Recovering? && ConsumerKey(op.request.consumer, op.request.channel) == k && Recovers(s, op)
    && op.previous != op.next && op.resume > mark
  }

  /** No recovery of the consumer from another generation went past what it had been offered by then. */
  ghost predicate Unskipped(y: Sys, ops: seq<Op>, k: ConsumerKey)
    decreases |ops|
  {
    ops == [] ||
    var before, op := ops[..|ops| - 1], ops[|ops| - 1];
    Unskipped(y, before, k) && !Skips(Exec(y, before).s, op, k, HighWater(y, before, k))
  }

  // ---- Every step keeps the mark ----

  /** The step does nothing to the consumer, and issues only offsets past the counter. */
  ghost predicate Untouched(y: Sys, z: Sys, k: ConsumerKey) {
    && (k in z.s.consumers <==> k in y.s.consumers)
    && (k in y.s.consumers ==>
          && z.s.consumers[k].offered == y.s.consumers[k].offered
          && z.s.consumers[k].revision == y.s.consumers[k].revision)
    && (k in z.h.crossed <==> k in y.h.crossed) && (k in z.h.first <==> k in y.h.first)
    && (k in y.h.first ==> z.h.first[k] == y.h.first[k])
    && (forall d: Delivery :: d.key == k ==> (d in z.h.delivered <==> d in y.h.delivered))
    && (forall a: LossAudit :: a.key == k ==> (a in z.h.audits <==> a in y.h.audits))
  }

  ghost predicate CounterGrows(y: Sys, z: Sys, ch: Channel) {
    && (ch in y.s.channels ==> ch in z.s.channels && y.s.channels[ch].current <= z.s.channels[ch].current)
    && y.h.issued <= z.h.issued
    && forall i :: |y.h.issued| <= i < |z.h.issued| && z.h.issued[i].channel == ch ==>
         ch in y.s.channels && z.h.issued[i].offset > y.s.channels[ch].current
  }

  lemma AccountedStays(h: History, h': History, k: ConsumerKey, x: Issue)
    requires k in h.first && k in h'.first && h'.first[k] == h.first[k] && Accounted(h, k, x)
    requires forall d: Delivery :: d.key == k && d in h.delivered ==> d in h'.delivered
    requires forall a: LossAudit :: a.key == k && a in h.audits ==> a in h'.audits
    ensures Accounted(h', k, x)
  {
    if AuditedAt(h, k, x.offset) {
      var a :| a in h.audits && a.key == k && a.start <= x.offset <= a.end;
      assert a in h'.audits;
    }
  }

  lemma UntouchedKeepsMark(y: Sys, z: Sys, k: ConsumerKey, mark: nat, unskipped: bool)
    requires Mark(y, k, mark, unskipped) && Untouched(y, z, k) && CounterGrows(y, z, k.channel)
    ensures Mark(z, k, mark, unskipped)
  {
    if k in y.s.consumers && unskipped {
      forall i | 0 <= i < |z.h.issued| && z.h.issued[i].channel == k.channel && z.h.issued[i].offset <= mark
        ensures Accounted(z.h, k, z.h.issued[i])
      {
        assert i < |y.h.issued| && z.h.issued[i] == y.h.issued[i];
        AccountedStays(y.h, z.h, k, y.h.issued[i]);
      }
    }
  }

  lemma StepGrowsCounter(y: Sys, op: Op, ch: Channel)
    ensures CounterGrows(y, Step(y, op), ch)
  {
    StepAppendsIssues(y, op);
    if op.Cleaning? {
    } else if Journals(y.s, op) {
      var d := Append(y.s, op.grant, op.donation, op.acceptedAt, op.length, op.size).1.value;
      assert Next(y.s, op) == Journaled(y.s, d, op.size);
    } else {
      OtherOpsKeepSlots(y.s, op);
    }
  }

  /** The consumer whose cursor a step may move. */
  function Mover(op: Op): Option<ConsumerKey> {
    match op
    case Reading(k, _, _, _, _) => Some(k)
    case Recovering(rk, _, _, _, _, _) => Some(ConsumerKey(rk.consumer, rk.channel))
    case _ => None
  }

  lemma OthersAreUntouched(y: Sys, op: Op, k: ConsumerKey)
    requires Coverage(y) && Mover(op) != Some(k)
    ensures Untouched(y, Step(y, op), k)
  {
    if op.Reading? {
      ReadTouchesOne(y, op, k);
    } else if Recovers(y.s, op) {
      RecoveryTouchesOne(y, op, k);
    } else {
      OtherOpsKeepCursors(y.s, op);
      RestKeepsRecord(y, op);
    }
  }

  lemma RestKeepsRecord(y: Sys, op: Op)
    requires !op.Reading? && !Recovers(y.s, op)
    ensures var h := Step(y, op).h;
            h.first == y.h.first && h.crossed == y.h.crossed && h.delivered == y.h.delivered && h.audits == y.h.audits
  {
  }

  lemma ReadTouchesOne(y: Sys, op: Op, k: ConsumerKey)
    requires op.Reading? && op.key != k
    ensures Untouched(y, Step(y, op), k)
  {
    if Read(y.s, op.key, op.generation, op.after, op.revision, op.limit).1.Ok? {
      ReadEffect(y.s, op);
    } else {
      assert Next(y.s, op) == y.s;
    }
  }

  lemma RecoveryTouchesOne(y: Sys, op: Op, k: ConsumerKey)
    requires op.Recovering? && Recovers(y.s, op) && ConsumerKey(op.request.consumer, op.request.channel) != k
    ensures Untouched(y, Step(y, op), k)
  {
    RecoveryEffect(y.s, op);
  }

  /** After a read all up to the mark is accounted for: what was, and the range it returned. */
  lemma ReadAccountsToMark(y: Sys, op: Op, accepted: EventId -> Time, mark: nat)
    requires op.Reading? && Coverage(y) && Shape(y.s) && Dedup(y, accepted) && Mark(y, op.key, mark, true)
    requires Read(y.s, op.key, op.generation, op.after, op.revision, op.limit).1.Ok?
    ensures AllAccounted(Step(y, op).h, op.key, Higher(Step(y, op).s.consumers, op.key, mark))
  {
    var z, k := Step(y, op), op.key;
    ReadKeepsRecord(y, op);
    ReadEffect(y.s, op);
    if k !in y.s.consumers {
      ReaderAccounts(y, op, accepted);
    } else {
      var through := Read(y.s, k, op.generation, op.after, op.revision, op.limit).1.value;
      StillAccounted(y.h, z.h, k, mark);
      if through > mark { ReadAccounts(y, z.h, k, op.after, through, accepted); }
    }
  }

  lemma ReadKeepsMark(y: Sys, op: Op, accepted: EventId -> Time, mark: nat, unskipped: bool)
    requires op.Reading? && Coverage(y) && Shape(y.s) && Dedup(y, accepted) && Mark(y, op.key, mark, unskipped)
    requires Shape(Step(y, op).s)
    requires Read(y.s, op.key, op.generation, op.after, op.revision, op.limit).1.Ok?
    ensures Mark(Step(y, op), op.key, Higher(Step(y, op).s.consumers, op.key, mark), unskipped)
  {
    var z, k := Step(y, op), op.key;
    ReadEffect(y.s, op);
    ReadKeepsChannels(y.s, op);
    assert ProgressShape(z.s, k);
    assert Shown(z.h, k, Higher(z.s.consumers, k, mark));
    if unskipped { ReadAccountsToMark(y, op, accepted, mark); }
  }

  lemma ReadKeepsChannels(s: Store, op: Op)
    requires op.Reading? && Read(s, op.key, op.generation, op.after, op.revision, op.limit).1.Ok?
    ensures Next(s, op).channels == s.channels
    ensures Next(s, op).consumers[op.key].revision == ProgressOf(s, op.key).revision
  {
  }

  /** After a recovery that does not skip, all up to the mark is accounted for. */
  lemma RecoveryAccountsToMark(y: Sys, op: Op, mark: nat)
    requires op.Recovering? && Recovers(y.s, op) && Coverage(y) && Shape(y.s)
    requires Mark(y, ConsumerKey(op.request.consumer, op.request.channel), mark, true)
    requires op.previous == op.next || op.resume <= mark
    ensures var z, k := Step(y, op), ConsumerKey(op.request.consumer, op.request.channel);
            AllAccounted(z.h, k, Higher(z.s.consumers, k, mark))
  {
    var z, k := Step(y, op), ConsumerKey(op.request.consumer, op.request.channel);
    RecoveryKeepsRecord(y, op);
    RecoveryEffect(y.s, op);
    if k in y.s.consumers {
      StillAccounted(y.h, z.h, k, mark);
      assert ProgressShape(y.s, k);
    }
    if op.resume > mark {
      var settled := RecoveryProgress(y.s, k, op.previous).Settled();
      AuditAccounts(z.h, k, settled, op.resume, op.body.ranges.value, op.previous);
    }
  }

  lemma RecoveryKeepsMark(y: Sys, op: Op, mark: nat, unskipped: bool)
    requires op.Recovering? && Recovers(y.s, op) && Coverage(y) && Shape(y.s)
    requires Mark(y, ConsumerKey(op.request.consumer, op.request.channel), mark, unskipped)
    requires Shape(Step(y, op).s)
    ensures var z, k := Step(y, op), ConsumerKey(op.request.consumer, op.request.channel);
            Mark(z, k, Higher(z.s.consumers, k, mark), unskipped && !Skips(y.s, op, k, mark))
  {
    var z, k := Step(y, op), ConsumerKey(op.request.consumer, op.request.channel);
    RecoveryEffect(y.s, op);
    RecoveryKeepsChannels(y.s, op);
    assert ProgressShape(z.s, k);
    RecoveryShows(y, op, Higher(z.s.consumers, k, mark));
    if unskipped && !Skips(y.s, op, k, mark) { RecoveryAccountsToMark(y, op, mark); }
  }

  lemma RecoveryKeepsChannels(s: Store, op: Op)
    requires op.Recovering? && Recovers(s, op)
    ensures Next(s, op).channels == s.channels
  {
  }

  lemma RecoveryShows(y: Sys, op: Op, mark: nat)
    requires op.Recovering? && Recovers(y.s, op) && op.resume <= mark
    requires Shown(y.h, ConsumerKey(op.request.consumer, op.request.channel), mark)
    ensures Shown(Step(y, op).h, ConsumerKey(op.request.consumer, op.request.channel), mark)
  {
    var k := ConsumerKey(op.request.consumer, op.request.channel);
    var settled := RecoveryProgress(y.s, k, op.previous).Settled();
    RecoveryEffect(y.s, op);
    if op.previous == op.next && op.resume > settled {
      CoverIsSound(settled, op.body.ranges.value, op.previous);
    }
  }

  lemma StepKeepsMark(y: Sys, op: Op, accepted: EventId -> Time, k: ConsumerKey, mark: nat, unskipped: bool)
    requires Inv(y, accepted) && Enabled(y, op, accepted) && Mark(y, k, mark, unskipped)
    ensures Mark(Step(y, op), k, Higher(Step(y, op).s.consumers, k, mark), unskipped && !Skips(y.s, op, k, mark))
  {
    var z := Step(y, op);
    StepKeepsInv(y, op, accepted);
    if op.Reading? && op.key == k && Read(y.s, k, op.generation, op.after, op.revision, op.limit).1.Ok? {
      ReadKeepsMark(y, op, accepted, mark, unskipped);
    } else if op.Recovering? && ConsumerKey(op.request.consumer, op.request.channel) == k && Recovers(y.s, op) {
      RecoveryKeepsMark(y, op, mark, unskipped);
    } else {
      IdleMoverIsUntouched(y, op, k);
      StepGrowsCounter(y, op, k.channel);
      UntouchedKeepsMark(y, z, k, mark, unskipped);
    }
  }

  lemma IdleMoverIsUntouched(y: Sys, op: Op, k: ConsumerKey)
    requires Coverage(y)
    requires !(op.Reading? && op.key == k && Read(y.s, k, op.generation, op.after, op.revision, op.limit).1.Ok?)
    requires !(op.Recovering? && ConsumerKey(op.request.consumer, op.request.channel) == k && Recovers(y.s, op))
    ensures Untouched(y, Step(y, op), k)
  {
    if Mover(op) != Some(k) {
      OthersAreUntouched(y, op, k);
    } else if op.Reading? {
      assert Next(y.s, op) == y.s;
    } else {
      OtherOpsKeepCursors(y.s, op);
      RestKeepsRecord(y, op);
    }
  }

  ghost predicate Marked(y: Sys, accepted: EventId -> Time, k: ConsumerKey, mark: nat, unskipped: bool) {
    Inv(y, accepted) && Mark(y, k, mark, unskipped)
  }

  lemma StepKeepsMarked(y: Sys, op: Op, accepted: EventId -> Time, k: ConsumerKey, mark: nat, unskipped: bool)
    requires Marked(y, accepted, k, mark, unskipped) && Enabled(y, op, accepted)
    ensures Marked(Step(y, op), accepted, k, Higher(Step(y, op).s.consumers, k, mark),
                   unskipped && !Skips(y.s, op, k, mark))
  {
    StepKeepsInv(y, op, accepted);
    StepKeepsMark(y, op, accepted, k, mark, unskipped);
  }

  lemma {:induction false} RunKeepsMarked(y: Sys, ops: seq<Op>, accepted: EventId -> Time, k: ConsumerKey)
    requires Marked(y, accepted, k, 0, true) && Legal(y, ops, accepted)
    ensures Marked(Exec(y, ops), accepted, k, HighWater(y, ops, k), Unskipped(y, ops, k))
    decreases |ops|
  {
    if ops != [] {
      var before, op := ops[..|ops| - 1], ops[|ops| - 1];
      RunKeepsMarked(y, before, accepted, k);
      StepKeepsMarked(Exec(y, before), op, accepted, k, HighWater(y, before, k), Unskipped(y, before, k));
    }
  }

  lemma EmptyIsMarked(clock: Time, allowed: set<Channel>, accepted: EventId -> Time, k: ConsumerKey)
    ensures Marked(Empty(clock, allowed), accepted, k, 0, true)
  {
    EmptyInv(clock, allowed, accepted);
  }

  lemma RunIsMarked(clock: Time, allowed: set<Channel>, ops: seq<Op>, accepted: EventId -> Time, k: ConsumerKey)
    requires Legal(Empty(clock, allowed), ops, accepted)
    ensures Marked(Exec(Empty(clock, allowed), ops), accepted, k, HighWater(Empty(clock, allowed), ops, k),
                   Unskipped(Empty(clock, allowed), ops, k))
  {
    EmptyIsMarked(clock, allowed, accepted, k);
    RunKeepsMarked(Empty(clock, allowed), ops, accepted, k);
  }

  // ---- When a recovery loses nothing ----

  /** A recovery from another generation that resumes past the mark leaves the event there unaccounted. */
  lemma CrossingSkips(y: Sys, op: Op, mark: nat)
    requires op.Recovering? && Recovers(y.s, op) && op.previous != op.next && NoneSkipped(y.h.issued, y.s.channels)
    requires Shown(y.h, ConsumerKey(op.request.consumer, op.request.channel), mark) && op.resume > mark
    ensures !AllAccounted(Step(y, op).h, ConsumerKey(op.request.consumer, op.request.channel), op.resume)
  {
    var k := ConsumerKey(op.request.consumer, op.request.channel);
    RecoveryTarget(y.s, op);
    assert GivenOut(y.h.issued, k.channel, op.resume);
    var i :| 0 <= i < |y.h.issued| && y.h.issued[i].channel == k.channel && y.h.issued[i].offset == op.resume;
    CrossingRecord(y, op);
    assert !AuditedAt(Step(y, op).h, k, op.resume);
    assert k in Step(y, op).h.first ==> !Accounted(Step(y, op).h, k, y.h.issued[i]);
  }

  lemma RecoveryTarget(s: Store, op: Op)
    requires op.Recovering? && Recovers(s, op)
    ensures op.request.channel in s.channels && op.resume <= s.channels[op.request.channel].current
    ensures var k := ConsumerKey(op.request.consumer, op.request.channel);
            op.expected == RecoveryProgress(s, k, op.previous).revision
  {
  }

  lemma CrossingRecord(y: Sys, op: Op)
    requires op.Recovering? && Recovers(y.s, op) && op.previous != op.next
    ensures var k, h := ConsumerKey(op.request.consumer, op.request.channel), Step(y, op).h;
            && h.issued == y.h.issued && h.delivered == y.h.delivered && h.audits == y.h.audits
            && (k in h.first ==> h.first[k] == if k in y.s.consumers && k in y.h.first then y.h.first[k] else 0)
  {
  }

  lemma RecoveryLosesNothingAt(y: Sys, op: Op, accepted: EventId -> Time, mark: nat)
    requires op.Recovering? && Recovers(y.s, op)
    requires Marked(y, accepted, ConsumerKey(op.request.consumer, op.request.channel), mark, true)
    ensures AllAccounted(Step(y, op).h, ConsumerKey(op.request.consumer, op.request.channel), op.resume)
            <==> op.previous == op.next || op.resume <= mark
  {
    if op.previous == op.next || op.resume <= mark {
      RecoveryAccountsToMark(y, op, mark);
      RecoveryEffect(y.s, op);
    } else {
      CrossingSkips(y, op, mark);
    }
  }

  /** In every run, the next recovery of a consumer that has skipped nothing so far leaves nothing
      unaccounted exactly when it stays in its generation, or resumes no later than the highest offset
      ever offered to the consumer. */
  lemma RecoveryLosesNothing(clock: Time, allowed: set<Channel>, ops: seq<Op>, accepted: EventId -> Time, op: Op)
    requires Legal(Empty(clock, allowed), ops, accepted)
    requires op.Recovering? && Recovers(Exec(Empty(clock, allowed), ops).s, op)
    requires Unskipped(Empty(clock, allowed), ops, ConsumerKey(op.request.consumer, op.request.channel))
    ensures var y, k := Exec(Empty(clock, allowed), ops), ConsumerKey(op.request.consumer, op.request.channel);
            AllAccounted(Step(y, op).h, k, op.resume) <==>
            op.previous == op.next || op.resume <= HighWater(Empty(clock, allowed), ops, k)
  {
    var y, k := Empty(clock, allowed), ConsumerKey(op.request.consumer, op.request.channel);
    RunIsMarked(clock, allowed, ops, accepted, k);
    RecoveryLosesNothingAt(Exec(y, ops), op, accepted, HighWater(y, ops, k));
  }

  /** No silent loss across generations: for a consumer whose recoveries skipped nothing, every event up
      to the highest offset ever offered to it was delivered to it, audited, or expired before it
      registered, however often the journal was rotated. */
  lemma NoLossAcrossGenerations(clock: Time, allowed: set<Channel>, ops: seq<Op>, accepted: EventId -> Time,
                                k: ConsumerKey, i: nat)
    requires Legal(Empty(clock, allowed), ops, accepted) && Unskipped(Empty(clock, allowed), ops, k)
    requires var y := Exec(Empty(clock, allowed), ops);
             && k in y.s.consumers && i < |y.h.issued| && y.h.issued[i].channel == k.channel
             && y.h.issued[i].offset <= HighWater(Empty(clock, allowed), ops, k)
    ensures var y := Exec(Empty(clock, allowed), ops);
            && k in y.h.first && Accounted(y.h, k, y.h.issued[i])
            && y.s.consumers[k].Settled() <= HighWater(Empty(clock, allowed), ops, k)
  {
    RunIsMarked(clock, allowed, ops, accepted, k);
    assert ProgressShape(Exec(Empty(clock, allowed), ops).s, k);
  }

  /** In particular consumers that were never moved across generations have skipped nothing. */
  lemma {:induction false} UncrossedIsUnskipped(y: Sys, ops: seq<Op>, k: ConsumerKey)
    requires k !in Exec(y, ops).h.crossed
    ensures Unskipped(y, ops, k)
    decreases |ops|
  {
    if ops != [] {
      var before, op := ops[..|ops| - 1], ops[|ops| - 1];
      CrossedGrows(Exec(y, before), op, k);
      UncrossedIsUnskipped(y, before, k);
    }
  }

  lemma CrossedGrows(y: Sys, op: Op, k: ConsumerKey)
    requires k !in Step(y, op).h.crossed
    ensures k !in y.h.crossed && forall mark :: !Skips(y.s, op, k, mark)
  {
  }

  lemma MarkBeforeRecoveries(y: Sys, accepted: EventId -> Time, k: ConsumerKey, mark: nat, unskipped: bool)
    requires Marked(y, accepted, k, mark, unskipped) && RecoveryProgress(y.s, k, Name("")).revision == 0
    ensures unskipped && mark == if k in y.s.consumers then y.s.consumers[k].offered else 0
  {
  }

  /** For a consumer without earlier recoveries the mark is its offered offset, and 0 if it is unknown. */
  lemma FirstCrossingLosesNothing(clock: Time, allowed: set<Channel>, ops: seq<Op>, accepted: EventId -> Time, op: Op)
    requires Legal(Empty(clock, allowed), ops, accepted)
    requires op.Recovering? && Recovers(Exec(Empty(clock, allowed), ops).s, op) && op.previous != op.next
    requires op.expected == 0
    ensures var y, k := Exec(Empty(clock, allowed), ops), ConsumerKey(op.request.consumer, op.request.channel);
            AllAccounted(Step(y, op).h, k, op.resume) <==>
            op.resume <= if k in y.s.consumers then y.s.consumers[k].offered else 0
  {
    var y, k := Empty(clock, allowed), ConsumerKey(op.request.consumer, op.request.channel);
    RunIsMarked(clock, allowed, ops, accepted, k);
    RecoveryTarget(Exec(y, ops).s, op);
    MarkBeforeRecoveries(Exec(y, ops), accepted, k, HighWater(y, ops, k), Unskipped(y, ops, k));
    RecoveryLosesNothingAt(Exec(y, ops), op, accepted, HighWater(y, ops, k));
  }

  /** A recovery across generations of a known consumer changes nothing about what it was shown. */
  lemma CrossingAddsNothing(y: Sys, op: Op, through: nat)
    requires op.Recovering? && Recovers(y.s, op) && op.previous != op.next
    requires ConsumerKey(op.request.consumer, op.request.channel) in y.s.consumers
    ensures var k := ConsumerKey(op.request.consumer, op.request.channel);
            AllAccounted(Step(y, op).h, k, through) <==> AllAccounted(y.h, k, through)
  {
    var k, h := ConsumerKey(op.request.consumer, op.request.channel), Step(y, op).h;
    assert h.issued == y.h.issued && h.delivered == y.h.delivered && h.audits == y.h.audits && h.first == y.h.first;
    assert forall o :: AuditedAt(h, k, o) <==> AuditedAt(y.h, k, o);
    assert forall i :: 0 <= i < |h.issued| && k in h.first ==>
                         (Accounted(h, k, h.issued[i]) <==> Accounted(y.h, k, y.h.issued[i]));
  }

  // ---- Runs in which a recovery skips an event silently ----

  const CHANNEL := Name("c")
  const GENERATION := Name("g")
  const WORKER := Name("w")
  const TOKEN := Name("t")
  const READER := ConsumerKey(Name("r"), CHANNEL)
  const DONATION :=
    Donation(Name("e"), CHANNEL, 1, Name("balloon"), Name("d"), Name(""), Name(""), Name("s"), 1, 1, false, Name(""), 0)

  lemma ExecSnoc(y: Sys, ops: seq<Op>, op: Op, accepted: EventId -> Time)
    ensures Exec(y, ops + [op]) == Step(Exec(y, ops), op)
    ensures Legal(y, ops, accepted) && Enabled(Exec(y, ops), op, accepted) ==> Legal(y, ops + [op], accepted)
  {
    assert (ops + [op])[..|ops|] == ops;
  }

  /** The channel has one event, journaled under the only grant, and the consumers are as given. */
  ghost predicate OneEvent(y: Sys, generation: Name, consumers: map<ConsumerKey, Progress>) {
    && CHANNEL in y.s.channels && y.s.channels[CHANNEL].generation == generation
    && y.s.channels[CHANNEL].current == 1 && y.s.channels[CHANNEL].expiredThrough == 0
    && y.s.consumers == consumers && y.s.recoveries == map[] && y.h.crossed == {}
  }

  /** Ensured, assigned, acquired, and then one event appended. */
  lemma OneEventRun(consumers: map<ConsumerKey, Progress>, ops: seq<Op>, accepted: EventId -> Time)
    returns (more: seq<Op>)
    requires Legal(Empty(0, {CHANNEL}), ops, accepted) && accepted(DONATION.eventId) == 0
    requires var y := Exec(Empty(0, {CHANNEL}), ops);
             && y.s == Acquirable(consumers) && y.h.grants == map[] && y.h.crossed == {}
    ensures Legal(Empty(0, {CHANNEL}), more, accepted)
    ensures OneEvent(Exec(Empty(0, {CHANNEL}), more), GENERATION, consumers)
  {
    var y0 := Empty(0, {CHANNEL});
    var acquire := Acquiring(CHANNEL, WORKER, TOKEN);
    var append := Appending(OwnerGrant(TOKEN, CHANNEL, GENERATION), DONATION, 0, 0, 0);
    ExecSnoc(y0, ops, acquire, accepted);
    ExecSnoc(y0, ops + [acquire], append, accepted);
    more := ops + [acquire] + [append];
    FirstAcquire(Exec(y0, ops), consumers);
    AppendsOneEvent(Exec(y0, ops + [acquire]), consumers);
  }

  /** The channel has its first grant and no events. */
  ghost predicate Granted(y: Sys, consumers: map<ConsumerKey, Progress>) {
    && y.s.clock == 0 && y.s.allowed == {CHANNEL} && y.s.optedOut == {} && y.s.donations == map[] && TOKEN in y.s.grants
    && CHANNEL in y.s.channels && y.s.channels[CHANNEL] == ChannelRow(GENERATION, 0, 0, true, Some(TOKEN))
    && y.s.grants[TOKEN] == Grant(CHANNEL, WORKER, GENERATION, 0, GRANT_LIFE, None)
    && y.s.consumers == consumers && y.s.recoveries == map[] && y.h.crossed == {}
  }

  lemma FirstAcquire(y: Sys, consumers: map<ConsumerKey, Progress>)
    requires y.s == Acquirable(consumers) && y.h.grants == map[] && y.h.crossed == {}
    ensures Granted(Step(y, Acquiring(CHANNEL, WORKER, TOKEN)), consumers)
  {
  }

  lemma AppendsOneEvent(y: Sys, consumers: map<ConsumerKey, Progress>)
    requires Granted(y, consumers)
    ensures var append := Appending(OwnerGrant(TOKEN, CHANNEL, GENERATION), DONATION, 0, 0, 0);
            OneEvent(Step(y, append), GENERATION, consumers)
  {
    FirstAppend(y.s);
  }

  function Acquirable(consumers: map<ConsumerKey, Progress>): Store {
    Store(0, {CHANNEL}, {}, map[CHANNEL := WORKER], map[CHANNEL := ChannelRow(GENERATION, 0, 0, true, None)],
          map[], map[], map[], consumers, map[], map[], [])
  }

  lemma FirstAppend(s: Store)
    requires s.clock == 0 && s.allowed == {CHANNEL} && s.optedOut == {} && s.donations == map[] && TOKEN in s.grants
    requires CHANNEL in s.channels && s.channels[CHANNEL] == ChannelRow(GENERATION, 0, 0, true, Some(TOKEN))
    requires s.grants[TOKEN] == Grant(CHANNEL, WORKER, GENERATION, 0, GRANT_LIFE, None)
    ensures Append(s, OwnerGrant(TOKEN, CHANNEL, GENERATION), DONATION, 0, 0, 0).1.Ok?
    ensures var t := Append(s, OwnerGrant(TOKEN, CHANNEL, GENERATION), DONATION, 0, 0, 0).0;
            && t == Journaled(s, DONATION.(generation := GENERATION, offset := 1), 0)
            && t.channels[CHANNEL] == ChannelRow(GENERATION, 1, 0, true, Some(TOKEN))
  {
    assert Payloads(s.donations, CHANNEL) == {};
    assert TotalSize(s.donations, CHANNEL) == 0;
  }

  lemma StartRun(accepted: EventId -> Time) returns (ops: seq<Op>)
    ensures Legal(Empty(0, {CHANNEL}), ops, accepted)
    ensures var y := Exec(Empty(0, {CHANNEL}), ops); y.s == Acquirable(map[]) && y.h == Empty(0, {CHANNEL}).h
  {
    var y0, ensure, assign := Empty(0, {CHANNEL}), Ensuring(CHANNEL, GENERATION), Assigning(map[CHANNEL := WORKER]);
    ExecSnoc(y0, [], ensure, accepted);
    ExecSnoc(y0, [] + [ensure], assign, accepted);
    ops := [] + [ensure] + [assign];
  }

  /** An unknown consumer that names another generation skips the first event without an audit. */
  lemma UnknownConsumerSkips(accepted: EventId -> Time) returns (ops: seq<Op>, op: Op)
    requires accepted(DONATION.eventId) == 0
    ensures Legal(Empty(0, {CHANNEL}), ops + [op], accepted)
    ensures var y := Exec(Empty(0, {CHANNEL}), ops);
            && op.Recovering? && Recovers(y.s, op) && READER !in y.s.consumers && READER !in y.h.crossed
            && !AllAccounted(Step(y, op).h, READER, op.resume)
  {
    var start := StartRun(accepted);
    ops := OneEventRun(map[], start, accepted);
    op := Recovering(RequestKey(READER.consumer, CHANNEL, Name("1")), Name("x"), GENERATION, 1, 0,
                     RecoveryRequest(Name(""), None));
    ExecSnoc(Empty(0, {CHANNEL}), ops, op, accepted);
    RecoversToOne(Exec(Empty(0, {CHANNEL}), ops), op, GENERATION, map[]);
    FirstCrossingLosesNothing(0, {CHANNEL}, ops, accepted, op);
  }

  lemma RecoversToOne(y: Sys, op: Op, generation: Name, consumers: map<ConsumerKey, Progress>)
    requires OneEvent(y, generation, consumers) && op.Recovering?
    requires op == Recovering(RequestKey(READER.consumer, CHANNEL, Name("1")), op.previous, generation, 1, 0, op.body)
    requires op.previous != generation && RecoveryProgress(y.s, READER, op.previous).generation == op.previous
    requires RecoveryProgress(y.s, READER, op.previous).revision == 0
    ensures Recovers(y.s, op)
  {
  }

  /** A consumer that had read everything there was skips a later event when it recovers across a
      rotation, again without an audit. */
  lemma RegisteredConsumerSkips(accepted: EventId -> Time) returns (ops: seq<Op>, op: Op)
    requires accepted(DONATION.eventId) == 0
    ensures Legal(Empty(0, {CHANNEL}), ops + [op], accepted)
    ensures var y := Exec(Empty(0, {CHANNEL}), ops);
            && op.Recovering? && Recovers(y.s, op) && READER in y.s.consumers && READER !in y.h.crossed
            && !AllAccounted(Step(y, op).h, READER, op.resume)
  {
    var y0, consumers := Empty(0, {CHANNEL}), map[READER := Progress(GENERATION, 0, 0, None, 0)];
    var start := StartRun(accepted);
    var read := Reading(READER, GENERATION, 0, 0, 1);
    ExecSnoc(y0, start, read, accepted);
    var appended := OneEventRun(consumers, start + [read], accepted);
    var rotate := Rotating(CHANNEL, GENERATION, Name("r"), Name("h"));
    ExecSnoc(y0, appended, rotate, accepted);
    ops := appended + [rotate];
    op := Recovering(RequestKey(READER.consumer, CHANNEL, Name("1")), GENERATION, Name("h"), 1, 0,
                     RecoveryRequest(Name(""), None));
    ExecSnoc(y0, ops, op, accepted);
    RotatesOneEvent(Exec(y0, appended), consumers);
    RecoversToOne(Exec(y0, ops), op, Name("h"), consumers);
    FirstCrossingLosesNothing(0, {CHANNEL}, ops, accepted, op);
  }

  lemma RotatesOneEvent(y: Sys, consumers: map<ConsumerKey, Progress>)
    requires OneEvent(y, GENERATION, consumers)
    ensures OneEvent(Step(y, Rotating(CHANNEL, GENERATION, Name("r"), Name("h"))), Name("h"), consumers)
  {
  }
}
