/** The archive database as an object, proved against the transactions of ArchiveState, and the
    exporter that moves one segment at a time. */
module PgArchives {
  import opened JournalTypes
  import opened Segments
  import opened ArchiveState
  import opened ArchiveLog
  import opened ArchiveExport
  import opened ArchiveRuns
  import opened ArchivePage
  import Least

  /** A hot row old enough to start a segment. */
  predicate Eligible(a: Archive, channel: Name, cutoff: Time, p: int) {
    && p in a.hot && Owned(a, a.hot[p].session, channel) && a.hot[p].receivedAt < cutoff
    && !exists e :: e in a.entries && e.session == a.hot[p].session && InRange(e, p)
  }

  /** The batch starts at the oldest eligible row and goes on, whatever the age of the rows, until the
      limit, the next indexed segment or the end of the session's hot rows. */
  ghost predicate NextBatchOf(a: Archive, channel: Name, cutoff: Time, limit: nat, rows: seq<ChatRow>) {
    && (rows == [] <==> forall p :: p in a.hot ==> !Eligible(a, channel, cutoff, p))
    && (rows != [] ==>
          && Candidate(a, rows) && |rows| <= limit && Eligible(a, channel, cutoff, rows[0].position)
          && (forall p :: Eligible(a, channel, cutoff, p) ==> rows[0].position <= p)
          && (|rows| < limit ==> forall p :: IsHotAt(a, rows[0].session, p) && p > LastPosition(rows) ==>
                Barred(a, rows[0], p)))
  }

  /** So a batch starts at the first of the channel's hot rows received before the cutoff, and there is none
      exactly if no such row is left. */
  lemma BatchStartsAtOldest(c: Codec, a: Archive, channel: Name, cutoff: Time, limit: nat, rows: seq<ChatRow>)
    requires Inv(c, a) && NextBatchOf(a, channel, cutoff, limit, rows)
    ensures rows != [] <==>
              exists p :: p in a.hot && Owned(a, a.hot[p].session, channel) && a.hot[p].receivedAt < cutoff
    ensures rows != [] ==>
              && IsHot(a, rows[0].session, rows[0]) && Owned(a, rows[0].session, channel) && rows[0].receivedAt < cutoff
              && forall p :: p in a.hot && Owned(a, a.hot[p].session, channel) && a.hot[p].receivedAt < cutoff ==>
                   rows[0].position <= p
  {
    forall p | p in a.hot && Owned(a, a.hot[p].session, channel) && a.hot[p].receivedAt < cutoff
      ensures Eligible(a, channel, cutoff, p)
    {
      assert forall e :: e in a.entries && e.session == a.hot[p].session ==> !InRange(e, p);
    }
  }

  predicate IsHotAt(a: Archive, session: Name, p: int) { p in a.hot && a.hot[p].session == session }

  /** A segment starts between the row and the position. */
  predicate Barred(a: Archive, from: ChatRow, p: int) {
    exists e :: e in a.entries && e.session == from.session && from.position < e.first <= p
  }

  function Reconciled(a: Archive, sources: set<Source>, records: seq<Chat>, ids: seq<Name>): Archive
    requires |records| == |ids|
    decreases |records|
  {
    if records == [] then a
    else
      var n := |records| - 1;
      AppendChat(Reconciled(a, sources, records[..n], ids[..n]), sources, records[n], ids[n])
  }

  class PgArchive {
    const codec: Codec
    const channel: Name
    var sequence: nat
    var sessions: map<SourceKey, Name>
    var eventIds: map<EventKey, int>
    var hot: map<int, ChatRow>
    var entries: set<Entry>
    var objects: map<ObjectKey, Bytes>
    var unassigned: map<Name, Chat>

    function View(): Archive
      reads this
    {
      Archive(sequence, sessions, eventIds, hot, entries, objects, unassigned)
    }

    constructor (c: Codec, ch: Name)
      ensures View() == EMPTY.archive && codec == c && channel == ch
    {
      codec, channel := c, ch;
      sequence, sessions, eventIds, hot, entries, objects, unassigned := 0, map[], map[], map[], {}, map[], map[];
    }

    /** Whether a broadcast was found for the chat; None if the record is refused. */
    method AppendArchiveChat(sources: set<Source>, r: Chat, newId: Name, allowed: bool) returns (found: Option<bool>)
      modifies this
      ensures found.None? <==> !Acceptable(codec, r) || !allowed
      ensures View() == if found.None? then old(View()) else AppendChat(old(View()), sources, r, newId)
      ensures found.Some? ==> found.value == (|Matching(sources, r)| == 1)
    {
      if !Acceptable(codec, r) || !allowed { return None; }
      var matches := set b | b in sources && Covers(b, r);
      assert matches == Matching(sources, r);
      if |matches| != 1 {
        if r.spoolId !in unassigned { unassigned := unassigned[r.spoolId := r]; }
        return Some(false);
      }
      OneElement(matches);
      var source :| source in matches;
      assert source == Only(Matching(sources, r));
      AppendToSession(KeyOfSource(source), r, newId);
      return Some(true);
    }

    method AppendToSession(key: SourceKey, r: Chat, newId: Name)
      modifies this
      ensures View() == AppendTo(old(View()), key, r, newId)
    {
      var session := if key in sessions then sessions[key] else newId;
      sessions := sessions[key := session];
      sequence := sequence + 1;
      unassigned := unassigned - {r.spoolId};
      if EventKey(session, r.event) !in eventIds {
        eventIds := eventIds[EventKey(session, r.event) := sequence];
        hot := hot[sequence := RowFor(r, session, sequence)];
      }
    }

    /** Retries records that had no broadcast yet, up to the first refused one. */
    method ReconcileUnassigned(sources: set<Source>, records: seq<Chat>, ids: seq<Name>, allowed: bool)
      returns (tried: nat, count: nat)
      requires |records| == |ids|
      modifies this
      ensures tried <= |records| && View() == Reconciled(old(View()), sources, records[..tried], ids[..tried])
      ensures forall i :: 0 <= i < tried ==> Acceptable(codec, records[i]) && allowed
      ensures tried < |records| ==> !Acceptable(codec, records[tried]) || !allowed
      ensures count == AssignedCount(sources, records[..tried])
    {
      tried, count := 0, 0;
      var refused := false;
      while tried < |records| && !refused
        invariant Reconciling(old(View()), View(), sources, records, ids, tried, count)
        invariant forall i :: 0 <= i < tried ==> Acceptable(codec, records[i]) && allowed
        invariant refused ==> tried < |records| && (!Acceptable(codec, records[tried]) || !allowed)
        decreases |records| - tried, !refused
      {
        ghost var before := View();
        var found := AppendArchiveChat(sources, records[tried], ids[tried], allowed);
        if found.None? {
          refused := true;
        } else {
          ReconcilingNext(old(View()), before, View(), sources, records, ids, tried, count);
          if found.value { count := count + 1; }
          tried := tried + 1;
        }
      }
    }

    /** Chooses the next segment candidate. */
    method NextBatch(cutoff: Time, limit: int) returns (rows: Option<seq<ChatRow>>)
      requires Inv(codec, View())
      ensures rows.None? <==> limit < 1 || limit > MAX_SEGMENT_ROWS
      ensures rows.Some? ==> 1 <= limit && NextBatchOf(View(), channel, cutoff, limit, rows.value)
    {
      if limit < 1 || limit > MAX_SEGMENT_ROWS { return None; }
      rows := FindBatch(codec, View(), channel, cutoff, limit);
    }

    /** Indexes a verified segment and deletes its hot rows, or changes nothing. */
    method CommitSegment(s: Segment, bucket: Name) returns (error: Option<CommitError>)
      requires Disjoint(View())
      modifies this
      ensures error == Some(Unverified) <==> bucket.text == "" || !Sound(codec, s)
      ensures error != Some(Unverified) ==> Ends(Commit(old(View()), s, bucket, channel), old(View()), View(), error)
      ensures error.Some? ==> View() == old(View())
    {
      if bucket.text == "" { return Some(Unverified); }
      var decoded := Decode(codec, s);
      if decoded.Broken? { return Some(Unverified); }
      error := CommitRow(s, bucket);
    }

    method CommitRow(s: Segment, bucket: Name) returns (error: Option<CommitError>)
      requires Disjoint(View())
      modifies this
      ensures error != Some(Unverified) && (error.Some? ==> View() == old(View()))
      ensures Ends(Commit(old(View()), s, bucket, channel), old(View()), View(), error)
    {
      if !Owned(View(), s.session, channel) { return Some(NotOwned); }
      var overlapping := set e | e in entries && e.session == s.session && Overlap(e, s.first, s.last);
      SameEntryOnly(View(), s, bucket, overlapping);
      if overlapping != {} {
        var existing :| existing in overlapping;
        return if existing == EntryOf(s, bucket) then None else Some(Overlapping);
      }
      var kept := Kept(hot, s.session, s.first, s.last);
      if |hot| - |kept| != s.count { return Some(CountChanged); }
      entries, hot := entries + {EntryOf(s, bucket)}, kept;
      return None;
    }

    /** Stores the object and reads it back. */
    method PutVerified(s: Segment, stores: bool) returns (ok: bool)
      modifies this`objects
      ensures ok == stores && View() == if stores then Uploaded(old(View()), s) else old(View())
    {
      if stores { objects := objects[KeyOf(s) := s.body]; }
      ok := stores;
    }
  }

  lemma ReconciledNext(a: Archive, sources: set<Source>, records: seq<Chat>, ids: seq<Name>, n: nat)
    requires |records| == |ids| && n < |records|
    ensures Reconciled(a, sources, records[..n + 1], ids[..n + 1])
            == AppendChat(Reconciled(a, sources, records[..n], ids[..n]), sources, records[n], ids[n])
    ensures AssignedCount(sources, records[..n + 1])
            == AssignedCount(sources, records[..n]) + if |Matching(sources, records[n])| == 1 then 1 else 0
  {
    assert records[..n + 1][..n] == records[..n] && ids[..n + 1][..n] == ids[..n];
  }

  /** The first records have been retried. */
  ghost predicate Reconciling(a: Archive, b: Archive, sources: set<Source>, records: seq<Chat>, ids: seq<Name>,
                              tried: nat, count: nat)
  {
    && |records| == |ids| && tried <= |records| && b == Reconciled(a, sources, records[..tried], ids[..tried])
    && count == AssignedCount(sources, records[..tried])
  }

  lemma ReconcilingNext(a: Archive, b: Archive, d: Archive, sources: set<Source>, records: seq<Chat>, ids: seq<Name>,
                        tried: nat, count: nat)
    requires Reconciling(a, b, sources, records, ids, tried, count) && tried < |records|
    requires d == AppendChat(b, sources, records[tried], ids[tried])
    ensures var more := if |Matching(sources, records[tried])| == 1 then 1 else 0;
            Reconciling(a, d, sources, records, ids, tried + 1, count + more)
  {
    ReconciledNext(a, sources, records, ids, tried);
  }

  function AssignedCount(sources: set<Source>, records: seq<Chat>): nat
    decreases |records|
  {
    if records == [] then 0
    else
      var n := |records| - 1;
      AssignedCount(sources, records[..n]) + if |Matching(sources, records[n])| == 1 then 1 else 0
  }

  // ---- Choosing a batch ----

  /** The least of the keys. */
  method Lowest(keys: set<int>) returns (least: Option<int>)
    ensures least.None? <==> keys == {}
    ensures least.Some? ==> least.value in keys && forall k :: k in keys ==> least.value <= k
  {
    if keys == {} { return None; }
    ghost var lowest := Least.LeastElement(keys);
    var k :| k in keys && forall l :: l in keys ==> k <= l;
    return Some(k);
  }

  /** The segment starts of the session after the row. */
  function Starts(a: Archive, session: Name, first: int): set<int> {
    set e | e in a.entries && e.session == session && e.first > first :: e.first
  }

  function RunKeys(a: Archive, session: Name, first: int, bar: Option<int>): set<int> {
    set p | p in a.hot && a.hot[p].session == session && p >= first && (bar.None? || p < bar.value)
  }

  /** Hot rows from `first` on, below the bar, cut at the limit. */
  ghost predicate HotRun(a: Archive, session: Name, first: int, bar: Option<int>, limit: nat, rows: seq<ChatRow>) {
    && Ascending(rows) && |rows| <= limit
    && (forall i :: 0 <= i < |rows| ==>
          IsHot(a, session, rows[i]) && rows[i].position in RunKeys(a, session, first, bar))
    && (forall p :: p in RunKeys(a, session, first, bar) ==>
          a.hot[p] in rows || (|rows| == limit && p > LastPosition(rows)))
  }

  method TakeRun(ghost c: Codec, a: Archive, session: Name, first: int, bar: Option<int>, limit: nat)
    returns (rows: seq<ChatRow>)
    requires Inv(c, a) && limit > 0
    ensures HotRun(a, session, first, bar, limit, rows)
  {
    var positions := LeastKeys(RunKeys(a, session, first, bar), limit);
    rows := RowsAt(c, a, session, positions);
    forall p | p in RunKeys(a, session, first, bar)
      ensures a.hot[p] in rows || (|rows| == limit && p > LastPosition(rows))
    {
      assert HotOk(c, a, p);
      HotIsListed(a, session, positions, rows, a.hot[p]);
    }
  }

  /** A run from an eligible row up to the next segment is a batch. */
  lemma RunIsBatch(c: Codec, a: Archive, channel: Name, cutoff: Time, limit: nat, rows: seq<ChatRow>, first: int,
                   bar: Option<int>)
    requires Inv(c, a) && Eligible(a, channel, cutoff, first) && 0 < limit <= MAX_SEGMENT_ROWS
    requires forall p :: Eligible(a, channel, cutoff, p) ==> first <= p
    requires bar.None? <==> Starts(a, a.hot[first].session, first) == {}
    requires bar.Some? ==> bar.value in Starts(a, a.hot[first].session, first)
                           && forall s :: s in Starts(a, a.hot[first].session, first) ==> bar.value <= s
    requires HotRun(a, a.hot[first].session, first, bar, limit, rows)
    ensures NextBatchOf(a, channel, cutoff, limit, rows) && rows != []
  {
    var session := a.hot[first].session;
    RunStarts(c, a, first, bar, limit, rows);
    assert Eligible(a, channel, cutoff, rows[0].position);
    forall e | e in a.entries && e.session == session
      ensures !InRange(e, first) && !(first < e.first <= LastPosition(rows))
    {
      if e.first > first { assert e.first in Starts(a, session, first); }
      assert rows[|rows| - 1].position in RunKeys(a, session, first, bar);
    }
    forall p | IsHotAt(a, session, p) && first <= p
      ensures p <= LastPosition(rows) ==> a.hot[p] in rows
      ensures |rows| < limit && p > LastPosition(rows) ==> Barred(a, rows[0], p)
    {
      RunIsWhole(c, a, session, first, bar, limit, rows, p);
    }
  }

  lemma RunStarts(c: Codec, a: Archive, first: int, bar: Option<int>, limit: nat, rows: seq<ChatRow>)
    requires Inv(c, a) && first in a.hot && 0 < limit
    requires bar.Some? ==> bar.value in Starts(a, a.hot[first].session, first)
    requires HotRun(a, a.hot[first].session, first, bar, limit, rows)
    ensures rows != [] && rows[0] == a.hot[first] && rows[0].position == first
  {
    assert HotOk(c, a, first) && first in RunKeys(a, a.hot[first].session, first, bar);
    AscendingAt(rows, 0);
    assert rows[0].position in RunKeys(a, a.hot[first].session, first, bar);
    var i :| 0 <= i < |rows| && rows[i] == a.hot[first];
    assert i > 0 ==> rows[0].position < rows[i].position;
  }

  lemma RunIsWhole(c: Codec, a: Archive, session: Name, first: int, bar: Option<int>, limit: nat, rows: seq<ChatRow>,
                   p: int)
    requires HotRun(a, session, first, bar, limit, rows) && rows != [] && rows[0].session == session
    requires rows[0].position == first
    requires bar.Some? ==> bar.value in Starts(a, session, first)
    requires IsHotAt(a, session, p) && first <= p && HotOk(c, a, p)
    ensures p <= LastPosition(rows) ==> a.hot[p] in rows
    ensures |rows| < limit && p > LastPosition(rows) ==> Barred(a, rows[0], p)
  {
    if p in RunKeys(a, session, first, bar) {
      if a.hot[p] in rows { UpToLast(rows, a.hot[p]); }
    } else {
      assert rows[|rows| - 1].position in RunKeys(a, session, first, bar);
      var e :| e in a.entries && e.session == session && e.first > first && e.first == bar.value;
    }
  }

  method FindBatch(ghost c: Codec, a: Archive, channel: Name, cutoff: Time, limit: nat)
    returns (rows: Option<seq<ChatRow>>)
    requires Inv(c, a) && 0 < limit <= MAX_SEGMENT_ROWS
    ensures rows.Some? && NextBatchOf(a, channel, cutoff, limit, rows.value)
  {
    var eligible := set p | p in a.hot && Eligible(a, channel, cutoff, p);
    var first := Lowest(eligible);
    if first.None? {
      assert forall p :: p in a.hot && Eligible(a, channel, cutoff, p) ==> p in eligible;
      return Some([]);
    }
    assert first.value in eligible;
    assert forall p :: Eligible(a, channel, cutoff, p) ==> p in eligible;
    var session := a.hot[first.value].session;
    var bar := Lowest(Starts(a, session, first.value));
    var batch := TakeRun(c, a, session, first.value, bar, limit);
    RunIsBatch(c, a, channel, cutoff, limit, batch, first.value, bar);
    return Some(batch);
  }

  /** Entries of a session never share a position. */
  ghost predicate Disjoint(a: Archive) {
    RangesOk(a) && forall e :: e in a.entries ==> e.first <= e.last
  }

  predicate Ends(r: Committed, before: Archive, after: Archive, error: Option<CommitError>) {
    match r
    case Failed(e) => error == Some(e) && after == before
    case Done(a) => error == None && after == a
  }

  /** If the segment is indexed already, nothing else overlaps it. */
  lemma SameEntryOnly(a: Archive, s: Segment, bucket: Name, overlapping: set<Entry>)
    requires Disjoint(a)
    requires overlapping == set e | e in a.entries && e.session == s.session && Overlap(e, s.first, s.last)
    ensures EntryOf(s, bucket) in a.entries ==> overlapping == {EntryOf(s, bucket)}
    ensures overlapping == {} <==> Free(a, s)
  {
    var own := EntryOf(s, bucket);
    if own in a.entries {
      assert Overlap(own, s.first, s.last);
      forall e | e in overlapping ensures e == own { assert e == own || !Overlap(e, own.first, own.last); }
    }
    assert forall e :: e in overlapping <==> e in a.entries && e.session == s.session && Overlap(e, s.first, s.last);
  }

  /** The first rows of the batch are an indexed segment. */
  ghost predicate Indexed(c: Codec, b: Archive, batch: seq<ChatRow>, bucket: Name) {
    exists n :: 0 < n <= |batch| && IsSegment(c, b, batch[..n], bucket)
  }

  ghost predicate IsSegment(c: Codec, b: Archive, rows: seq<ChatRow>, bucket: Name)
    requires rows != []
  {
    exists e ::
      && e in b.entries && e.session == rows[0].session && e.bucket == bucket && e.count == |rows|
      && e.first == rows[0].position && e.last == rows[|rows| - 1].position
      && RowsOf(c, b.objects, e) == rows
      && forall p :: p in b.hot && b.hot[p].session == e.session ==> !(e.first <= p <= e.last)
  }

  /** The invariant holds on and no log changed. */
  ghost predicate Lossless(c: Codec, a: Archive, b: Archive) { Inv(c, b) && Extends(c, a, b, None) }

  lemma InvDisjoint(c: Codec, a: Archive)
    requires Inv(c, a)
    ensures Disjoint(a)
  {
    forall e | e in a.entries ensures e.first <= e.last { assert EntryOk(c, a, e); }
  }

  /** Uploading and committing the first rows of the next batch. */
  lemma ExportRound(c: Codec, a: Archive, batch: seq<ChatRow>, n: nat, channel: Name, bucket: Name)
    requires Lawful(c) && Inv(c, a) && BatchOk(c, a, batch)
    requires 0 < n <= |batch| && Fits(c, batch[..n])
    ensures var s := SegmentOf(c, batch[..n]);
            var b := Uploaded(a, s);
            && Sound(c, s) && Lossless(c, a, b)
            && match Commit(b, s, bucket, channel)
               case Failed(_) => true
               case Done(d) => Lossless(c, a, d) && IsSegment(c, d, batch[..n], bucket)
  {
    var rows := batch[..n];
    var b := Uploaded(a, SegmentOf(c, rows));
    PrefixIsBatch(c, a, batch, n);
    UploadKeeps(c, a, rows);
    ExtendsKeepsBatch(c, a, b, None, rows);
    BuiltDecodes(c, rows);
    CommitKeeps(c, b, rows, bucket, channel);
    CommittedEntry(c, b, rows, bucket);
    match Commit(b, SegmentOf(c, rows), bucket, channel) {
      case Failed(_) =>
      case Done(d) =>
        LosslessTwice(c, a, b, d);
        SegmentIsThere(c, d, rows, bucket);
    }
  }

  lemma SegmentIsThere(c: Codec, d: Archive, rows: seq<ChatRow>, bucket: Name)
    requires Inv(c, d) && rows != []
    requires var e := EntryOf(SegmentOf(c, rows), bucket); e in d.entries && RowsOf(c, d.objects, e) == rows
    ensures IsSegment(c, d, rows, bucket)
  {
    var e := EntryOf(SegmentOf(c, rows), bucket);
    forall p | p in d.hot && d.hot[p].session == e.session ensures !(e.first <= p <= e.last) {
      assert !InRange(e, p);
    }
  }

  /** A batch just taken from the archive overlaps no segment, so its commit goes through. */
  lemma FreshBatchCommits(c: Codec, a: Archive, batch: seq<ChatRow>, n: nat, channel: Name, bucket: Name)
    requires Inv(c, a) && Candidate(a, batch) && Owned(a, batch[0].session, channel)
    requires BatchOk(c, a, batch) && 0 < n <= |batch|
    ensures var s := SegmentOf(c, batch[..n]); Commit(Uploaded(a, s), s, bucket, channel).Done?
  {
    var s := SegmentOf(c, batch[..n]);
    forall e | e in a.entries && e.session == s.session ensures !Overlap(e, s.first, s.last) {
      AscendingAt(batch, n - 1);
    }
    PrefixIsBatch(c, a, batch, n);
    CommitDeletesBatch(c, a, batch[..n]);
  }

  lemma NextIsBatch(c: Codec, a: Archive, channel: Name, cutoff: Time, batch: seq<ChatRow>)
    requires Inv(c, a) && batch != [] && NextBatchOf(a, channel, cutoff, MAX_SEGMENT_ROWS, batch)
    ensures BatchOk(c, a, batch)
  {
    CandidateIsBatch(c, a, batch);
  }

  lemma LosslessSelf(c: Codec, a: Archive)
    requires Inv(c, a)
    ensures Lossless(c, a, a)
  {
  }

  lemma LosslessTwice(c: Codec, a: Archive, b: Archive, d: Archive)
    requires Lossless(c, a, b) && Lossless(c, b, d)
    ensures Lossless(c, a, d)
  {
  }

  class Exporter {
    const database: PgArchive
    const minimumAge: Time

    constructor (db: PgArchive, age: Time)
      ensures database == db && minimumAge == age
    {
      database, minimumAge := db, age;
    }

    /** Halves the rows until they fit one segment. A single row that does not fit is an error. */
    static method Shrink(c: Codec, batch: seq<ChatRow>) returns (segment: Option<Segment>, ghost n: nat)
      requires Buildable(c, batch)
      ensures n <= |batch|
      ensures segment.Some? ==> 0 < n && Fits(c, batch[..n]) && segment.value == SegmentOf(c, batch[..n])
      ensures segment.None? ==> n == 1 && !Fits(c, batch[..1])
    {
      var rows := batch;
      segment, n := None, |batch|;
      assert batch[..n] == batch;
      var built := Build(c, rows);
      while built == Bad(TooLarge) && |rows| > 1
        invariant 0 < n <= |batch| && rows == batch[..n] && Buildable(c, rows)
        invariant built.Good? <==> Fits(c, rows)
        invariant built.Good? ==> built.segment == SegmentOf(c, rows)
        invariant built.Bad? ==> built == Bad(TooLarge)
        decreases |rows|
      {
        OrderlyPrefix(batch, n / 2, batch[0].session);
        rows, n := rows[..|rows| / 2], n / 2;
        built := Build(c, rows);
      }
      if built.Good? { segment := Some(built.segment); }
    }

    /** Moves at most one segment of the next batch. Whatever fails, every session's log stays as it was. */
    method RunOnce(now: Time, bucket: Name, stores: bool) returns (moved: bool, batch: seq<ChatRow>)
      requires Lawful(database.codec) && Inv(database.codec, database.View())
      modifies database
      ensures NextBatchOf(old(database.View()), database.channel, now - minimumAge, MAX_SEGMENT_ROWS, batch)
      ensures Lossless(database.codec, old(database.View()), database.View())
      ensures moved ==> Indexed(database.codec, database.View(), batch, bucket) && stores && bucket.text != ""
      ensures !moved ==>
                || batch == [] || !stores || bucket.text == "" || !Fits(database.codec, batch[..1])
      ensures !moved ==> database.View() == old(database.View()).(objects := database.objects)
    {
      ghost var a := database.View();
      var found := database.NextBatch(now - minimumAge, MAX_SEGMENT_ROWS);
      batch, moved := found.value, false;
      assert database.View() == a && NextBatchOf(a, database.channel, now - minimumAge, MAX_SEGMENT_ROWS, batch);
      if batch != [] {
        NextIsBatch(database.codec, a, database.channel, now - minimumAge, batch);
        moved := Move(batch, bucket, stores);
      } else {
        LosslessSelf(database.codec, a);
      }
    }

    /** Uploads the segment and only then commits it. */
    method Move(batch: seq<ChatRow>, bucket: Name, stores: bool) returns (moved: bool)
      requires Lawful(database.codec) && Inv(database.codec, database.View())
      requires BatchOk(database.codec, database.View(), batch) && Candidate(database.View(), batch)
      requires Owned(database.View(), batch[0].session, database.channel)
      modifies database
      ensures Lossless(database.codec, old(database.View()), database.View())
      ensures moved ==> Indexed(database.codec, database.View(), batch, bucket) && stores && bucket.text != ""
      ensures !moved ==> !stores || bucket.text == "" || !Fits(database.codec, batch[..1])
      ensures !moved ==> database.View() == old(database.View()).(objects := database.objects)
    {
      LosslessSelf(database.codec, database.View());
      var segment, n := Shrink(database.codec, batch);
      if segment.None? { return false; }
      ExportRound(database.codec, database.View(), batch, n, database.channel, bucket);
      FreshBatchCommits(database.codec, database.View(), batch, n, database.channel, bucket);
      var ok := database.PutVerified(segment.value, stores);
      if !ok { return false; }
      InvDisjoint(database.codec, database.View());
      var error := database.CommitSegment(segment.value, bucket);
      moved := error.None?;
    }
  }
}
