/** Every transaction of the archive keeps its invariant. Appending extends one session's log at its
    end; exporting, with any number of stale batches, leaves every log as it was. */
module ArchiveExport {
  import opened JournalTypes
  import opened Segments
  import opened ArchiveState
  import opened ArchiveLog

  // ---- Appending ----

  /** `b` has the rows of `a`, and possibly one more at a position that is new. */
  ghost predicate Extends(c: Codec, a: Archive, b: Archive, added: Option<ChatRow>) {
    && a.sequence <= b.sequence
    && (added.Some? ==> a.sequence < added.value.position <= b.sequence
                        && EventKey(added.value.session, added.value.event) !in a.eventIds)
    && (forall session, r :: InLog(c, b, session, r) <==>
                             InLog(c, a, session, r) || (added == Some(r) && r.session == session))
  }

  function Added(a: Archive, source: SourceKey, r: Chat, newId: Name): Option<ChatRow> {
    var session := SessionFor(a, source, newId);
    if EventKey(session, r.event) in a.eventIds then None else Some(RowFor(r, session, a.sequence + 1))
  }

  lemma SameRows(c: Codec, a: Archive, b: Archive)
    requires b.entries == a.entries && b.objects == a.objects
    ensures forall session, r :: IsIndexed(c, b, session, r) <==> IsIndexed(c, a, session, r)
  {
    forall session, r ensures IsIndexed(c, b, session, r) <==> IsIndexed(c, a, session, r) {
      if IsIndexed(c, b, session, r) {
        var e :| e in b.entries && e.session == session && r in RowsOf(c, b.objects, e);
        assert e in a.entries;
      }
      if IsIndexed(c, a, session, r) {
        var e :| e in a.entries && e.session == session && r in RowsOf(c, a.objects, e);
        assert e in b.entries;
      }
    }
  }

  lemma AppendToExtends(c: Codec, a: Archive, source: SourceKey, r: Chat, newId: Name)
    requires Inv(c, a)
    ensures Extends(c, a, AppendTo(a, source, r, newId), Added(a, source, r, newId))
  {
    var b := AppendTo(a, source, r, newId);
    var added := Added(a, source, r, newId);
    SameRows(c, a, b);
    forall session, q
      ensures IsHot(b, session, q) <==> IsHot(a, session, q) || (added == Some(q) && q.session == session)
    {
      if q.position in a.hot { assert HotOk(c, a, q.position); }
    }
  }

  lemma EntryStays(c: Codec, a: Archive, b: Archive, e: Entry)
    requires EntryOk(c, a, e) && e.key in b.objects && b.objects[e.key] == a.objects[e.key]
    requires a.sequence <= b.sequence
    requires forall k :: k in a.eventIds ==> k in b.eventIds && b.eventIds[k] == a.eventIds[k]
    ensures EntryOk(c, b, e) && RowsOf(c, b.objects, e) == RowsOf(c, a.objects, e)
  {
    forall q | q in RowsOf(c, a.objects, e) ensures Recorded(b, q) { assert Recorded(a, q); }
  }

  lemma HotStays(c: Codec, a: Archive, b: Archive, p: int)
    requires p in a.hot && HotOk(c, a, p) && p in b.hot && b.hot[p] == a.hot[p]
    requires a.sequence <= b.sequence
    requires forall k :: k in a.eventIds ==> k in b.eventIds && b.eventIds[k] == a.eventIds[k]
    ensures HotOk(c, b, p)
  {
  }

  lemma AppendToKeepsInv(c: Codec, a: Archive, source: SourceKey, r: Chat, newId: Name)
    requires Inv(c, a) && Acceptable(c, r) && c.isUuid(newId)
    ensures Inv(c, AppendTo(a, source, r, newId))
  {
    var b := AppendTo(a, source, r, newId);
    AppendToKeepsHot(c, a, source, r, newId);
    AllEntriesStay(c, a, b);
    AppendToKeepsRanges(c, a, source, r, newId);
  }

  lemma AppendToKeepsHot(c: Codec, a: Archive, source: SourceKey, r: Chat, newId: Name)
    requires Inv(c, a) && Acceptable(c, r) && c.isUuid(newId)
    ensures HotRowsOk(c, AppendTo(a, source, r, newId))
  {
    var b := AppendTo(a, source, r, newId);
    forall p | p in b.hot ensures HotOk(c, b, p) {
      if p in a.hot { HotStays(c, a, b, p); } else { NewHotOk(c, a, source, r, newId); }
    }
  }

  lemma AllEntriesStay(c: Codec, a: Archive, b: Archive)
    requires EntriesOk(c, a) && b.entries == a.entries && b.objects == a.objects
    requires a.sequence <= b.sequence
    requires forall k :: k in a.eventIds ==> k in b.eventIds && b.eventIds[k] == a.eventIds[k]
    ensures EntriesOk(c, b)
  {
    forall e | e in b.entries ensures EntryOk(c, b, e) { EntryStays(c, a, b, e); }
  }

  lemma NewHotOk(c: Codec, a: Archive, source: SourceKey, r: Chat, newId: Name)
    requires Inv(c, a) && Acceptable(c, r) && c.isUuid(newId)
    ensures var b, p := AppendTo(a, source, r, newId), a.sequence + 1;
            p in b.hot ==> HotOk(c, b, p)
  {
    var b, p := AppendTo(a, source, r, newId), a.sequence + 1;
    assert forall q :: q in a.hot ==> HotOk(c, a, q) && q < p;
  }

  lemma AppendToKeepsRanges(c: Codec, a: Archive, source: SourceKey, r: Chat, newId: Name)
    requires Inv(c, a)
    ensures IdsOk(AppendTo(a, source, r, newId)) && RangesOk(AppendTo(a, source, r, newId))
  {
    var b := AppendTo(a, source, r, newId);
    forall e, p | e in b.entries && p in b.hot && b.hot[p].session == e.session ensures !InRange(e, p) {
      assert EntryOk(c, a, e);
      if p in a.hot { assert HotOk(c, a, p); }
    }
  }

  /** Appending keeps the invariant and adds at most one row, at the end. */
  lemma AppendKeeps(c: Codec, a: Archive, sources: set<Source>, r: Chat, newId: Name) returns (added: Option<ChatRow>)
    requires Inv(c, a) && Acceptable(c, r) && c.isUuid(newId)
    ensures Inv(c, AppendChat(a, sources, r, newId))
    ensures Extends(c, a, AppendChat(a, sources, r, newId), added)
  {
    if |Matching(sources, r)| == 1 {
      var source := KeyOfSource(Only(Matching(sources, r)));
      AppendToKeepsInv(c, a, source, r, newId);
      AppendToExtends(c, a, source, r, newId);
      added := Added(a, source, r, newId);
    } else {
      var b := AppendChat(a, sources, r, newId);
      added := None;
      QueueingKeeps(c, a, b);
    }
  }

  lemma QueueingKeeps(c: Codec, a: Archive, b: Archive)
    requires Inv(c, a) && a.sequence <= b.sequence && b == a.(sequence := b.sequence, unassigned := b.unassigned)
    ensures Inv(c, b) && Extends(c, a, b, None)
  {
    SameRows(c, a, b);
    forall p | p in b.hot ensures HotOk(c, b, p) { assert HotOk(c, a, p); }
    forall e | e in b.entries ensures EntryOk(c, b, e) {
      EntryStays(c, a, b, e);
    }
  }

  // ---- Batches ----

  /** Rows an exporter once took: they are all of their session's log between their ends. They may
      have been exported by someone else since. */
  ghost predicate BatchOk(c: Codec, a: Archive, rows: seq<ChatRow>) {
    && Buildable(c, rows) && LastPosition(rows) <= a.sequence
    && forall r :: r in rows <==>
                   InLog(c, a, rows[0].session, r) && rows[0].position <= r.position <= LastPosition(rows)
  }

  lemma ExtendsKeepsBatch(c: Codec, a: Archive, b: Archive, added: Option<ChatRow>, rows: seq<ChatRow>)
    requires Extends(c, a, b, added) && BatchOk(c, a, rows)
    ensures BatchOk(c, b, rows)
  {
  }

  /** The first rows of a batch are a batch. */
  lemma PrefixIsBatch(c: Codec, a: Archive, rows: seq<ChatRow>, n: nat)
    requires BatchOk(c, a, rows) && 0 < n <= |rows|
    ensures BatchOk(c, a, rows[..n])
  {
    var some := rows[..n];
    OrderlyPrefix(rows, n, rows[0].session);
    assert some[n - 1] == rows[n - 1] && some[0] == rows[0];
    forall r ensures r in some <==> r in rows && r.position <= some[n - 1].position { InPrefix(rows, n, r); }
    AscendingAt(rows, n - 1);
  }

  lemma InPrefix(rows: seq<ChatRow>, n: nat, r: ChatRow)
    requires Ascending(rows) && 0 < n <= |rows|
    ensures r in rows[..n] <==> r in rows && r.position <= rows[n - 1].position
  {
    if r in rows {
      var i :| 0 <= i < |rows| && rows[i] == r;
      if i < n { assert rows[..n][i] == r; }
    }
  }

  // ---- Uploading ----

  /** Uploading a built segment changes no stored object that an entry refers to. */
  lemma UploadKeeps(c: Codec, a: Archive, rows: seq<ChatRow>)
    requires Lawful(c) && Inv(c, a) && rows != []
    ensures Inv(c, Uploaded(a, SegmentOf(c, rows))) && Extends(c, a, Uploaded(a, SegmentOf(c, rows)), None)
  {
    var s := SegmentOf(c, rows);
    var b := Uploaded(a, s);
    forall e | e in a.entries ensures EntryOk(c, b, e) && RowsOf(c, b.objects, e) == RowsOf(c, a.objects, e) {
      assert EntryOk(c, a, e);
      assert e.key == KeyOf(s) ==> a.objects[e.key] == s.body;
      EntryStays(c, a, b, e);
    }
    forall p | p in b.hot ensures HotOk(c, b, p) { assert HotOk(c, a, p); }
    forall session, r ensures IsIndexed(c, b, session, r) <==> IsIndexed(c, a, session, r) { }
  }

  ghost predicate Stored(c: Codec, a: Archive, rows: seq<ChatRow>)
    requires rows != []
  {
    var s := SegmentOf(c, rows);
    KeyOf(s) in a.objects && a.objects[KeyOf(s)] == s.body
  }

  // ---- Committing ----

  /** No entry overlaps the segment's range. */
  predicate Free(a: Archive, s: Segment) {
    !exists e :: e in a.entries && e.session == s.session && Overlap(e, s.first, s.last)
  }

  lemma BatchRowIsHot(c: Codec, a: Archive, rows: seq<ChatRow>, r: ChatRow)
    requires Inv(c, a) && BatchOk(c, a, rows) && Free(a, SegmentOf(c, rows))
    ensures r in rows <==> IsHot(a, rows[0].session, r) && rows[0].position <= r.position <= LastPosition(rows)
  {
    if r in rows && !IsHot(a, rows[0].session, r) {
      var e :| e in a.entries && e.session == rows[0].session && r in RowsOf(c, a.objects, e);
      IndexedRow(c, a, e, r);
      assert Overlap(e, rows[0].position, LastPosition(rows));
      assert false;
    }
  }

  function Positions(rows: seq<ChatRow>): set<int> {
    set r | r in rows :: r.position
  }

  lemma {:induction false} CountPositions(rows: seq<ChatRow>)
    requires Ascending(rows)
    ensures |Positions(rows)| == |rows|
    decreases |rows|
  {
    if rows != [] {
      var last, rest := rows[|rows| - 1], rows[..|rows| - 1];
      CountPositions(rest);
      forall r ensures r in rows <==> r in rest || r == last { ButLast(rows, r); }
      assert last.position !in Positions(rest);
      assert Positions(rows) == Positions(rest) + {last.position} by {
        forall p ensures p in Positions(rows) <==> p in Positions(rest) + {last.position} { }
      }
    }
  }

  /** What a commit deletes is exactly the batch: the row count cannot have changed. */
  lemma CommitDeletesBatch(c: Codec, a: Archive, rows: seq<ChatRow>)
    requires Inv(c, a) && BatchOk(c, a, rows) && Free(a, SegmentOf(c, rows))
    ensures |a.hot| - |Kept(a.hot, rows[0].session, rows[0].position, LastPosition(rows))| == |rows|
  {
    var kept := Kept(a.hot, rows[0].session, rows[0].position, LastPosition(rows));
    forall p ensures p in Positions(rows) <==> p in a.hot.Keys - kept.Keys { Deleted(c, a, rows, p); }
    assert Positions(rows) == a.hot.Keys - kept.Keys;
    CountPositions(rows);
    assert kept.Keys <= a.hot.Keys;
    assert |a.hot.Keys| == |a.hot.Keys - kept.Keys| + |kept.Keys|;
  }

  lemma Deleted(c: Codec, a: Archive, rows: seq<ChatRow>, p: int)
    requires Inv(c, a) && BatchOk(c, a, rows) && Free(a, SegmentOf(c, rows))
    ensures p in Positions(rows) <==>
            p in a.hot && a.hot[p].session == rows[0].session && rows[0].position <= p <= LastPosition(rows)
  {
    if p in a.hot {
      assert HotOk(c, a, p);
      BatchRowIsHot(c, a, rows, a.hot[p]);
    }
    forall r | r in rows && r.position == p ensures p in a.hot && a.hot[p] == r { BatchRowIsHot(c, a, rows, r); }
  }

  function Committing(c: Codec, a: Archive, rows: seq<ChatRow>, bucket: Name): Archive
    requires rows != []
  {
    var s := SegmentOf(c, rows);
    a.(entries := a.entries + {EntryOf(s, bucket)}, hot := Kept(a.hot, s.session, s.first, s.last))
  }

  lemma CommittingKeepsInv(c: Codec, a: Archive, rows: seq<ChatRow>, bucket: Name)
    requires Lawful(c) && Inv(c, a) && BatchOk(c, a, rows) && Fits(c, rows) && Stored(c, a, rows)
    requires Free(a, SegmentOf(c, rows))
    ensures Inv(c, Committing(c, a, rows, bucket))
    ensures RowsOf(c, a.objects, EntryOf(SegmentOf(c, rows), bucket)) == rows
  {
    var b, e := Committing(c, a, rows, bucket), EntryOf(SegmentOf(c, rows), bucket);
    CommittedEntry(c, a, rows, bucket);
    var indexed := a.(entries := a.entries + {e});
    EntryStays(c, a, indexed, e);
    forall f | f in a.entries ensures EntryOk(c, indexed, f) { EntryStays(c, a, indexed, f); }
    AllEntriesStay(c, indexed, b);
    assert HotRowsOk(c, b) by {
      forall p | p in b.hot ensures HotOk(c, b, p) { HotStays(c, a, b, p); }
    }
    CommittingKeepsRanges(c, a, rows, bucket);
  }

  lemma CommittedEntry(c: Codec, a: Archive, rows: seq<ChatRow>, bucket: Name)
    requires Lawful(c) && Inv(c, a) && BatchOk(c, a, rows) && Fits(c, rows) && Stored(c, a, rows)
    ensures var e := EntryOf(SegmentOf(c, rows), bucket); EntryOk(c, a, e) && RowsOf(c, a.objects, e) == rows
  {
    var s := SegmentOf(c, rows);
    BuiltDecodes(c, rows);
    assert SegmentFor(a.objects, EntryOf(s, bucket)) == s;
    forall r | r in rows ensures Recorded(a, r) { LogRowOk(c, a, rows[0].session, r); }
  }

  lemma CommittingKeepsRanges(c: Codec, a: Archive, rows: seq<ChatRow>, bucket: Name)
    requires Inv(c, a) && rows != [] && Free(a, SegmentOf(c, rows))
    ensures RangesOk(Committing(c, a, rows, bucket))
  {
    var s := SegmentOf(c, rows);
    var b, e := Committing(c, a, rows, bucket), EntryOf(s, bucket);
    forall f | f in a.entries && f.session == e.session
      ensures !Overlap(e, f.first, f.last) && !Overlap(f, e.first, e.last)
    {
    }
  }

  lemma CommittingKeepsLog(c: Codec, a: Archive, rows: seq<ChatRow>, bucket: Name)
    requires Inv(c, a) && BatchOk(c, a, rows) && Free(a, SegmentOf(c, rows))
    requires RowsOf(c, a.objects, EntryOf(SegmentOf(c, rows), bucket)) == rows
    ensures Extends(c, a, Committing(c, a, rows, bucket), None)
  {
    var b, e := Committing(c, a, rows, bucket), EntryOf(SegmentOf(c, rows), bucket);
    forall session, r ensures InLog(c, b, session, r) <==> InLog(c, a, session, r) {
      BatchRowIsHot(c, a, rows, r);
      IndexGrows(c, a, b, e, session, r);
    }
  }

  lemma IndexGrows(c: Codec, a: Archive, b: Archive, e: Entry, session: Name, r: ChatRow)
    requires b.entries == a.entries + {e} && b.objects == a.objects
    ensures IsIndexed(c, b, session, r) <==>
            IsIndexed(c, a, session, r) || (e.session == session && r in RowsOf(c, a.objects, e))
  {
    if IsIndexed(c, a, session, r) {
      var f :| f in a.entries && f.session == session && r in RowsOf(c, a.objects, f);
      assert f in b.entries;
    }
    assert e in b.entries;
  }

  /** How a commit of a batch ends: refused exactly for a foreign session or an overlap with another
      segment, and otherwise done, once. */
  lemma CommitOutcome(c: Codec, a: Archive, rows: seq<ChatRow>, bucket: Name, channel: Name)
    requires Inv(c, a) && BatchOk(c, a, rows)
    ensures var s := SegmentOf(c, rows);
            var r := Commit(a, s, bucket, channel);
            if !Owned(a, rows[0].session, channel) then r == Failed(NotOwned)
            else if EntryOf(s, bucket) in a.entries then r == Done(a)
            else if !Free(a, s) then r == Failed(Overlapping)
            else r == Done(Committing(c, a, rows, bucket))
  {
    if Free(a, SegmentOf(c, rows)) { CommitDeletesBatch(c, a, rows); }
  }

  /** Committing a stored batch, however stale: it fails or succeeds as a whole, never because the
      hot rows changed, and leaves the log as it was. */
  lemma CommitKeeps(c: Codec, a: Archive, rows: seq<ChatRow>, bucket: Name, channel: Name)
    requires Lawful(c) && Inv(c, a) && BatchOk(c, a, rows) && Fits(c, rows) && Stored(c, a, rows)
    ensures var r := Commit(a, SegmentOf(c, rows), bucket, channel);
            && r != Failed(CountChanged)
            && (r.Done? ==> Inv(c, r.archive) && Extends(c, a, r.archive, None))
  {
    CommitOutcome(c, a, rows, bucket, channel);
    var r := Commit(a, SegmentOf(c, rows), bucket, channel);
    if r.Done? {
      if r.archive == a {
        QueueingKeeps(c, a, a);
      } else {
        CommittingKeepsInv(c, a, rows, bucket);
        CommittingKeepsLog(c, a, rows, bucket);
      }
    }
  }
}
