/** One log per session: the hot rows together with the rows of the indexed segments. Appending adds
    one row at its end, exporting changes nothing. */
module ArchiveLog {
  import opened JournalTypes
  import opened Segments
  import opened ArchiveState

  function RowsOf(c: Codec, objects: map<ObjectKey, Bytes>, e: Entry): seq<ChatRow> {
    if e.key in objects && Contents(c, objects[e.key]).Some? then Contents(c, objects[e.key]).value else []
  }

  predicate IsHot(a: Archive, session: Name, r: ChatRow) {
    r.position in a.hot && a.hot[r.position] == r && r.session == session
  }

  ghost predicate IsIndexed(c: Codec, a: Archive, session: Name, r: ChatRow) {
    exists e :: e in a.entries && e.session == session && r in RowsOf(c, a.objects, e)
  }

  /** The row belongs to the session's log. */
  ghost predicate InLog(c: Codec, a: Archive, session: Name, r: ChatRow) {
    IsHot(a, session, r) || IsIndexed(c, a, session, r)
  }

  /** `log` is the session's log, in position order. */
  ghost predicate IsLog(c: Codec, a: Archive, session: Name, log: seq<ChatRow>) {
    Ascending(log) && forall r :: r in log <==> InLog(c, a, session, r)
  }

  // ---- What every transaction keeps ----

  predicate Recorded(a: Archive, r: ChatRow) {
    EventKey(r.session, r.event) in a.eventIds && a.eventIds[EventKey(r.session, r.event)] == r.position
  }

  ghost predicate HotOk(c: Codec, a: Archive, p: int)
    requires p in a.hot
  {
    var r := a.hot[p];
    r.position == p && 1 <= p <= a.sequence && c.isUuid(r.session) && RowFits(r, r.session) && Recorded(a, r)
  }

  function SegmentFor(objects: map<ObjectKey, Bytes>, e: Entry): Segment
    requires e.key in objects
  {
    Segment(objects[e.key], e.sha, e.session, e.first, e.last, e.count)
  }

  ghost predicate EntryOk(c: Codec, a: Archive, e: Entry) {
    && e.key == ObjectKey(e.session, e.first, e.last, e.sha) && e.key in a.objects && e.last <= a.sequence
    && Sound(c, SegmentFor(a.objects, e))
    && forall r :: r in RowsOf(c, a.objects, e) ==> Recorded(a, r)
  }

  ghost predicate IdsOk(a: Archive) {
    && (forall k :: k in a.eventIds ==> 1 <= a.eventIds[k] <= a.sequence)
    && (forall j, k :: j in a.eventIds && k in a.eventIds && a.eventIds[j] == a.eventIds[k] ==> j == k)
  }

  /** Segment ranges of a session are disjoint and hold no hot row of it. */
  ghost predicate RangesOk(a: Archive) {
    && (forall e, f :: e in a.entries && f in a.entries && e.session == f.session && e != f ==>
          !Overlap(e, f.first, f.last))
    && (forall e, p :: e in a.entries && p in a.hot && a.hot[p].session == e.session ==> !InRange(e, p))
  }

  ghost predicate HotRowsOk(c: Codec, a: Archive) { forall p :: p in a.hot ==> HotOk(c, a, p) }

  ghost predicate EntriesOk(c: Codec, a: Archive) { forall e :: e in a.entries ==> EntryOk(c, a, e) }

  ghost predicate Inv(c: Codec, a: Archive) {
    && HotRowsOk(c, a) && EntriesOk(c, a) && IdsOk(a) && RangesOk(a)
    && (forall k :: k in a.sessions ==> c.isUuid(a.sessions[k]))
  }

  /** A log row has a unique event ID and position, and an indexed row lies in its entry's range. */
  lemma LogRowOk(c: Codec, a: Archive, session: Name, r: ChatRow)
    requires Inv(c, a) && InLog(c, a, session, r)
    ensures r.session == session && 1 <= r.position <= a.sequence && Recorded(a, r) && RowFits(r, session)
  {
    if IsHot(a, session, r) {
      assert HotOk(c, a, r.position);
    } else {
      var e :| e in a.entries && e.session == session && r in RowsOf(c, a.objects, e);
      IndexedRow(c, a, e, r);
    }
  }

  lemma IndexedRow(c: Codec, a: Archive, e: Entry, r: ChatRow)
    requires EntryOk(c, a, e) && r in RowsOf(c, a.objects, e)
    ensures InRange(e, r.position) && r.session == e.session && RowFits(r, e.session) && Recorded(a, r)
  {
    var rows := RowsOf(c, a.objects, e);
    assert Describes(SegmentFor(a.objects, e), rows);
    var i :| 0 <= i < |rows| && rows[i] == r;
    assert RowFits(rows[i], e.session);
    assert i > 0 ==> rows[0].position < rows[i].position;
    assert i < |rows| - 1 ==> rows[i].position < rows[|rows| - 1].position;
  }

  /** Two rows of a log with the same position, or the same event, are the same row. */
  lemma LogRowsDiffer(c: Codec, a: Archive, session: Name, q: ChatRow, r: ChatRow)
    requires Inv(c, a) && InLog(c, a, session, q) && InLog(c, a, session, r)
    requires q.position == r.position || q.event == r.event
    ensures q == r
  {
    LogRowOk(c, a, session, q);
    LogRowOk(c, a, session, r);
    assert q.position == r.position;
    if IsHot(a, session, q) {
      HotRowIsNotIndexed(c, a, session, q, r);
    } else if IsHot(a, session, r) {
      HotRowIsNotIndexed(c, a, session, r, q);
    } else {
      IndexedRowsDiffer(c, a, session, q, r);
    }
  }

  lemma HotRowIsNotIndexed(c: Codec, a: Archive, session: Name, q: ChatRow, r: ChatRow)
    requires Inv(c, a) && IsHot(a, session, q) && q.position == r.position
    ensures !IsIndexed(c, a, session, r)
  {
    forall e | e in a.entries && e.session == session ensures r !in RowsOf(c, a.objects, e) {
      assert EntryOk(c, a, e) && !InRange(e, q.position);
      if r in RowsOf(c, a.objects, e) { IndexedRow(c, a, e, r); }
    }
  }

  lemma IndexedRowsDiffer(c: Codec, a: Archive, session: Name, q: ChatRow, r: ChatRow)
    requires Inv(c, a) && IsIndexed(c, a, session, q) && IsIndexed(c, a, session, r) && q.position == r.position
    ensures q == r
  {
    var e :| e in a.entries && e.session == session && q in RowsOf(c, a.objects, e);
    var f :| f in a.entries && f.session == session && r in RowsOf(c, a.objects, f);
    IndexedRow(c, a, e, q);
    IndexedRow(c, a, f, r);
    assert !Overlap(e, f.first, f.last) || e == f;
    assert Describes(SegmentFor(a.objects, e), RowsOf(c, a.objects, e));
    AscendingSame(RowsOf(c, a.objects, e), q, r);
  }

  lemma AscendingSame(rows: seq<ChatRow>, q: ChatRow, r: ChatRow)
    requires Ascending(rows) && q in rows && r in rows && q.position == r.position
    ensures q == r
  {
    var i :| 0 <= i < |rows| && rows[i] == q;
    var j :| 0 <= j < |rows| && rows[j] == r;
    assert !(i < j) && !(j < i);
  }

  /** A session has exactly one log: the state determines it. */
  lemma LogIsUnique(c: Codec, a: Archive, session: Name, l: seq<ChatRow>, m: seq<ChatRow>)
    requires IsLog(c, a, session, l) && IsLog(c, a, session, m)
    ensures l == m
  {
    SameMembers(l, m);
  }

  lemma SameMembers(l: seq<ChatRow>, m: seq<ChatRow>)
    requires Ascending(l) && Ascending(m) && forall r :: r in l <==> r in m
    ensures l == m
  {
    if |l| >= |m| {
      AscendingUnique(l, m);
    } else {
      AscendingUnique(m, l);
    }
  }

  lemma AscendingAt(l: seq<ChatRow>, i: nat)
    requires Ascending(l) && i < |l|
    ensures l[i].position <= l[|l| - 1].position && (l[i].position == l[|l| - 1].position ==> i == |l| - 1)
  {
  }

  lemma {:induction false} AscendingUnique(l: seq<ChatRow>, m: seq<ChatRow>)
    requires Ascending(l) && Ascending(m) && |l| >= |m| && forall r :: r in l <==> r in m
    ensures l == m
    decreases |l|
  {
    if l == [] {
      assert m == [];
    } else {
      assert l[|l| - 1] in m;
      SameLast(l, m);
      var l', m' := l[..|l| - 1], m[..|m| - 1];
      forall r ensures r in l' <==> r in m' {
        ButLast(l, r);
        ButLast(m, r);
      }
      AscendingUnique(l', m');
      assert l == l' + [l[|l| - 1]] && m == m' + [m[|m| - 1]];
    }
  }

  lemma SameLast(l: seq<ChatRow>, m: seq<ChatRow>)
    requires Ascending(l) && Ascending(m) && l != [] && m != [] && forall r :: r in l <==> r in m
    ensures l[|l| - 1] == m[|m| - 1]
  {
    assert l[|l| - 1] in m;
    var i :| 0 <= i < |m| && m[i] == l[|l| - 1];
    assert m[|m| - 1] in l;
    var j :| 0 <= j < |l| && l[j] == m[|m| - 1];
    AscendingAt(m, i);
    AscendingAt(l, j);
  }

  lemma ButLast(l: seq<ChatRow>, r: ChatRow)
    requires l != [] && Ascending(l)
    ensures r in l[..|l| - 1] <==> r in l && r != l[|l| - 1]
  {
    var last := l[|l| - 1];
    assert forall i :: 0 <= i < |l| - 1 ==> l[i].position < last.position;
  }
}
