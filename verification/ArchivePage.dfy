/** Reading a page: a bounded merge of segments and hot rows that agrees with the session's log. */
module ArchivePage {
  import opened JournalTypes
  import opened Segments
  import opened ArchiveState
  import opened ArchiveLog
  import opened ArchiveExport
  import opened Least

  const OBJECTS_PER_PAGE: nat := 4

  datatype PageError =
    | InvalidRequest | NoSession | OtherBucket | KeyMismatch | Unavailable | Undecodable | HotOverlap | Twice
  datatype PageResult = Page(rows: seq<ChatRow>, next: Option<int>, hasMore: bool) | NoPage(error: PageError)

  /** `rows` are the session's log strictly between two positions. */
  ghost predicate Between(c: Codec, a: Archive, session: Name, after: int, upto: int, rows: seq<ChatRow>) {
    Ascending(rows) && forall r :: r in rows <==> InLog(c, a, session, r) && after < r.position < upto
  }

  ghost predicate NoneIn(c: Codec, a: Archive, session: Name, from: int, upto: int) {
    forall r :: InLog(c, a, session, r) ==> !(from <= r.position < upto)
  }

  /** The page holds the next rows of the log after the cursor; more remain exactly if it says so, and
      then it is not empty and its cursor is its last position. */
  ghost predicate PageOf(c: Codec, a: Archive, session: Name, after: int, limit: nat, page: PageResult)
    requires page.Page?
  {
    var last := if page.rows == [] then after else LastPosition(page.rows);
    && |page.rows| <= limit && Between(c, a, session, after, last + 1, page.rows)
    && (page.hasMore <==> exists r :: InLog(c, a, session, r) && r.position > last)
    && (page.hasMore ==> page.rows != [])
    && page.next == if page.hasMore then Some(last) else None
  }

  // ---- The two queries ----

  predicate Increasing(s: seq<int>) { forall i, j :: 0 <= i < j < |s| ==> s[i] < s[j] }

  /** The keys in order, cut at the limit. */
  method LeastKeys(keys: set<int>, limit: nat) returns (first: seq<int>)
    ensures Increasing(first) && |first| <= limit && (forall i :: 0 <= i < |first| ==> first[i] in keys)
    ensures forall k :: k in keys ==> k in first || (|first| == limit && forall i :: 0 <= i < |first| ==> first[i] < k)
  {
    first := [];
    var rest := keys;
    while rest != {} && |first| < limit
      invariant rest <= keys && |first| <= limit && Increasing(first)
      invariant forall i :: 0 <= i < |first| ==> first[i] in keys
      invariant forall k :: k in keys ==> k in first || k in rest
      invariant forall i, k :: 0 <= i < |first| && k in rest ==> first[i] < k
      decreases limit - |first|
    {
      ghost var lowest := LeastElement(rest);
      var least :| least in rest && forall y :: y in rest ==> least <= y;
      first, rest := first + [least], rest - {least};
    }
  }

  /** What a reader sees: the first segments and hot rows after the cursor. Only rows below the edge
      are merged; when it is not the end of the log, a further segment starts there. */
  datatype Window = Window(session: Name, after: int, limit: nat, segments: seq<Entry>, hot: seq<ChatRow>, edge: int)

  predicate Wanted(a: Archive, w: Window, e: Entry) { e in a.entries && e.session == w.session && e.last > w.after }

  ghost predicate SegmentsSelected(a: Archive, w: Window) {
    && (forall i :: 0 <= i < |w.segments| ==>
          Wanted(a, w, w.segments[i]) && w.segments[i].first <= w.segments[i].last < w.edge)
    && InFirstOrder(w.segments)
    && (forall e :: Wanted(a, w, e) && e.first < w.edge ==> e in w.segments)
  }

  ghost predicate HotSelected(a: Archive, w: Window) {
    && Ascending(w.hot) && |w.hot| <= w.limit + 1
    && (forall i :: 0 <= i < |w.hot| ==> IsHot(a, w.session, w.hot[i]) && w.after < w.hot[i].position < w.edge)
    && (forall r :: IsHot(a, w.session, r) && w.after < r.position < w.edge ==>
                    r in w.hot || (|w.hot| == w.limit + 1 && r.position > LastPosition(w.hot)))
  }

  ghost predicate Selected(a: Archive, w: Window) { SegmentsSelected(a, w) && HotSelected(a, w) }

  lemma FirstsDiffer(c: Codec, a: Archive, e: Entry, f: Entry)
    requires Inv(c, a) && e in a.entries && f in a.entries && e.session == f.session && e.first == f.first
    ensures e == f
  {
    assert EntryOk(c, a, e) && EntryOk(c, a, f);
    assert Overlap(e, f.first, f.last);
  }

  /** Without a boundary the page may reach the end of the log. */
  function Edge(a: Archive, after: int, boundary: Option<int>): int {
    if boundary.Some? then boundary.value else if after > a.sequence then after + 1 else a.sequence + 1
  }

  predicate StartsAt(a: Archive, session: Name, after: int, position: int) {
    exists e :: e in a.entries && e.session == session && e.first == position && e.last > after
  }

  /** The segments in order of their first position, and the first position beyond them, if any. */
  method SelectSegments(ghost c: Codec, a: Archive, session: Name, after: int)
    returns (segments: seq<Entry>, boundary: Option<int>)
    requires Inv(c, a)
    ensures |segments| <= OBJECTS_PER_PAGE
    ensures SegmentsSelected(a, Window(session, after, 0, segments, [], Edge(a, after, boundary)))
    ensures boundary.Some? ==> |segments| == OBJECTS_PER_PAGE && StartsAt(a, session, after, boundary.value)
    ensures forall e :: e in a.entries ==> e.first <= a.sequence
  {
    var wanted := set e | e in a.entries && e.session == session && e.last > after;
    segments := InOrder(c, a, session, wanted, OBJECTS_PER_PAGE + 1);
    forall e | e in a.entries ensures e.first <= e.last < a.sequence + 1 { assert EntryOk(c, a, e); }
    boundary := None;
    if |segments| > OBJECTS_PER_PAGE {
      CutAtBoundary(c, a, session, after, wanted, segments, OBJECTS_PER_PAGE);
      assert segments[OBJECTS_PER_PAGE] in wanted;
      boundary := Some(segments[OBJECTS_PER_PAGE].first);
      segments := segments[..OBJECTS_PER_PAGE];
    }
  }

  lemma CutAtBoundary(c: Codec, a: Archive, session: Name, after: int, wanted: set<Entry>, segments: seq<Entry>, n: nat)
    requires Inv(c, a) && InFirstOrder(segments) && |segments| == n + 1
    requires forall e :: e in wanted <==> e in a.entries && e.session == session && e.last > after
    requires forall i :: 0 <= i < |segments| ==> segments[i] in wanted
    requires forall e :: e in wanted ==> e in segments || segments[n].first < e.first
    ensures SegmentsSelected(a, Window(session, after, 0, segments[..n], [], segments[n].first))
  {
    EndsBefore(c, a, session, segments, n);
    BelowBoundary(segments, n);
    forall i | 0 <= i < n ensures segments[i].first <= segments[i].last { assert EntryOk(c, a, segments[i]); }
    var w := Window(session, after, 0, segments[..n], [], segments[n].first);
    forall e | Wanted(a, w, e) && e.first < w.edge ensures e in w.segments { assert e in wanted; }
  }

  function Firsts(entries: set<Entry>): set<int> { set e | e in entries :: e.first }

  predicate InFirstOrder(segments: seq<Entry>) {
    forall i, j :: 0 <= i < j < |segments| ==> segments[i].first < segments[j].first
  }

  /** Entries of one session ordered by their first position, cut at the limit. */
  method InOrder(ghost c: Codec, ghost a: Archive, ghost session: Name, wanted: set<Entry>, limit: nat)
    returns (segments: seq<Entry>)
    requires Inv(c, a) && wanted <= a.entries && forall e :: e in wanted ==> e.session == session
    ensures InFirstOrder(segments) && |segments| <= limit && forall i :: 0 <= i < |segments| ==> segments[i] in wanted
    ensures forall e :: e in wanted ==>
              e in segments || (|segments| == limit && forall i :: 0 <= i < |segments| ==> segments[i].first < e.first)
  {
    var firsts := LeastKeys(Firsts(wanted), limit);
    segments := EntriesAt(wanted, firsts);
    EachIsListed(c, a, session, wanted, firsts, segments);
    forall e | e in wanted ensures e.first in Firsts(wanted) { }
  }

  method EntriesAt(wanted: set<Entry>, firsts: seq<int>) returns (segments: seq<Entry>)
    requires forall i :: 0 <= i < |firsts| ==> firsts[i] in Firsts(wanted)
    ensures |segments| == |firsts|
    ensures forall i :: 0 <= i < |firsts| ==> segments[i] in wanted && segments[i].first == firsts[i]
  {
    segments := [];
    var i := 0;
    while i < |firsts|
      invariant 0 <= i <= |firsts| && |segments| == i
      invariant forall j :: 0 <= j < i ==> segments[j] in wanted && segments[j].first == firsts[j]
    {
      assert firsts[i] in Firsts(wanted);
      var e :| e in wanted && e.first == firsts[i];
      segments, i := segments + [e], i + 1;
    }
  }

  lemma EachIsListed(c: Codec, a: Archive, session: Name, wanted: set<Entry>, firsts: seq<int>, segments: seq<Entry>)
    requires Inv(c, a) && wanted <= a.entries && |segments| == |firsts|
    requires forall e :: e in wanted ==> e.session == session
    requires forall j :: 0 <= j < |firsts| ==> segments[j] in wanted && segments[j].first == firsts[j]
    ensures forall e :: e in wanted && e.first in firsts ==> e in segments
  {
    forall e | e in wanted && e.first in firsts ensures e in segments {
      var j :| 0 <= j < |firsts| && firsts[j] == e.first;
      FirstsDiffer(c, a, e, segments[j]);
    }
  }

  lemma EndsBefore(c: Codec, a: Archive, session: Name, segments: seq<Entry>, n: nat)
    requires Inv(c, a) && n < |segments| && InFirstOrder(segments)
    requires forall i :: 0 <= i < |segments| ==> segments[i] in a.entries && segments[i].session == session
    ensures forall i :: 0 <= i < n ==> segments[i].last < segments[n].first
  {
    forall i | 0 <= i < n ensures segments[i].last < segments[n].first {
      assert EntryOk(c, a, segments[i]) && EntryOk(c, a, segments[n]);
      assert !Overlap(segments[i], segments[n].first, segments[n].last);
    }
  }

  lemma BelowBoundary(segments: seq<Entry>, n: nat)
    requires n < |segments| && InFirstOrder(segments)
    ensures forall e :: e in segments && e.first < segments[n].first ==> e in segments[..n]
  {
    forall e | e in segments && e.first < segments[n].first ensures e in segments[..n] {
      var i :| 0 <= i < |segments| && segments[i] == e;
      assert i < n;
      assert segments[..n][i] == e;
    }
  }

  /** The session's hot rows after the cursor and below the boundary, one more than the page holds. */
  method SelectHot(ghost c: Codec, a: Archive, session: Name, after: int, limit: nat, boundary: Option<int>)
    returns (hot: seq<ChatRow>)
    requires Inv(c, a)
    ensures HotSelected(a, Window(session, after, limit, [], hot, Edge(a, after, boundary)))
  {
    var keys := set p | p in a.hot && a.hot[p].session == session && p > after
                        && (boundary.None? || p < boundary.value);
    var first := LeastKeys(keys, limit + 1);
    hot := RowsAt(c, a, session, first);
    forall p | p in a.hot ensures p < a.sequence + 1 { assert HotOk(c, a, p); }
    forall r | IsHot(a, session, r) && r.position in keys
      ensures r in hot || (|hot| == limit + 1 && r.position > LastPosition(hot))
    {
      HotIsListed(a, session, first, hot, r);
    }
    assert forall j :: 0 <= j < |hot| ==> hot[j].position in keys;
  }

  lemma HotIsListed(a: Archive, session: Name, first: seq<int>, hot: seq<ChatRow>, r: ChatRow)
    requires IsHot(a, session, r) && |hot| == |first|
    requires forall i :: 0 <= i < |hot| ==> IsHot(a, session, hot[i]) && hot[i].position == first[i]
    ensures r.position in first ==> r in hot
  {
    if r.position in first {
      var j :| 0 <= j < |first| && first[j] == r.position;
      assert hot[j] == r;
    }
  }

  method RowsAt(ghost c: Codec, a: Archive, ghost session: Name, positions: seq<int>) returns (rows: seq<ChatRow>)
    requires Inv(c, a) && Increasing(positions)
    requires forall i :: 0 <= i < |positions| ==> positions[i] in a.hot && a.hot[positions[i]].session == session
    ensures |rows| == |positions| && Ascending(rows)
    ensures forall i :: 0 <= i < |rows| ==> IsHot(a, session, rows[i]) && rows[i].position == positions[i]
  {
    rows := [];
    var i := 0;
    while i < |positions|
      invariant 0 <= i <= |positions| && |rows| == i
      invariant forall j :: 0 <= j < i ==> IsHot(a, session, rows[j]) && rows[j].position == positions[j]
    {
      assert HotOk(c, a, positions[i]);
      rows, i := rows + [a.hot[positions[i]]], i + 1;
    }
  }

  // ---- Merging ----

  lemma AddRow(c: Codec, a: Archive, session: Name, after: int, upto: int, rows: seq<ChatRow>, r: ChatRow)
    requires Inv(c, a) && Between(c, a, session, after, upto, rows) && InLog(c, a, session, r)
    requires after < upto <= r.position && NoneIn(c, a, session, upto, r.position)
    ensures Between(c, a, session, after, r.position + 1, rows + [r])
  {
    assert Ascending(rows + [r]) by {
      forall i | 0 <= i < |rows| ensures rows[i].position < r.position { assert rows[i] in rows; }
    }
    forall q ensures q in rows + [r] <==> InLog(c, a, session, q) && after < q.position < r.position + 1 {
      if InLog(c, a, session, q) && q.position == r.position { LogRowsDiffer(c, a, session, q, r); }
    }
  }

  lemma SkipTo(c: Codec, a: Archive, session: Name, after: int, upto: int, rows: seq<ChatRow>, more: int)
    requires Between(c, a, session, after, upto, rows) && upto <= more && NoneIn(c, a, session, upto, more)
    ensures Between(c, a, session, after, more, rows)
  {
    forall q ensures InLog(c, a, session, q) && after < q.position < more <==> q in rows { }
  }

  /** Merged so far: `h` hot rows and `i` segments are behind, all of the log before `upto` is in `rows`. */
  ghost predicate Front(c: Codec, a: Archive, w: Window, rows: seq<ChatRow>, upto: int, h: nat, i: nat) {
    && h <= |w.hot| && i <= |w.segments| && h <= |rows| <= w.limit + 1 && w.after < upto
    && Between(c, a, w.session, w.after, upto, rows)
    && (forall k :: 0 <= k < h ==> w.hot[k].position < upto)
    && (forall k :: h <= k < |w.hot| ==> w.hot[k].position >= upto)
    && (forall j :: 0 <= j < i ==> w.segments[j].last < upto)
  }

  /** Nothing of the log lies between the front and the next hot row or segment. */
  lemma NoneBefore(c: Codec, a: Archive, w: Window, rows: seq<ChatRow>, upto: int, h: nat, i: nat, x: int)
    requires Inv(c, a) && Selected(a, w) && Front(c, a, w, rows, upto, h, i) && x <= w.edge
    requires if h < |w.hot| then x <= w.hot[h].position else |rows| <= w.limit
    requires i < |w.segments| ==> x <= w.segments[i].first
    ensures NoneIn(c, a, w.session, upto, x)
  {
    forall r | InLog(c, a, w.session, r) && upto <= r.position < x ensures false {
      if IsHot(a, w.session, r) {
        HotIsPast(a, w, upto, h, r);
        assert false;
      } else {
        IndexedIsPast(c, a, w, upto, i, x, r);
        assert false;
      }
    }
  }

  lemma IndexedIsPast(c: Codec, a: Archive, w: Window, upto: int, i: nat, x: int, r: ChatRow)
    requires Inv(c, a) && SegmentsSelected(a, w) && IsIndexed(c, a, w.session, r) && w.after < r.position < x <= w.edge
    requires i <= |w.segments| && (i < |w.segments| ==> x <= w.segments[i].first)
    requires forall j :: 0 <= j < i ==> w.segments[j].last < upto
    ensures r.position < upto
  {
    var j := SegmentOfRow(c, a, w, r);
    if i < |w.segments| { StartsInOrder(w.segments, i, j); }
  }

  /** An indexed row after the cursor and below the edge lies in a selected segment. */
  lemma SegmentOfRow(c: Codec, a: Archive, w: Window, r: ChatRow) returns (j: nat)
    requires Inv(c, a) && SegmentsSelected(a, w) && IsIndexed(c, a, w.session, r) && w.after < r.position < w.edge
    ensures j < |w.segments| && InRange(w.segments[j], r.position)
  {
    var e :| e in a.entries && e.session == w.session && r in RowsOf(c, a.objects, e);
    assert EntryOk(c, a, e);
    IndexedRow(c, a, e, r);
    assert Wanted(a, w, e);
    j :| 0 <= j < |w.segments| && w.segments[j] == e;
  }

  lemma StartsInOrder(segments: seq<Entry>, i: nat, j: nat)
    requires InFirstOrder(segments) && i < |segments| && j < |segments|
    ensures i <= j ==> segments[i].first <= segments[j].first
  {
  }

  lemma HotIsPast(a: Archive, w: Window, upto: int, h: nat, r: ChatRow)
    requires HotSelected(a, w) && IsHot(a, w.session, r) && w.after < r.position < w.edge && h <= |w.hot|
    requires if h < |w.hot| then r.position < w.hot[h].position else h <= w.limit
    requires forall k :: 0 <= k < h ==> w.hot[k].position < upto
    ensures r.position < upto
  {
    if h < |w.hot| { AscendingAt(w.hot, h); }
    assert r in w.hot;
    var k :| 0 <= k < |w.hot| && w.hot[k] == r;
  }

  lemma TakeHot(c: Codec, a: Archive, w: Window, rows: seq<ChatRow>, upto: int, h: nat, i: nat)
    requires Inv(c, a) && Selected(a, w) && Front(c, a, w, rows, upto, h, i) && h < |w.hot| && |rows| <= w.limit
    requires i < |w.segments| ==> w.hot[h].position <= w.segments[i].first
    ensures Front(c, a, w, rows + [w.hot[h]], w.hot[h].position + 1, h + 1, i)
  {
    var r := w.hot[h];
    NoneBefore(c, a, w, rows, upto, h, i, r.position);
    AddRow(c, a, w.session, w.after, upto, rows, r);
  }

  lemma Advance(c: Codec, a: Archive, w: Window, rows: seq<ChatRow>, upto: int, h: nat, i: nat, x: int)
    requires Inv(c, a) && Selected(a, w) && Front(c, a, w, rows, upto, h, i) && upto <= x <= w.edge
    requires if h < |w.hot| then x <= w.hot[h].position else |rows| <= w.limit
    requires i < |w.segments| ==> x <= w.segments[i].first
    ensures Front(c, a, w, rows, x, h, i)
  {
    NoneBefore(c, a, w, rows, upto, h, i, x);
    SkipTo(c, a, w.session, w.after, upto, rows, x);
    if h < |w.hot| { HotFrom(w.hot, h); }
  }

  lemma HotFrom(hot: seq<ChatRow>, h: nat)
    requires Ascending(hot) && h < |hot|
    ensures forall k :: h <= k < |hot| ==> hot[k].position >= hot[h].position
  {
  }

  /** Appends the hot rows before a position while there is room. */
  method AppendHotBefore(ghost c: Codec, ghost a: Archive, w: Window, before: seq<ChatRow>, read: nat, position: int,
                         ghost from: int, ghost i: nat)
    returns (rows: seq<ChatRow>, h: nat, ghost upto: int)
    requires Inv(c, a) && Selected(a, w) && Front(c, a, w, before, from, read, i) && position <= w.edge
    requires i < |w.segments| ==> position <= w.segments[i].first
    ensures Front(c, a, w, rows, upto, h, i) && from <= upto
    ensures |rows| <= w.limit ==> position <= upto && (upto == position || upto == from)
    ensures |before| <= w.limit < |rows| ==> upto <= position
  {
    rows, h, upto := before, read, from;
    while h < |w.hot| && w.hot[h].position < position && |rows| <= w.limit
      invariant Front(c, a, w, rows, upto, h, i) && from <= upto
      invariant (upto <= position || (upto == from && rows == before))
    {
      TakeHot(c, a, w, rows, upto, h, i);
      rows, h, upto := rows + [w.hot[h]], h + 1, w.hot[h].position + 1;
    }
    if |rows| <= w.limit && upto <= position {
      Advance(c, a, w, rows, upto, h, i, position);
      upto := position;
    }
  }

  // ---- Segment rows ----

  /** Inside a segment's range the log is that segment. */
  lemma OnlyInSegment(c: Codec, a: Archive, e: Entry, r: ChatRow)
    requires Inv(c, a) && e in a.entries && InLog(c, a, e.session, r) && InRange(e, r.position)
    ensures r in RowsOf(c, a.objects, e)
  {
    if !IsHot(a, e.session, r) {
      var f :| f in a.entries && f.session == e.session && r in RowsOf(c, a.objects, f);
      IndexedRow(c, a, f, r);
      assert f == e || !Overlap(e, f.first, f.last);
    }
  }

  /** Within segment `i`: of its rows, the first `k` are behind the front and the others ahead of it,
      or not wanted. */
  ghost predicate Inside(c: Codec, a: Archive, w: Window, rows: seq<ChatRow>, upto: int, h: nat, i: nat, k: nat) {
    && i < |w.segments| && Front(c, a, w, rows, upto, h, i)
    && w.segments[i].first <= upto <= w.segments[i].last + 1
    && SplitAt(RowsOf(c, a.objects, w.segments[i]), w.after, upto, k)
    && (forall m :: h <= m < |w.hot| ==> w.hot[m].position > w.segments[i].last)
  }

  predicate SplitAt(all: seq<ChatRow>, after: int, upto: int, k: nat) {
    && k <= |all| && (forall m :: 0 <= m < k ==> all[m].position < upto)
    && (forall m :: k <= m < |all| ==> all[m].position >= upto || all[m].position <= after)
  }

  lemma NextInSegment(c: Codec, a: Archive, w: Window, upto: int, i: nat, k: nat)
    requires Inv(c, a) && SegmentsSelected(a, w) && i < |w.segments| && w.after < upto && w.segments[i].first <= upto
    requires SplitAt(RowsOf(c, a.objects, w.segments[i]), w.after, upto, k)
    requires k < |RowsOf(c, a.objects, w.segments[i])| && RowsOf(c, a.objects, w.segments[i])[k].position >= upto
    ensures var r := RowsOf(c, a.objects, w.segments[i])[k];
            InLog(c, a, w.session, r) && r.position <= w.segments[i].last && NoneIn(c, a, w.session, upto, r.position)
  {
    var e, all := w.segments[i], RowsOf(c, a.objects, w.segments[i]);
    assert Wanted(a, w, e) && EntryOk(c, a, e) && Describes(SegmentFor(a.objects, e), all);
    var r := all[k];
    IndexedRow(c, a, e, r);
    forall q | InLog(c, a, w.session, q) && e.first <= q.position < r.position ensures q.position < upto {
      OnlyInSegment(c, a, e, q);
      BeforeInOrder(all, k, q);
    }
  }

  lemma BeforeInOrder(all: seq<ChatRow>, k: nat, q: ChatRow)
    requires Ascending(all) && k < |all| && q in all && q.position < all[k].position
    ensures q in all[..k]
  {
    var m :| 0 <= m < |all| && all[m] == q;
    assert m < k;
    assert all[..k][m] == q;
  }

  lemma TakeSegmentRow(c: Codec, a: Archive, w: Window, rows: seq<ChatRow>, upto: int, h: nat, i: nat, k: nat)
    requires Inv(c, a) && Selected(a, w) && Inside(c, a, w, rows, upto, h, i, k) && |rows| <= w.limit
    requires k < |RowsOf(c, a.objects, w.segments[i])| && RowsOf(c, a.objects, w.segments[i])[k].position > w.after
    ensures var r := RowsOf(c, a.objects, w.segments[i])[k];
            && Inside(c, a, w, rows + [r], r.position + 1, h, i, k + 1)
            && (h < |w.hot| ==> w.hot[h].position > r.position)
  {
    var all := RowsOf(c, a.objects, w.segments[i]);
    var r := all[k];
    NextInSegment(c, a, w, upto, i, k);
    AddRow(c, a, w.session, w.after, upto, rows, r);
    RowsAscend(c, a, w, i);
  }

  lemma PassSegmentRow(c: Codec, a: Archive, w: Window, rows: seq<ChatRow>, upto: int, h: nat, i: nat, k: nat)
    requires Inside(c, a, w, rows, upto, h, i, k)
    requires k < |RowsOf(c, a.objects, w.segments[i])| && RowsOf(c, a.objects, w.segments[i])[k].position <= w.after
    ensures Inside(c, a, w, rows, upto, h, i, k + 1)
  {
  }

  lemma RowsAscend(c: Codec, a: Archive, w: Window, i: nat)
    requires Inv(c, a) && SegmentsSelected(a, w) && i < |w.segments|
    ensures var all := RowsOf(c, a.objects, w.segments[i]);
            Ascending(all) && all != [] && LastPosition(all) == w.segments[i].last > w.after
            && all[0].position == w.segments[i].first
  {
    var e := w.segments[i];
    assert Wanted(a, w, e) && EntryOk(c, a, e) && Describes(SegmentFor(a.objects, e), RowsOf(c, a.objects, e));
  }

  lemma FinishSegment(c: Codec, a: Archive, w: Window, rows: seq<ChatRow>, upto: int, h: nat, i: nat)
    requires Inv(c, a) && Selected(a, w) && i < |w.segments|
    requires Inside(c, a, w, rows, upto, h, i, |RowsOf(c, a.objects, w.segments[i])|)
    ensures Front(c, a, w, rows, upto, h, i + 1) && upto == w.segments[i].last + 1
  {
    RowsAscend(c, a, w, i);
    var all := RowsOf(c, a.objects, w.segments[i]);
    assert all[|all| - 1].position < upto;
  }

  /** Appends a segment's rows after the cursor while there is room. No hot row is ever in the way. */
  method AppendSegment(ghost c: Codec, ghost a: Archive, w: Window, before: seq<ChatRow>, h: nat, i: nat,
                       decoded: seq<ChatRow>, ghost from: int)
    returns (rows: seq<ChatRow>, overlap: bool, ghost upto: int)
    requires Inv(c, a) && Selected(a, w) && Inside(c, a, w, before, from, h, i, 0) && |before| <= w.limit
    requires decoded == RowsOf(c, a.objects, w.segments[i])
    ensures !overlap && Front(c, a, w, rows, upto, h, i) && upto <= w.segments[i].last + 1
    ensures |rows| <= w.limit ==> Front(c, a, w, rows, upto, h, i + 1) && upto == w.segments[i].last + 1
  {
    rows, overlap, upto := before, false, from;
    var k := 0;
    while k < |decoded| && !overlap && |rows| <= w.limit
      invariant 0 <= k <= |decoded| && !overlap && Inside(c, a, w, rows, upto, h, i, k)
    {
      var row := decoded[k];
      if row.position > w.after {
        TakeSegmentRow(c, a, w, rows, upto, h, i, k);
        overlap := h < |w.hot| && w.hot[h].position <= row.position;
        if !overlap { rows, upto := rows + [row], row.position + 1; }
      } else {
        PassSegmentRow(c, a, w, rows, upto, h, i, k);
      }
      k := k + 1;
    }
    if |rows| <= w.limit { FinishSegment(c, a, w, rows, upto, h, i); }
  }

  lemma EnterSegment(c: Codec, a: Archive, w: Window, rows: seq<ChatRow>, upto: int, h: nat, i: nat)
    requires Inv(c, a) && Selected(a, w) && i < |w.segments| && Front(c, a, w, rows, upto, h, i)
    requires w.segments[i].first <= upto && (upto == w.segments[i].first || upto == w.after + 1)
    ensures Inside(c, a, w, rows, upto, h, i, 0)
  {
    var e, all := w.segments[i], RowsOf(c, a.objects, w.segments[i]);
    assert Wanted(a, w, e) && EntryOk(c, a, e);
    RowsAscend(c, a, w, i);
    forall m | 0 <= m < |all| ensures all[m].position >= e.first {
      assert m > 0 ==> all[0].position < all[m].position;
    }
    forall m | h <= m < |w.hot| ensures w.hot[m].position > e.last { assert !InRange(e, w.hot[m].position); }
  }

  // ---- The page ----

  /** The object store hands out a body only if it has the expected digest. */
  function GetVerified(c: Codec, objects: map<ObjectKey, Bytes>, reachable: set<ObjectKey>, key: ObjectKey, sha: Name)
    : Option<Bytes>
  {
    if key in reachable && key in objects && c.digest(objects[key]) == sha then Some(objects[key]) else None
  }

  /** Why a segment cannot be read, if it cannot. */
  function Problem(e: Entry, bucket: Name, reachable: set<ObjectKey>): Option<PageError> {
    if e.bucket != bucket then Some(OtherBucket) else if e.key !in reachable then Some(Unavailable) else None
  }

  /** Fetches and decodes a segment: an indexed one always decodes, if its object can be had. */
  method ReadSegment(c: Codec, a: Archive, e: Entry, bucket: Name, reachable: set<ObjectKey>)
    returns (decoded: seq<ChatRow>, failure: Option<PageError>)
    requires EntryOk(c, a, e)
    ensures failure == Problem(e, bucket, reachable)
    ensures failure.None? ==> decoded == RowsOf(c, a.objects, e)
  {
    decoded, failure := [], None;
    if e.bucket != bucket {
      failure := Some(OtherBucket);
    } else if e.key != ObjectKey(e.session, e.first, e.last, e.sha) {
      failure := Some(KeyMismatch);
    } else {
      var body := GetVerified(c, a.objects, reachable, e.key, e.sha);
      if body.None? {
        failure := Some(Unavailable);
      } else {
        var result := Decode(c, Segment(body.value, e.sha, e.session, e.first, e.last, e.count));
        assert Segment(body.value, e.sha, e.session, e.first, e.last, e.count) == SegmentFor(a.objects, e);
        match result {
          case Rows(rows) => decoded := rows;
          case Broken(_) => failure := Some(Undecodable);
        }
      }
    }
  }

  /** The page is not full before the segment starts. */
  ghost predicate Reached(c: Codec, a: Archive, w: Window, e: Entry) {
    exists rows :: Between(c, a, w.session, w.after, e.first, rows) && |rows| <= w.limit
  }

  /** Segment `i` has the problem, is reached, and all segments before it could be read. */
  ghost predicate Blocked(c: Codec, a: Archive, w: Window, bucket: Name, reachable: set<ObjectKey>, i: nat,
                          error: PageError)
  {
    && i < |w.segments| && Problem(w.segments[i], bucket, reachable) == Some(error) && Reached(c, a, w, w.segments[i])
    && forall j :: 0 <= j < i ==> Problem(w.segments[j], bucket, reachable).None?
  }

  /** No segment from `i` on was needed and could not be read. */
  ghost predicate Clear(c: Codec, a: Archive, w: Window, bucket: Name, reachable: set<ObjectKey>, i: nat) {
    forall j :: i <= j < |w.segments| ==>
      Problem(w.segments[j], bucket, reachable).None? || !Reached(c, a, w, w.segments[j])
  }

  /** With more rows than the page holds, no segment behind them is reached. */
  lemma FullIsEnough(c: Codec, a: Archive, w: Window, rows: seq<ChatRow>, upto: int, e: Entry)
    requires Between(c, a, w.session, w.after, upto, rows) && |rows| > w.limit && upto <= e.first
    ensures !Reached(c, a, w, e)
  {
    forall more | Between(c, a, w.session, w.after, e.first, more) ensures |more| > w.limit {
      CountPositions(rows);
      CountPositions(more);
      SubsetIsSmaller(Positions(rows), Positions(more));
    }
  }

  lemma SubsetIsSmaller<T>(s: set<T>, t: set<T>)
    requires s <= t
    ensures |s| <= |t|
  {
    assert t == s + (t - s);
  }

  lemma FrontReaches(c: Codec, a: Archive, w: Window, rows: seq<ChatRow>, upto: int, h: nat, i: nat, e: Entry)
    requires Front(c, a, w, rows, upto, h, i) && |rows| <= w.limit
    requires (upto == e.first || (e.first <= upto == w.after + 1))
    ensures Reached(c, a, w, e)
  {
    if upto == e.first {
      assert Between(c, a, w.session, w.after, e.first, rows);
    } else {
      assert Between(c, a, w.session, w.after, e.first, []);
    }
  }

  lemma NextSegmentStarts(c: Codec, a: Archive, w: Window, i: nat)
    requires Inv(c, a) && SegmentsSelected(a, w) && i + 1 < |w.segments|
    ensures w.segments[i].last < w.segments[i + 1].first
  {
    assert forall j :: 0 <= j < |w.segments| ==> Wanted(a, w, w.segments[j]);
    EndsBefore(c, a, w.session, w.segments, i + 1);
  }

  /** Between two segments: the front has not passed the next one. */
  ghost predicate Waiting(c: Codec, a: Archive, w: Window, rows: seq<ChatRow>, upto: int, h: nat, i: nat) {
    && Front(c, a, w, rows, upto, h, i) && upto <= w.edge
    && (i < |w.segments| ==> upto <= w.segments[i].first || upto == w.after + 1)
  }

  /** Takes the hot rows before a segment and then its rows. */
  method MergeSegment(c: Codec, a: Archive, w: Window, bucket: Name, reachable: set<ObjectKey>, before: seq<ChatRow>,
                      read: nat, i: nat, ghost from: int)
    returns (rows: seq<ChatRow>, h: nat, failure: Option<PageError>, ghost upto: int)
    requires Inv(c, a) && Selected(a, w) && Waiting(c, a, w, before, from, read, i) && i < |w.segments|
    requires |before| <= w.limit && forall j :: 0 <= j < i ==> Problem(w.segments[j], bucket, reachable).None?
    ensures failure.None? ==> Front(c, a, w, rows, upto, h, i)
    ensures failure.None? && |rows| <= w.limit ==>
              Waiting(c, a, w, rows, upto, h, i + 1) && Problem(w.segments[i], bucket, reachable).None?
    ensures failure.None? && |rows| > w.limit ==> Clear(c, a, w, bucket, reachable, i)
    ensures failure.Some? ==> Blocked(c, a, w, bucket, reachable, i, failure.value)
  {
    var e := w.segments[i];
    assert Wanted(a, w, e) && EntryOk(c, a, e);
    rows, h, upto := AppendHotBefore(c, a, w, before, read, e.first, from, i);
    failure := None;
    if |rows| <= w.limit {
      FrontReaches(c, a, w, rows, upto, h, i, e);
      rows, failure, upto := TakeSegment(c, a, w, bucket, reachable, rows, h, i, upto);
    } else {
      ClearBehind(c, a, w, bucket, reachable, rows, upto, i);
    }
  }

  /** Reads a segment and appends its rows. */
  method TakeSegment(c: Codec, a: Archive, w: Window, bucket: Name, reachable: set<ObjectKey>, before: seq<ChatRow>,
                     h: nat, i: nat, ghost from: int)
    returns (rows: seq<ChatRow>, failure: Option<PageError>, ghost upto: int)
    requires Inv(c, a) && Selected(a, w) && i < |w.segments| && Front(c, a, w, before, from, h, i)
    requires |before| <= w.limit
    requires w.segments[i].first <= from && (from == w.segments[i].first || from == w.after + 1)
    ensures failure == Problem(w.segments[i], bucket, reachable)
    ensures failure.None? ==> Front(c, a, w, rows, upto, h, i)
    ensures failure.None? && |rows| <= w.limit ==> Waiting(c, a, w, rows, upto, h, i + 1)
    ensures failure.None? && |rows| > w.limit ==> Clear(c, a, w, bucket, reachable, i)
  {
    var e := w.segments[i];
    assert Wanted(a, w, e) && EntryOk(c, a, e);
    rows, upto := before, from;
    var decoded;
    decoded, failure := ReadSegment(c, a, e, bucket, reachable);
    if failure.None? {
      EnterSegment(c, a, w, rows, upto, h, i);
      var overlap;
      rows, overlap, upto := AppendSegment(c, a, w, rows, h, i, decoded, upto);
      failure := if overlap then Some(HotOverlap) else None;
      if i + 1 < |w.segments| { NextSegmentStarts(c, a, w, i); }
      SegmentTaken(c, a, w, bucket, reachable, rows, upto, h, i);
    }
  }

  lemma SegmentTaken(c: Codec, a: Archive, w: Window, bucket: Name, reachable: set<ObjectKey>, rows: seq<ChatRow>,
                     upto: int, h: nat, i: nat)
    requires i < |w.segments| && Problem(w.segments[i], bucket, reachable).None? && w.segments[i].last < w.edge
    requires InFirstOrder(w.segments) && upto <= w.segments[i].last + 1
    requires i + 1 < |w.segments| ==> w.segments[i].last < w.segments[i + 1].first
    requires Between(c, a, w.session, w.after, upto, rows)
    requires |rows| <= w.limit ==> Front(c, a, w, rows, upto, h, i + 1)
    ensures |rows| <= w.limit ==> Waiting(c, a, w, rows, upto, h, i + 1)
    ensures |rows| > w.limit ==> Clear(c, a, w, bucket, reachable, i)
  {
    if |rows| > w.limit { ClearBehind(c, a, w, bucket, reachable, rows, upto, i + 1); }
  }

  lemma ClearBehind(c: Codec, a: Archive, w: Window, bucket: Name, reachable: set<ObjectKey>, rows: seq<ChatRow>,
                    upto: int, i: nat)
    requires Between(c, a, w.session, w.after, upto, rows) && |rows| > w.limit && InFirstOrder(w.segments)
    requires i < |w.segments| ==> upto <= w.segments[i].first
    ensures Clear(c, a, w, bucket, reachable, i)
  {
    forall j | i <= j < |w.segments| ensures !Reached(c, a, w, w.segments[j]) {
      StartsInOrder(w.segments, i, j);
      FullIsEnough(c, a, w, rows, upto, w.segments[j]);
    }
  }

  /** Merges segments and hot rows up to one row more than the page, or up to the edge. It fails exactly
      if a segment it reaches cannot be read, at the first such one. */
  method Merge(c: Codec, a: Archive, w: Window, bucket: Name, reachable: set<ObjectKey>)
    returns (rows: seq<ChatRow>, failure: Option<PageError>, ghost upto: int)
    requires Inv(c, a) && Selected(a, w) && w.after < w.edge
    ensures failure.None? ==> |rows| <= w.limit + 1 && Between(c, a, w.session, w.after, upto, rows)
                              && (|rows| <= w.limit ==> upto == w.edge)
    ensures failure.None? ==> Clear(c, a, w, bucket, reachable, 0)
    ensures failure.Some? ==> exists i :: Blocked(c, a, w, bucket, reachable, i, failure.value)
  {
    var h: nat, i: nat := 0, 0;
    rows, failure, upto := [], None, w.after + 1;
    var full := false;
    while i < |w.segments| && failure.None? && !full
      invariant i <= |w.segments|
      invariant failure.Some? ==> exists j :: Blocked(c, a, w, bucket, reachable, j, failure.value)
      invariant failure.None? && !full ==> Waiting(c, a, w, rows, upto, h, i) && |rows| <= w.limit
      invariant failure.None? && !full ==> forall j :: 0 <= j < i ==> Problem(w.segments[j], bucket, reachable).None?
      invariant failure.None? && full ==> Between(c, a, w.session, w.after, upto, rows) && |rows| == w.limit + 1
      invariant failure.None? && full ==> Clear(c, a, w, bucket, reachable, 0)
    {
      rows, h, failure, upto := MergeSegment(c, a, w, bucket, reachable, rows, h, i, upto);
      full := |rows| > w.limit;
      i := i + 1;
    }
    if failure.None? && !full {
      rows, h, upto := AppendHotBefore(c, a, w, rows, h, w.edge, upto, i);
    }
  }

  lemma FirstRows(c: Codec, a: Archive, session: Name, after: int, upto: int, rows: seq<ChatRow>, n: nat)
    requires Between(c, a, session, after, upto, rows) && 0 < n <= |rows|
    ensures Between(c, a, session, after, rows[n - 1].position + 1, rows[..n])
    ensures n < |rows| ==> InLog(c, a, session, rows[n]) && rows[n].position > rows[n - 1].position
  {
    assert n < |rows| ==> rows[n] in rows;
    assert rows[n - 1] in rows;
    forall r ensures r in rows[..n] <==> InLog(c, a, session, r) && after < r.position < rows[n - 1].position + 1 {
      if r in rows && r.position <= rows[n - 1].position && r.position < rows[n - 1].position {
        BeforeInOrder(rows, n - 1, r);
      }
      if r in rows && r.position == rows[n - 1].position { AscendingSame(rows, r, rows[n - 1]); }
    }
  }

  lemma FullPage(c: Codec, a: Archive, session: Name, after: int, limit: nat, upto: int, rows: seq<ChatRow>)
    requires Between(c, a, session, after, upto, rows) && |rows| == limit + 1 && limit > 0
    ensures PageOf(c, a, session, after, limit, Page(rows[..limit], Some(LastPosition(rows[..limit])), true))
  {
    FirstRows(c, a, session, after, upto, rows, limit);
    assert rows[..limit][limit - 1] == rows[limit - 1];
  }

  lemma WholeRows(c: Codec, a: Archive, session: Name, after: int, upto: int, rows: seq<ChatRow>)
    requires Between(c, a, session, after, upto, rows)
    ensures Between(c, a, session, after, (if rows == [] then after else LastPosition(rows)) + 1, rows)
    ensures forall r :: InLog(c, a, session, r) && r.position > (if rows == [] then after else LastPosition(rows)) ==>
          r.position >= upto
  {
    if rows != [] {
      FirstRows(c, a, session, after, upto, rows, |rows|);
      assert rows[..|rows|] == rows;
      forall r | r in rows ensures after < r.position <= LastPosition(rows) { UpToLast(rows, r); }
      assert rows[0] in rows;
    }
  }

  lemma UpToLast(rows: seq<ChatRow>, r: ChatRow)
    requires Ascending(rows) && r in rows
    ensures r.position <= LastPosition(rows)
  {
    var i :| 0 <= i < |rows| && rows[i] == r;
    AscendingAt(rows, i);
  }

  lemma LastPage(c: Codec, a: Archive, session: Name, after: int, limit: nat, rows: seq<ChatRow>)
    requires Inv(c, a) && Between(c, a, session, after, Edge(a, after, None), rows) && |rows| <= limit
    ensures PageOf(c, a, session, after, limit, Page(rows, None, false))
  {
    WholeRows(c, a, session, after, Edge(a, after, None), rows);
    forall r | InLog(c, a, session, r) ensures r.position <= a.sequence { LogRowOk(c, a, session, r); }
  }

  /** A page that stops at the boundary has rows, and rows remain. */
  lemma BoundaryPage(c: Codec, a: Archive, w: Window, limit: nat, rows: seq<ChatRow>)
    requires Inv(c, a) && SegmentsSelected(a, w) && |w.segments| > 0 && StartsAt(a, w.session, w.after, w.edge)
    requires Between(c, a, w.session, w.after, w.edge, rows) && |rows| <= limit
    ensures PageOf(c, a, w.session, w.after, limit, Page(rows, Some(LastPosition(rows)), true)) && rows != []
  {
    WholeRows(c, a, w.session, w.after, w.edge, rows);
    SegmentEnds(c, a, w.segments[0]);
    var first := RowsOf(c, a.objects, w.segments[0]);
    assert first[|first| - 1] in rows;
    var e :| e in a.entries && e.session == w.session && e.first == w.edge && e.last > w.after;
    SegmentEnds(c, a, e);
    var next := RowsOf(c, a.objects, e)[0];
    assert InLog(c, a, w.session, next);
    assert rows[|rows| - 1] in rows;
  }

  lemma SegmentEnds(c: Codec, a: Archive, e: Entry)
    requires Inv(c, a) && e in a.entries
    ensures var all := RowsOf(c, a.objects, e);
            all != [] && all[0].position == e.first && all[|all| - 1].position == e.last
            && IsIndexed(c, a, e.session, all[0]) && IsIndexed(c, a, e.session, all[|all| - 1])
  {
    var all := RowsOf(c, a.objects, e);
    assert EntryOk(c, a, e) && Describes(SegmentFor(a.objects, e), all);
    assert all[0] in all && all[|all| - 1] in all;
  }

  method HasRepetition(rows: seq<ChatRow>) returns (twice: bool)
    ensures twice <==> exists i :: 0 < i < |rows| && rows[i - 1].position == rows[i].position
  {
    twice := false;
    var i := 1;
    while i < |rows|
      invariant twice <==> exists j :: 0 < j < i && j < |rows| && rows[j - 1].position == rows[j].position
    {
      if rows[i - 1].position == rows[i].position { twice := true; }
      i := i + 1;
    }
  }

  function Earlier(a: Archive, session: Name, after: int, e: Entry): set<Entry> {
    set f | f in a.entries && f.session == session && f.last > after && f.first < e.first
  }

  /** The page needs the segment: it is among the first four after the cursor, and fewer rows than fill
      the page come before it. */
  ghost predicate Needed(c: Codec, a: Archive, session: Name, after: int, limit: nat, e: Entry) {
    && e in a.entries && e.session == session && e.last > after && |Earlier(a, session, after, e)| < OBJECTS_PER_PAGE
    && exists rows :: Between(c, a, session, after, e.first, rows) && |rows| <= limit
  }

  lemma {:induction false} FirstSegments(segments: seq<Entry>, n: nat) returns (s: set<Entry>)
    requires InFirstOrder(segments) && n <= |segments|
    ensures |s| == n && forall f :: f in s <==> exists i :: 0 <= i < n && segments[i] == f
    decreases n
  {
    if n == 0 {
      s := {};
    } else {
      var rest := FirstSegments(segments, n - 1);
      assert segments[n - 1] !in rest;
      s := rest + {segments[n - 1]};
    }
  }

  /** The selected segments are the first four. */
  lemma SelectedAreFirst(a: Archive, w: Window, boundary: Option<int>, e: Entry)
    requires SegmentsSelected(a, w) && |w.segments| <= OBJECTS_PER_PAGE && Wanted(a, w, e)
    requires boundary.Some? ==> |w.segments| == OBJECTS_PER_PAGE && w.edge == boundary.value
    requires boundary.None? ==> e.first < w.edge
    ensures e in w.segments <==> |Earlier(a, w.session, w.after, e)| < OBJECTS_PER_PAGE
  {
    var earlier := Earlier(a, w.session, w.after, e);
    if e in w.segments {
      var i :| 0 <= i < |w.segments| && w.segments[i] == e;
      var s := FirstSegments(w.segments, i);
      forall f | f in earlier ensures f in s {
        assert Wanted(a, w, f) && f in w.segments;
        var j :| 0 <= j < |w.segments| && w.segments[j] == f;
        StartsInOrder(w.segments, i, j);
      }
      SubsetIsSmaller(earlier, s);
    } else {
      var s := FirstSegments(w.segments, |w.segments|);
      forall f | f in s ensures f in earlier {
        var j :| 0 <= j < |w.segments| && w.segments[j] == f;
        assert Wanted(a, w, f);
      }
      SubsetIsSmaller(s, earlier);
    }
  }

  method SelectWindow(ghost c: Codec, a: Archive, session: Name, after: int, limit: nat)
    returns (w: Window, boundary: Option<int>)
    requires Inv(c, a)
    ensures Selected(a, w) && w.session == session && w.after == after < w.edge == Edge(a, after, boundary)
    ensures w.limit == limit
    ensures FirstFour(a, w, boundary) && (boundary.Some? ==> StartsAt(a, session, after, boundary.value))
  {
    var segments;
    segments, boundary := SelectSegments(c, a, session, after);
    var hot := SelectHot(c, a, session, after, limit, boundary);
    w := Window(session, after, limit, segments, hot, Edge(a, after, boundary));
    SameWindow(a, w);
    assert boundary.Some? ==> Wanted(a, w, segments[0]) && segments[0].last < w.edge;
    assert forall i :: 0 <= i < |segments| ==> Wanted(a, w, segments[i]);
  }

  lemma SameWindow(a: Archive, w: Window)
    requires SegmentsSelected(a, w.(limit := 0, hot := [])) && HotSelected(a, w.(segments := []))
    ensures Selected(a, w)
  {
    var v := w.(limit := 0, hot := []);
    forall e ensures Wanted(a, w, e) <==> Wanted(a, v, e) { }
  }

  /** Cuts the merged rows to the page and says whether more remain. */
  method FinishPage(ghost c: Codec, ghost a: Archive, w: Window, boundary: Option<int>, rows: seq<ChatRow>,
                    ghost upto: int)
    returns (page: PageResult)
    requires Inv(c, a) && SegmentsSelected(a, w) && w.edge == Edge(a, w.after, boundary) && w.limit > 0
    requires boundary.Some? ==> |w.segments| > 0 && StartsAt(a, w.session, w.after, boundary.value)
    requires |rows| <= w.limit + 1 && Between(c, a, w.session, w.after, upto, rows)
    requires (|rows| <= w.limit ==> upto == w.edge)
    ensures page.Page? && PageOf(c, a, w.session, w.after, w.limit, page)
    ensures page.hasMore && |page.rows| < w.limit ==>
              boundary.Some? && Between(c, a, w.session, w.after, boundary.value, page.rows)
  {
    var twice := HasRepetition(rows);
    var hasMore := boundary.Some? || |rows| > w.limit;
    var shown := if |rows| > w.limit then rows[..w.limit] else rows;
    var next := if hasMore && |shown| > 0 then Some(LastPosition(shown)) else None;
    page := if twice then NoPage(Twice) else Page(shown, next, hasMore);
    PageIsRight(c, a, w, boundary, rows, upto);
  }

  lemma PageIsRight(c: Codec, a: Archive, w: Window, boundary: Option<int>, rows: seq<ChatRow>, upto: int)
    requires Inv(c, a) && SegmentsSelected(a, w) && w.edge == Edge(a, w.after, boundary) && w.limit > 0
    requires boundary.Some? ==> |w.segments| > 0 && StartsAt(a, w.session, w.after, boundary.value)
    requires |rows| <= w.limit + 1 && Between(c, a, w.session, w.after, upto, rows)
    requires (|rows| <= w.limit ==> upto == w.edge)
    ensures var hasMore := boundary.Some? || |rows| > w.limit;
            var shown := if |rows| > w.limit then rows[..w.limit] else rows;
            var next := if hasMore && |shown| > 0 then Some(LastPosition(shown)) else None;
            PageOf(c, a, w.session, w.after, w.limit, Page(shown, next, hasMore))
  {
    if |rows| > w.limit {
      FullPage(c, a, w.session, w.after, w.limit, upto, rows);
    } else if boundary.Some? {
      BoundaryPage(c, a, w, w.limit, rows);
    } else {
      LastPage(c, a, w.session, w.after, w.limit, rows);
    }
  }

  /** The window holds the first four segments, or all. */
  ghost predicate FirstFour(a: Archive, w: Window, boundary: Option<int>) {
    && SegmentsSelected(a, w) && |w.segments| <= OBJECTS_PER_PAGE && w.edge == Edge(a, w.after, boundary)
    && (boundary.Some? ==> |w.segments| == OBJECTS_PER_PAGE) && forall f :: f in a.entries ==> f.first <= a.sequence
  }

  /** In terms of the whole archive: what a merge says about its window. */
  lemma NeededInWindow(c: Codec, a: Archive, w: Window, boundary: Option<int>, e: Entry)
    requires FirstFour(a, w, boundary)
    ensures Needed(c, a, w.session, w.after, w.limit, e) <==> e in w.segments && Reached(c, a, w, e)
  {
    assert forall i :: 0 <= i < |w.segments| ==> Wanted(a, w, w.segments[i]);
    if Wanted(a, w, e) { SelectedAreFirst(a, w, boundary, e); }
  }

  /** A page with more to come is full, or ends right before the fifth segment after the cursor. */
  ghost predicate Filled(c: Codec, a: Archive, session: Name, after: int, limit: nat, page: PageResult)
    requires page.Page?
  {
    page.hasMore && |page.rows| < limit ==>
      exists e :: Fifth(a, session, after, e) && Between(c, a, session, after, e.first, page.rows)
  }

  predicate Fifth(a: Archive, session: Name, after: int, e: Entry) {
    e in a.entries && e.session == session && e.last > after && |Earlier(a, session, after, e)| == OBJECTS_PER_PAGE
  }

  lemma BoundaryIsFifth(a: Archive, w: Window, boundary: Option<int>, e: Entry)
    requires FirstFour(a, w, boundary) && boundary.Some? && Wanted(a, w, e) && e.first == boundary.value
    ensures Fifth(a, w.session, w.after, e)
  {
    var earlier := Earlier(a, w.session, w.after, e);
    var s := FirstSegments(w.segments, |w.segments|);
    forall f ensures f in s <==> f in earlier {
      assert f in s ==> Wanted(a, w, f);
      assert f in earlier ==> Wanted(a, w, f) && f in w.segments;
    }
    assert s == earlier;
  }

  lemma BoundaryFills(c: Codec, a: Archive, w: Window, boundary: Option<int>, page: PageResult)
    requires FirstFour(a, w, boundary) && page.Page?
    requires boundary.Some? ==> StartsAt(a, w.session, w.after, boundary.value)
    requires page.hasMore && |page.rows| < w.limit ==>
               boundary.Some? && Between(c, a, w.session, w.after, boundary.value, page.rows)
    ensures Filled(c, a, w.session, w.after, w.limit, page)
  {
    if page.hasMore && |page.rows| < w.limit {
      var e :| e in a.entries && e.session == w.session && e.first == boundary.value && e.last > w.after;
      BoundaryIsFifth(a, w, boundary, e);
    }
  }

  /** A needed segment has the problem, and no needed one before it has any. */
  ghost predicate FirstProblem(c: Codec, a: Archive, session: Name, after: int, limit: nat, bucket: Name,
                               reachable: set<ObjectKey>, error: PageError)
  {
    exists e :: Needed(c, a, session, after, limit, e) && Problem(e, bucket, reachable) == Some(error)
                && forall f :: Needed(c, a, session, after, limit, f) && f.first < e.first ==>
                      Problem(f, bucket, reachable).None?
  }

  ghost predicate AllReadable(c: Codec, a: Archive, session: Name, after: int, limit: nat, bucket: Name,
                              reachable: set<ObjectKey>)
  {
    forall e :: Needed(c, a, session, after, limit, e) ==> Problem(e, bucket, reachable).None?
  }

  /** A page is given exactly if all segments it needs can be read, and is then the next part of the log,
      as long as the limits on rows and segments allow; otherwise the error is that of the first segment
      that cannot be read. */
  ghost predicate Answers(c: Codec, a: Archive, session: Name, after: int, limit: nat, bucket: Name,
                          reachable: set<ObjectKey>, page: PageResult)
  {
    match page
    case NoPage(error) =>
      && error in {OtherBucket, Unavailable} && FirstProblem(c, a, session, after, limit, bucket, reachable, error)
      && !AllReadable(c, a, session, after, limit, bucket, reachable)
    case Page(_, _, _) =>
      && PageOf(c, a, session, after, limit, page) && Filled(c, a, session, after, limit, page)
      && AllReadable(c, a, session, after, limit, bucket, reachable)
  }

  lemma BlockedAnswers(c: Codec, a: Archive, w: Window, boundary: Option<int>, bucket: Name, reachable: set<ObjectKey>,
                       i: nat, error: PageError)
    requires FirstFour(a, w, boundary) && Blocked(c, a, w, bucket, reachable, i, error)
    ensures Answers(c, a, w.session, w.after, w.limit, bucket, reachable, NoPage(error))
  {
    var e := w.segments[i];
    NeededInWindow(c, a, w, boundary, e);
    forall f | Needed(c, a, w.session, w.after, w.limit, f) && f.first < e.first
      ensures Problem(f, bucket, reachable).None?
    {
      NeededInWindow(c, a, w, boundary, f);
      var j :| 0 <= j < |w.segments| && w.segments[j] == f;
      StartsInOrder(w.segments, i, j);
    }
  }

  lemma ClearAnswers(c: Codec, a: Archive, w: Window, boundary: Option<int>, bucket: Name, reachable: set<ObjectKey>,
                     page: PageResult)
    requires FirstFour(a, w, boundary) && Clear(c, a, w, bucket, reachable, 0)
    requires page.Page? && PageOf(c, a, w.session, w.after, w.limit, page)
    requires Filled(c, a, w.session, w.after, w.limit, page)
    ensures Answers(c, a, w.session, w.after, w.limit, bucket, reachable, page)
  {
    forall e | Needed(c, a, w.session, w.after, w.limit, e) ensures Problem(e, bucket, reachable).None? {
      NeededInWindow(c, a, w, boundary, e);
      var j :| 0 <= j < |w.segments| && w.segments[j] == e;
    }
  }

  /** Reads a page from a snapshot of the archive. Besides a bad request and an unknown session nothing can
      go wrong but a segment that the page needs and that cannot be read. */
  method ReadChatsPage(c: Codec, a: Archive, channel: Name, session: Name, after: int, limit: int, bucket: Name,
                       reachable: set<ObjectKey>)
    returns (page: PageResult)
    requires Inv(c, a)
    ensures page == NoPage(InvalidRequest) <==> !(c.isUuid(session) && after >= 0 && 1 <= limit <= 200)
    ensures page == NoPage(NoSession) <==> page != NoPage(InvalidRequest) && !Owned(a, session, channel)
    ensures page != NoPage(InvalidRequest) && page != NoPage(NoSession) ==>
              limit > 0 && Answers(c, a, session, after, limit, bucket, reachable, page)
  {
    if !c.isUuid(session) || after < 0 || limit < 1 || limit > 200 { return NoPage(InvalidRequest); }
    if !Owned(a, session, channel) { return NoPage(NoSession); }
    var w, boundary := SelectWindow(c, a, session, after, limit);
    page := ReadWindow(c, a, w, boundary, bucket, reachable);
  }

  method ReadWindow(c: Codec, a: Archive, w: Window, boundary: Option<int>, bucket: Name, reachable: set<ObjectKey>)
    returns (page: PageResult)
    requires Inv(c, a) && w.limit > 0 && Selected(a, w) && w.after < w.edge && FirstFour(a, w, boundary)
    requires boundary.Some? ==> StartsAt(a, w.session, w.after, boundary.value)
    ensures Answers(c, a, w.session, w.after, w.limit, bucket, reachable, page)
  {
    var rows, failure, upto := Merge(c, a, w, bucket, reachable);
    if failure.Some? {
      ghost var i :| Blocked(c, a, w, bucket, reachable, i, failure.value);
      BlockedAnswers(c, a, w, boundary, bucket, reachable, i, failure.value);
      return NoPage(failure.value);
    }
    page := FinishPage(c, a, w, boundary, rows, upto);
    BoundaryFills(c, a, w, boundary, page);
    ClearAnswers(c, a, w, boundary, bucket, reachable, page);
  }
}
