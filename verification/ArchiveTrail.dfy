/** Paging refines the log: a page is a slice of it, and following cursors while the archive changes
    yields each row once. */
module ArchiveTrail {
  import opened JournalTypes
  import opened Segments
  import opened ArchiveState
  import opened ArchiveLog
  import opened ArchiveExport
  import opened ArchiveRuns
  import opened ArchivePage

  /** The rows of a log after a position. */
  function After(log: seq<ChatRow>, position: int): seq<ChatRow>
    decreases |log|
  {
    if log != [] && log[0].position <= position then After(log[1..], position) else log
  }

  lemma {:induction false} AfterHolds(log: seq<ChatRow>, position: int)
    requires Ascending(log)
    ensures Ascending(After(log, position))
    ensures forall r :: r in After(log, position) <==> r in log && r.position > position
    decreases |log|
  {
    if log != [] && log[0].position <= position {
      AfterHolds(log[1..], position);
      assert log == [log[0]] + log[1..];
    } else {
      forall r | r in log ensures r.position > position {
        var i :| 0 <= i < |log| && log[i] == r;
        assert i > 0 ==> log[0].position < log[i].position;
      }
    }
  }

  /** Rows that are exactly the log up to their last one are its first rows. */
  lemma FirstRowsOf(log: seq<ChatRow>, rows: seq<ChatRow>)
    requires Ascending(log) && Ascending(rows)
    requires rows != [] ==> forall r :: r in rows <==> r in log && r.position <= LastPosition(rows)
    ensures rows <= log
  {
    if rows != [] {
      var last := rows[|rows| - 1];
      assert last in rows && last in log;
      var m :| 0 <= m < |log| && log[m] == last;
      forall r ensures r in log[..m + 1] <==> r in rows { InPrefix(log, m + 1, r); }
      SameMembers(log[..m + 1], rows);
    }
  }

  /** A page is the next slice of the log after its cursor, and says truly whether rows remain. */
  lemma PageIsSlice(c: Codec, a: Archive, session: Name, after: int, limit: nat, page: PageResult, log: seq<ChatRow>)
    requires page.Page? && PageOf(c, a, session, after, limit, page) && IsLog(c, a, session, log)
    ensures page.rows <= After(log, after)
    ensures page.hasMore <==> page.rows != After(log, after)
    ensures page.hasMore ==>
              |page.rows| > 0 && page.next == Some(LastPosition(page.rows)) && LastPosition(page.rows) > after
  {
    var rest := After(log, after);
    AfterHolds(log, after);
    FirstRowsOf(rest, page.rows);
    if page.rows != [] { assert page.rows[|page.rows| - 1] in page.rows; }
    if page.rows == rest {
      forall r | r in rest ensures r.position <= LastPosition(rest) { UpToLast(rest, r); }
    } else {
      var r := rest[|page.rows|];
      assert r in rest && InLog(c, a, session, r);
      assert page.rows != [] ==> rest[|page.rows| - 1] == page.rows[|page.rows| - 1];
    }
  }

  // ---- Following cursors ----

  /** One page read in a world of a run, and what happens until the next one is read. */
  datatype Visit = Visit(limit: nat, page: PageResult, acts: seq<Act>)

  /** Pages read one after the other, each from the cursor of the one before, while the archive moves on. */
  ghost predicate Follows(c: Codec, w: World, session: Name, after: int, visits: seq<Visit>)
    decreases |visits|
  {
    visits == [] ||
    (var v := visits[0];
     && v.page.Page? && PageOf(c, w.archive, session, after, v.limit, v.page) && Legal(c, w, v.acts)
     && (|visits| > 1 ==> v.page.hasMore)
     && Follows(c, Run(c, w, v.acts), session, Cursor(v, after), visits[1..]))
  }

  ghost function Outcome(c: Codec, w: World, session: Name, after: int, visits: seq<Visit>): World
    requires Follows(c, w, session, after, visits)
    decreases |visits|
  {
    if visits == [] then w
    else
      var v := visits[0];
      Outcome(c, Run(c, w, v.acts), session, Cursor(v, after), visits[1..])
  }

  function Shown(visits: seq<Visit>): seq<ChatRow>
    requires forall i :: 0 <= i < |visits| ==> visits[i].page.Page?
    decreases |visits|
  {
    if visits == [] then [] else visits[0].page.rows + Shown(visits[1..])
  }

  lemma {:induction false} AfterGrows(log: seq<ChatRow>, more: seq<ChatRow>, position: int)
    requires Ascending(log + more)
    ensures After(log, position) <= After(log + more, position)
    decreases |log|
  {
    if log != [] && log[0].position <= position {
      assert (log + more)[1..] == log[1..] + more;
      AfterGrows(log[1..], more, position);
    }
  }

  /** Cutting at a row of the log leaves what follows it. */
  lemma {:induction false} AfterSlice(log: seq<ChatRow>, after: int, n: nat)
    requires Ascending(log) && 0 < n <= |After(log, after)|
    ensures After(log, After(log, after)[n - 1].position) == After(log, after)[n..]
    decreases |log|
  {
    AfterHolds(log, after);
    if log[0].position <= after {
      assert After(log, after)[n - 1] in After(log, after);
      AfterSlice(log[1..], after, n);
    } else {
      DropUpTo(log, n);
    }
  }

  lemma {:induction false} DropUpTo(log: seq<ChatRow>, n: nat)
    requires Ascending(log) && 0 < n <= |log|
    ensures After(log, log[n - 1].position) == log[n..]
    decreases n
  {
    if n == 1 {
      assert |log| > 1 ==> log[0].position < log[1].position;
    } else {
      assert log[0].position < log[n - 1].position;
      DropUpTo(log[1..], n - 1);
    }
  }

  lemma ShownNext(log: seq<ChatRow>, after: int, rows: seq<ChatRow>, shown: seq<ChatRow>)
    requires Ascending(log) && rows != [] && rows <= After(log, after) && shown <= After(log, LastPosition(rows))
    ensures rows + shown <= After(log, after)
    ensures shown == After(log, LastPosition(rows)) ==> rows + shown == After(log, after)
  {
    AfterSlice(log, after, |rows|);
    assert After(log, after) == rows + After(log, after)[|rows|..];
  }

  function Cursor(v: Visit, after: int): int
    requires v.page.Page? && (v.page.hasMore ==> v.page.next.Some?)
  {
    if v.page.hasMore then v.page.next.value else after
  }

  /** The pages shown are the log after the cursor, cut somewhere; nowhere if the last page ended it. */
  ghost predicate Shows(visits: seq<Visit>, after: int, log: seq<ChatRow>) {
    && (forall i :: 0 <= i < |visits| ==> visits[i].page.Page?) && Shown(visits) <= After(log, after)
    && (Ended(visits) ==> Shown(visits) == After(log, after))
  }

  predicate Ended(visits: seq<Visit>) {
    && visits != [] && visits[|visits| - 1].page.Page?
    && !visits[|visits| - 1].page.hasMore && visits[|visits| - 1].acts == []
  }

  lemma PageOfLater(c: Codec, w: World, session: Name, after: int, v: Visit, log: seq<ChatRow>, final: seq<ChatRow>)
    requires v.page.Page? && v.page.hasMore && PageOf(c, w.archive, session, after, v.limit, v.page)
    requires IsLog(c, w.archive, session, log) && log <= final && Ascending(final)
    ensures v.page.rows != [] && v.page.rows <= After(final, after) && v.page.next == Some(LastPosition(v.page.rows))
  {
    PageIsSlice(c, w.archive, session, after, v.limit, v.page, log);
    assert final == log + final[|log|..];
    AfterGrows(log, final[|log|..], after);
  }

  lemma ShowsMore(c: Codec, w: World, session: Name, after: int, visits: seq<Visit>, log: seq<ChatRow>,
                  final: seq<ChatRow>)
    requires visits != [] && visits[0].page.Page? && visits[0].page.hasMore && IsLog(c, w.archive, session, log)
    requires PageOf(c, w.archive, session, after, visits[0].limit, visits[0].page)
    requires log <= final && Ascending(final) && visits[0].page.next.Some?
    requires Shows(visits[1..], visits[0].page.next.value, final)
    ensures Shows(visits, after, final)
  {
    var v := visits[0];
    PageOfLater(c, w, session, after, v, log, final);
    ShownNext(final, after, v.page.rows, Shown(visits[1..]));
    assert forall i :: 1 <= i < |visits| ==> visits[i] == visits[1..][i - 1];
  }

  lemma ShowsLast(c: Codec, w: World, session: Name, after: int, v: Visit, log: seq<ChatRow>, more: seq<ChatRow>)
    requires v.page.Page? && !v.page.hasMore && PageOf(c, w.archive, session, after, v.limit, v.page)
    requires IsLog(c, w.archive, session, log) && Ascending(log + more) && (v.acts == [] ==> more == [])
    ensures Shows([v], after, log + more)
  {
    PageIsSlice(c, w.archive, session, after, v.limit, v.page, log);
    AfterGrows(log, more, after);
    assert [v][1..] == [] && v.page.rows + [] == v.page.rows && (more == [] ==> log + more == log);
  }

  /** Following cursors through any interleaving of appends and exports shows the log's rows after the
      starting cursor, each once and in order, and all of them once a page says that none remain. */
  lemma {:induction false} FollowingShowsTheLog(c: Codec, w: World, session: Name, after: int, visits: seq<Visit>,
                                                log: seq<ChatRow>)
    returns (final: seq<ChatRow>)
    requires Lawful(c) && Consistent(c, w) && IsLog(c, w.archive, session, log)
    requires Follows(c, w, session, after, visits)
    ensures IsLog(c, Outcome(c, w, session, after, visits).archive, session, final) && log <= final
    ensures Shows(visits, after, final)
    decreases |visits|
  {
    if visits == [] {
      final := log;
    } else {
      var v := visits[0];
      var more := RunGrowsLog(c, w, v.acts, session, log);
      if v.page.hasMore {
        final := FollowingShowsTheLog(c, Run(c, w, v.acts), session, v.page.next.value, visits[1..], log + more);
        ShowsMore(c, w, session, after, visits, log, final);
      } else {
        final := log + more;
        assert visits == [v];
        if v.acts == [] { LogIsUnique(c, w.archive, session, log, final); }
        ShowsLast(c, w, session, after, v, log, more);
      }
    }
  }
}
