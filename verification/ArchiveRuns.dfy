/** Runs of the archive: writers append and replay chats while any number of exporters take, shrink,
    upload and commit batches that may long be stale. */
module ArchiveRuns {
  import opened JournalTypes
  import opened Segments
  import opened ArchiveState
  import opened ArchiveLog
  import opened ArchiveExport

  /** `batches` and `uploaded` hold everything any exporter ever took or verified; `accepted`, every
      chat whose append transaction committed. */
  datatype World = World(archive: Archive, batches: set<seq<ChatRow>>, uploaded: set<seq<ChatRow>>, accepted: set<Chat>)

  datatype Act =
    | Append(sources: set<Source>, chat: Chat, newId: Name)
    | Abort
    | Take(rows: seq<ChatRow>)
    | Halve(rows: seq<ChatRow>)
    | Upload(rows: seq<ChatRow>)
    | CommitRows(rows: seq<ChatRow>, bucket: Name, channel: Name)

  const EMPTY: World := World(Archive(0, map[], map[], map[], {}, map[], map[]), {}, {}, {})

  /** Hot rows of one session from the first on, up to the next indexed segment. */
  predicate Candidate(a: Archive, rows: seq<ChatRow>) {
    && 0 < |rows| <= MAX_SEGMENT_ROWS && Ascending(rows)
    && (forall i :: 0 <= i < |rows| ==> IsHot(a, rows[0].session, rows[i]))
    && (forall e :: e in a.entries && e.session == rows[0].session ==>
                    !InRange(e, rows[0].position) && !(rows[0].position < e.first <= LastPosition(rows)))
    && (forall p :: p in a.hot && a.hot[p].session == rows[0].session && rows[0].position <= p <= LastPosition(rows) ==>
                    a.hot[p] in rows)
  }

  /** One spool ID names one chat. */
  predicate Can(c: Codec, w: World, act: Act) {
    match act
    case Append(sources, chat, newId) =>
      Acceptable(c, chat) && c.isUuid(newId) && forall r :: r in w.accepted && r.spoolId == chat.spoolId ==> r == chat
    case Abort => true
    case Take(rows) => Candidate(w.archive, rows)
    case Halve(rows) => rows in w.batches && |rows| > 1
    case Upload(rows) => rows in w.batches && Fits(c, rows) && rows != []
    case CommitRows(rows, bucket, channel) => rows in w.uploaded && rows != []
  }

  function Do(c: Codec, w: World, act: Act): World
    requires Can(c, w, act)
  {
    match act
    case Append(sources, chat, newId) =>
      w.(archive := AppendChat(w.archive, sources, chat, newId), accepted := w.accepted + {chat})
    case Abort => w.(archive := w.archive.(sequence := w.archive.sequence + 1))
    case Take(rows) => w.(batches := w.batches + {rows})
    case Halve(rows) => w.(batches := w.batches + {rows[..|rows| / 2]})
    case Upload(rows) => w.(archive := Uploaded(w.archive, SegmentOf(c, rows)), uploaded := w.uploaded + {rows})
    case CommitRows(rows, bucket, channel) =>
      match Commit(w.archive, SegmentOf(c, rows), bucket, channel)
      case Failed(_) => w
      case Done(a) => w.(archive := a)
  }

  ghost predicate Legal(c: Codec, w: World, acts: seq<Act>)
    decreases |acts|
  {
    acts == [] || (Can(c, w, acts[0]) && Legal(c, Do(c, w, acts[0]), acts[1..]))
  }

  ghost function Run(c: Codec, w: World, acts: seq<Act>): World
    requires Legal(c, w, acts)
    decreases |acts|
  {
    if acts == [] then w else Run(c, Do(c, w, acts[0]), acts[1..])
  }

  // ---- Invariant of the runs ----

  ghost predicate BatchesOk(c: Codec, w: World) {
    && (forall rows :: rows in w.batches ==> BatchOk(c, w.archive, rows))
    && (forall rows :: rows in w.uploaded ==> rows in w.batches && Fits(c, rows) && Stored(c, w.archive, rows))
  }

  /** The session's log has a row for the event. */
  ghost predicate HasEvent(c: Codec, a: Archive, session: Name, event: Name) {
    exists r :: InLog(c, a, session, r) && r.event == event
  }

  ghost predicate Complete(c: Codec, a: Archive) {
    forall k :: k in a.eventIds ==> HasEvent(c, a, k.session, k.event)
  }

  ghost predicate Archived(c: Codec, a: Archive, chat: Chat) {
    exists k :: k in a.sessions && k.channel == chat.channel && HasEvent(c, a, a.sessions[k], chat.event)
  }

  predicate Queued(a: Archive, chat: Chat) { chat.spoolId in a.unassigned && a.unassigned[chat.spoolId] == chat }

  ghost predicate Conserved(c: Codec, w: World) {
    && (forall chat :: chat in w.accepted ==> Queued(w.archive, chat) || Archived(c, w.archive, chat))
    && (forall id :: id in w.archive.unassigned ==>
                     w.archive.unassigned[id] in w.accepted && w.archive.unassigned[id].spoolId == id)
  }

  ghost predicate Consistent(c: Codec, w: World) {
    Inv(c, w.archive) && BatchesOk(c, w) && Complete(c, w.archive) && Conserved(c, w)
  }

  // ---- Steps ----

  lemma CandidateIsBatch(c: Codec, a: Archive, rows: seq<ChatRow>)
    requires Inv(c, a) && Candidate(a, rows)
    ensures BatchOk(c, a, rows)
  {
    var session, last := rows[0].session, |rows| - 1;
    forall i | 0 <= i < |rows|
      ensures RowFits(rows[i], session) && rows[i].position <= a.sequence && c.isUuid(session)
    {
      assert HotOk(c, a, rows[i].position);
    }
    forall r ensures r in rows <==> InLog(c, a, session, r) && rows[0].position <= r.position <= rows[last].position {
      if r in rows {
        var i :| 0 <= i < |rows| && rows[i] == r;
        AscendingAt(rows, i);
        assert i > 0 ==> rows[0].position < rows[i].position;
      } else if InLog(c, a, session, r) && rows[0].position <= r.position <= rows[last].position {
        CandidateIsWhole(c, a, rows, r);
      }
    }
  }

  lemma CandidateIsWhole(c: Codec, a: Archive, rows: seq<ChatRow>, r: ChatRow)
    requires Inv(c, a) && Candidate(a, rows)
    requires InLog(c, a, rows[0].session, r) && rows[0].position <= r.position <= LastPosition(rows)
    ensures r in rows
  {
    if !IsHot(a, rows[0].session, r) {
      var e :| e in a.entries && e.session == rows[0].session && r in RowsOf(c, a.objects, e);
      IndexedRow(c, a, e, r);
      assert false;
    }
  }

  lemma ExtendsKeepsBatches(c: Codec, w: World, b: Archive, added: Option<ChatRow>)
    requires BatchesOk(c, w) && Extends(c, w.archive, b, added)
    requires forall rows :: rows in w.uploaded ==> Stored(c, w.archive, rows) ==> Stored(c, b, rows)
    ensures BatchesOk(c, w.(archive := b))
  {
    forall rows | rows in w.batches ensures BatchOk(c, b, rows) { ExtendsKeepsBatch(c, w.archive, b, added, rows); }
  }

  lemma HasEventStays(c: Codec, a: Archive, b: Archive, added: Option<ChatRow>, session: Name, event: Name)
    requires Extends(c, a, b, added) && HasEvent(c, a, session, event)
    ensures HasEvent(c, b, session, event)
  {
    var r :| InLog(c, a, session, r) && r.event == event;
    assert InLog(c, b, session, r);
  }

  lemma ArchivedStays(c: Codec, a: Archive, b: Archive, added: Option<ChatRow>, chat: Chat)
    requires Extends(c, a, b, added) && Archived(c, a, chat)
    requires forall k :: k in a.sessions ==> k in b.sessions && b.sessions[k] == a.sessions[k]
    ensures Archived(c, b, chat)
  {
    var k :| k in a.sessions && k.channel == chat.channel && HasEvent(c, a, a.sessions[k], chat.event);
    HasEventStays(c, a, b, added, a.sessions[k], chat.event);
    assert k in b.sessions;
  }

  /** A step that adds no chat keeps what the chats are owed. */
  lemma QuietKeeps(c: Codec, w: World, b: Archive)
    requires Consistent(c, w) && Extends(c, w.archive, b, None)
    requires b.eventIds == w.archive.eventIds && b.sessions == w.archive.sessions
    requires b.unassigned == w.archive.unassigned
    ensures Complete(c, b) && Conserved(c, w.(archive := b))
  {
    forall k | k in b.eventIds ensures HasEvent(c, b, k.session, k.event) {
      HasEventStays(c, w.archive, b, None, k.session, k.event);
    }
    forall chat | chat in w.accepted ensures Queued(b, chat) || Archived(c, b, chat) {
      if !Queued(b, chat) { ArchivedStays(c, w.archive, b, None, chat); }
    }
  }

  lemma AppendStep(c: Codec, w: World, sources: set<Source>, chat: Chat, newId: Name) returns (added: Option<ChatRow>)
    requires Consistent(c, w) && Can(c, w, Append(sources, chat, newId))
    ensures Consistent(c, Do(c, w, Append(sources, chat, newId)))
    ensures Extends(c, w.archive, AppendChat(w.archive, sources, chat, newId), added)
  {
    var b := AppendChat(w.archive, sources, chat, newId);
    added := AppendKeeps(c, w.archive, sources, chat, newId);
    ExtendsKeepsBatches(c, w, b, added);
    if |Matching(sources, chat)| == 1 {
      var source := Only(Matching(sources, chat));
      assert source in Matching(sources, chat);
      AppendToExtends(c, w.archive, KeyOfSource(source), chat, newId);
      AssignedConserves(c, w, KeyOfSource(source), chat, newId);
    } else {
      QueuedConserves(c, w, b, chat, added);
    }
  }

  lemma QueuedConserves(c: Codec, w: World, b: Archive, chat: Chat, added: Option<ChatRow>)
    requires Consistent(c, w) && Extends(c, w.archive, b, added) && b == w.archive.(unassigned := b.unassigned)
    requires b.unassigned == if chat.spoolId in w.archive.unassigned then w.archive.unassigned
                             else w.archive.unassigned[chat.spoolId := chat]
    requires forall r :: r in w.accepted && r.spoolId == chat.spoolId ==> r == chat
    ensures Complete(c, b) && Conserved(c, w.(archive := b, accepted := w.accepted + {chat}))
  {
    forall k | k in b.eventIds ensures HasEvent(c, b, k.session, k.event) {
      HasEventStays(c, w.archive, b, added, k.session, k.event);
    }
    forall r | r in w.accepted + {chat} ensures Queued(b, r) || Archived(c, b, r) {
      if r != chat && !Queued(b, r) { ArchivedStays(c, w.archive, b, added, r); }
    }
  }

  lemma AssignedIsArchived(c: Codec, w: World, source: SourceKey, chat: Chat, newId: Name)
    requires Consistent(c, w) && source.channel == chat.channel
    ensures Complete(c, AppendTo(w.archive, source, chat, newId))
    ensures Archived(c, AppendTo(w.archive, source, chat, newId), chat)
  {
    var a, b := w.archive, AppendTo(w.archive, source, chat, newId);
    var session, added := SessionFor(a, source, newId), Added(a, source, chat, newId);
    AppendToExtends(c, a, source, chat, newId);
    forall k | k in b.eventIds ensures HasEvent(c, b, k.session, k.event) {
      if k in a.eventIds {
        HasEventStays(c, a, b, added, k.session, k.event);
      } else {
        assert InLog(c, b, session, added.value);
      }
    }
    assert EventKey(session, chat.event) in b.eventIds;
    assert source in b.sessions && b.sessions[source] == session;
  }

  lemma AssignedConserves(c: Codec, w: World, source: SourceKey, chat: Chat, newId: Name)
    requires Consistent(c, w) && source.channel == chat.channel
    requires forall r :: r in w.accepted && r.spoolId == chat.spoolId ==> r == chat
    ensures var b := AppendTo(w.archive, source, chat, newId);
            Complete(c, b) && Conserved(c, w.(archive := b, accepted := w.accepted + {chat}))
  {
    var a, b := w.archive, AppendTo(w.archive, source, chat, newId);
    AssignedIsArchived(c, w, source, chat, newId);
    AppendToExtends(c, a, source, chat, newId);
    forall r | r in w.accepted && Archived(c, a, r) ensures Archived(c, b, r) {
      ArchivedStays(c, a, b, Added(a, source, chat, newId), r);
    }
    OthersStayQueued(c, w, b, chat);
  }

  lemma OthersStayQueued(c: Codec, w: World, b: Archive, chat: Chat)
    requires Conserved(c, w) && b.unassigned == w.archive.unassigned - {chat.spoolId} && Archived(c, b, chat)
    requires forall r :: r in w.accepted && r.spoolId == chat.spoolId ==> r == chat
    requires forall r :: r in w.accepted && Archived(c, w.archive, r) ==> Archived(c, b, r)
    ensures Conserved(c, w.(archive := b, accepted := w.accepted + {chat}))
  {
  }

  lemma UploadStep(c: Codec, w: World, rows: seq<ChatRow>)
    requires Lawful(c) && Consistent(c, w) && Can(c, w, Upload(rows))
    ensures Consistent(c, Do(c, w, Upload(rows)))
    ensures Extends(c, w.archive, Do(c, w, Upload(rows)).archive, None)
  {
    var b := Uploaded(w.archive, SegmentOf(c, rows));
    UploadKeeps(c, w.archive, rows);
    ExtendsKeepsBatches(c, w, b, None);
    QuietKeeps(c, w, b);
  }

  lemma CommitStep(c: Codec, w: World, rows: seq<ChatRow>, bucket: Name, channel: Name)
    requires Lawful(c) && Consistent(c, w) && Can(c, w, CommitRows(rows, bucket, channel))
    ensures Consistent(c, Do(c, w, CommitRows(rows, bucket, channel)))
    ensures Extends(c, w.archive, Do(c, w, CommitRows(rows, bucket, channel)).archive, None)
    ensures Commit(w.archive, SegmentOf(c, rows), bucket, channel) != Failed(CountChanged)
  {
    CommitKeeps(c, w.archive, rows, bucket, channel);
    match Commit(w.archive, SegmentOf(c, rows), bucket, channel)
    case Failed(_) => QueueingKeeps(c, w.archive, w.archive);
    case Done(b) => CommittedKeepsConsistent(c, w, b);
  }

  lemma CommittedKeepsConsistent(c: Codec, w: World, b: Archive)
    requires Consistent(c, w) && Inv(c, b) && Extends(c, w.archive, b, None)
    requires b == w.archive.(entries := b.entries, hot := b.hot)
    ensures Consistent(c, w.(archive := b))
  {
    ExtendsKeepsBatches(c, w, b, None);
    QuietKeeps(c, w, b);
  }

  lemma AbortStep(c: Codec, w: World)
    requires Consistent(c, w)
    ensures Consistent(c, Do(c, w, Abort)) && Extends(c, w.archive, Do(c, w, Abort).archive, None)
  {
    var b := Do(c, w, Abort).archive;
    QueueingKeeps(c, w.archive, b);
    ExtendsKeepsBatches(c, w, b, None);
    QuietKeeps(c, w, b);
  }

  lemma TakeStep(c: Codec, w: World, rows: seq<ChatRow>)
    requires Consistent(c, w) && BatchOk(c, w.archive, rows)
    ensures Consistent(c, w.(batches := w.batches + {rows})) && Extends(c, w.archive, w.archive, None)
  {
    QueueingKeeps(c, w.archive, w.archive);
    QuietKeeps(c, w, w.archive);
    assert BatchesOk(c, w.(batches := w.batches + {rows}));
  }

  /** Every step keeps the invariant and extends at most one log, by one row at its end. */
  lemma StepKeepsConsistent(c: Codec, w: World, act: Act) returns (added: Option<ChatRow>)
    requires Lawful(c) && Consistent(c, w) && Can(c, w, act)
    ensures Consistent(c, Do(c, w, act)) && Extends(c, w.archive, Do(c, w, act).archive, added)
  {
    added := None;
    match act
    case Append(sources, chat, newId) => added := AppendStep(c, w, sources, chat, newId);
    case Abort => AbortStep(c, w);
    case Take(rows) => CandidateIsBatch(c, w.archive, rows); TakeStep(c, w, rows);
    case Halve(rows) => PrefixIsBatch(c, w.archive, rows, |rows| / 2); TakeStep(c, w, rows[..|rows| / 2]);
    case Upload(rows) => UploadStep(c, w, rows);
    case CommitRows(rows, bucket, channel) => CommitStep(c, w, rows, bucket, channel);
  }

  // ---- Whole runs ----

  lemma LogGrows(c: Codec, a: Archive, b: Archive, added: Option<ChatRow>, session: Name, log: seq<ChatRow>)
    returns (more: seq<ChatRow>)
    requires Inv(c, a) && Extends(c, a, b, added) && IsLog(c, a, session, log)
    ensures IsLog(c, b, session, log + more)
    ensures forall r :: r in more ==> r.position > a.sequence
  {
    more := if added.Some? && added.value.session == session then [added.value] else [];
    forall i | 0 <= i < |log| ensures log[i].position <= a.sequence {
      assert log[i] in log;
      LogRowOk(c, a, session, log[i]);
    }
    assert Ascending(log + more);
    forall r ensures r in log + more <==> InLog(c, b, session, r) {
    }
  }

  /** Between two archives the session's log grew by `more`, at its end. */
  ghost predicate Grown(c: Codec, a: Archive, b: Archive, session: Name, log: seq<ChatRow>, more: seq<ChatRow>) {
    && IsLog(c, a, session, log) && IsLog(c, b, session, log + more) && a.sequence <= b.sequence
    && forall r :: r in more ==> r.position > a.sequence
  }

  lemma StepGrowsLog(c: Codec, w: World, act: Act, session: Name, log: seq<ChatRow>) returns (more: seq<ChatRow>)
    requires Lawful(c) && Consistent(c, w) && Can(c, w, act) && IsLog(c, w.archive, session, log)
    ensures Consistent(c, Do(c, w, act)) && Grown(c, w.archive, Do(c, w, act).archive, session, log, more)
  {
    var added := StepKeepsConsistent(c, w, act);
    more := LogGrows(c, w.archive, Do(c, w, act).archive, added, session, log);
  }

  lemma GrownTwice(c: Codec, a: Archive, b: Archive, d: Archive, session: Name, log: seq<ChatRow>, now: seq<ChatRow>,
                   later: seq<ChatRow>)
    requires Grown(c, a, b, session, log, now) && Grown(c, b, d, session, log + now, later)
    ensures Grown(c, a, d, session, log, now + later)
  {
    assert log + now + later == log + (now + later);
  }

  /** Over any run a session's log only grows, at its end. */
  lemma {:induction false} RunGrowsLog(c: Codec, w: World, acts: seq<Act>, session: Name, log: seq<ChatRow>)
    returns (more: seq<ChatRow>)
    requires Lawful(c) && Consistent(c, w) && Legal(c, w, acts) && IsLog(c, w.archive, session, log)
    ensures Consistent(c, Run(c, w, acts)) && Grown(c, w.archive, Run(c, w, acts).archive, session, log, more)
    decreases |acts|
  {
    if acts == [] {
      more := [];
      assert log + more == log;
    } else {
      var next := Do(c, w, acts[0]);
      var now := StepGrowsLog(c, w, acts[0], session, log);
      var later := RunGrowsLog(c, next, acts[1..], session, log + now);
      GrownTwice(c, w.archive, next.archive, Run(c, w, acts).archive, session, log, now, later);
      more := now + later;
    }
  }

  lemma EmptyIsConsistent(c: Codec, session: Name)
    ensures Consistent(c, EMPTY) && IsLog(c, EMPTY.archive, session, [])
  {
  }

  ghost predicate Reachable(c: Codec, w: World) {
    exists acts :: Legal(c, EMPTY, acts) && Run(c, EMPTY, acts) == w
  }

  /** Every reachable archive is consistent and each session has a log, in one order, without repetition of
      positions or events. */
  lemma ReachableLog(c: Codec, w: World, session: Name) returns (log: seq<ChatRow>)
    requires Lawful(c) && Reachable(c, w)
    ensures Consistent(c, w) && IsLog(c, w.archive, session, log)
    ensures forall i, j :: 0 <= i < j < |log| ==> log[i].position < log[j].position && log[i].event != log[j].event
  {
    var acts :| Legal(c, EMPTY, acts) && Run(c, EMPTY, acts) == w;
    EmptyIsConsistent(c, session);
    var more := RunGrowsLog(c, EMPTY, acts, session, []);
    log := [] + more;
    forall i, j | 0 <= i < j < |log| ensures log[i].event != log[j].event {
      assert log[i] in log && log[j] in log && log[i].position < log[j].position;
      if log[i].event == log[j].event {
        LogRowsDiffer(c, w.archive, session, log[i], log[j]);
        assert false;
      }
    }
  }

  /** No accepted chat is lost: it waits for its broadcast or its event is in the log of a session of
      its channel. */
  lemma AcceptedIsKept(c: Codec, w: World, chat: Chat)
    requires Lawful(c) && Reachable(c, w) && chat in w.accepted
    ensures Queued(w.archive, chat) || Archived(c, w.archive, chat)
  {
    var log := ReachableLog(c, w, chat.channel);
  }

  /** Export is lossless: whatever stale batch is committed in a reachable archive, ranges stay
      disjoint and clear of hot rows, no log changes, and the row count always matches. */
  lemma ExportIsLossless(c: Codec, w: World, rows: seq<ChatRow>, bucket: Name, channel: Name, session: Name,
                         log: seq<ChatRow>)
    requires Lawful(c) && Reachable(c, w) && rows in w.uploaded && rows != []
    requires IsLog(c, w.archive, session, log)
    ensures Commit(w.archive, SegmentOf(c, rows), bucket, channel) != Failed(CountChanged)
    ensures var b := Do(c, w, CommitRows(rows, bucket, channel)).archive;
            RangesOk(w.archive) && RangesOk(b) && IsLog(c, b, session, log)
  {
    var _ := ReachableLog(c, w, session);
    CommitStep(c, w, rows, bucket, channel);
  }
}
