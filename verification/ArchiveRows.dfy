/** What the rows of the log say: each is an accepted chat, word for word, in a session of its channel,
    and each accepted chat whose event is new there becomes such a row. */
module ArchiveRows {
  import opened JournalTypes
  import opened Segments
  import opened ArchiveState
  import opened ArchiveLog
  import opened ArchiveExport
  import opened ArchiveRuns

  /** The row carries the chat. */
  predicate Says(r: ChatRow, chat: Chat) {
    && r.event == chat.event && r.receivedAt == chat.receivedAt
    && r.userIdVersion == chat.userIdVersion && r.publicUserId == chat.publicUserId
    && r.displayName == chat.displayName && r.message == chat.message
  }

  /** An accepted chat of a channel of the session, word for word. */
  ghost predicate Genuine(w: World, session: Name, r: ChatRow) {
    && r.session == session
    && exists chat :: chat in w.accepted && Says(r, chat) && Owned(w.archive, session, chat.channel)
  }

  ghost predicate AllGenuine(c: Codec, w: World) {
    forall session, r :: InLog(c, w.archive, session, r) ==> Genuine(w, session, r)
  }

  lemma OwnedStays(a: Archive, b: Archive, session: Name, channel: Name)
    requires Owned(a, session, channel)
    requires forall k :: k in a.sessions ==> k in b.sessions && b.sessions[k] == a.sessions[k]
    ensures Owned(b, session, channel)
  {
    var k :| k in a.sessions && k.channel == channel && a.sessions[k] == session;
    assert k in b.sessions;
  }

  lemma GenuineStays(w: World, v: World, session: Name, r: ChatRow)
    requires Genuine(w, session, r) && w.accepted <= v.accepted
    requires forall k :: k in w.archive.sessions ==>
               k in v.archive.sessions && v.archive.sessions[k] == w.archive.sessions[k]
    ensures Genuine(v, session, r)
  {
    var chat :| chat in w.accepted && Says(r, chat) && Owned(w.archive, session, chat.channel);
    OwnedStays(w.archive, v.archive, session, chat.channel);
  }

  lemma ExtendedIsGenuine(c: Codec, w: World, v: World, added: Option<ChatRow>)
    requires AllGenuine(c, w) && Extends(c, w.archive, v.archive, added) && w.accepted <= v.accepted
    requires forall k :: k in w.archive.sessions ==>
               k in v.archive.sessions && v.archive.sessions[k] == w.archive.sessions[k]
    requires added.Some? ==> Genuine(v, added.value.session, added.value)
    ensures AllGenuine(c, v)
  {
    forall session, r | InLog(c, v.archive, session, r) ensures Genuine(v, session, r) {
      if InLog(c, w.archive, session, r) { GenuineStays(w, v, session, r); }
    }
  }

  /** What an append adds for a chat that has its broadcast. */
  lemma AssignedRow(c: Codec, w: World, sources: set<Source>, chat: Chat, newId: Name)
    requires Inv(c, w.archive) && Can(c, w, Append(sources, chat, newId)) && |Matching(sources, chat)| == 1
    ensures var v := Do(c, w, Append(sources, chat, newId));
            var key := KeyOfSource(Only(Matching(sources, chat)));
            var added := Added(w.archive, key, chat, newId);
            && key.channel == chat.channel && key in v.archive.sessions
            && v.archive.unassigned == w.archive.unassigned - {chat.spoolId}
            && Extends(c, w.archive, v.archive, added)
            && (added.Some? ==>
                  && Says(added.value, chat) && added.value.session == v.archive.sessions[key]
                  && Genuine(v, added.value.session, added.value))
  {
    var v := Do(c, w, Append(sources, chat, newId));
    var source := Only(Matching(sources, chat));
    assert source in Matching(sources, chat);
    AppendToExtends(c, w.archive, KeyOfSource(source), chat, newId);
    assert chat in v.accepted && Owned(v.archive, v.archive.sessions[KeyOfSource(source)], chat.channel);
  }

  lemma StepKeepsGenuine(c: Codec, w: World, act: Act)
    requires Lawful(c) && Consistent(c, w) && AllGenuine(c, w) && Can(c, w, act)
    ensures AllGenuine(c, Do(c, w, act))
  {
    var v := Do(c, w, act);
    SessionsStay(c, w, act);
    if act.Append? && |Matching(act.sources, act.chat)| == 1 {
      AssignedRow(c, w, act.sources, act.chat, act.newId);
      var key := KeyOfSource(Only(Matching(act.sources, act.chat)));
      ExtendedIsGenuine(c, w, v, Added(w.archive, key, act.chat, act.newId));
    } else {
      OtherStepsAddNothing(c, w, act);
      ExtendedIsGenuine(c, w, v, None);
    }
  }

  lemma SessionsStay(c: Codec, w: World, act: Act)
    requires Can(c, w, act)
    ensures var v := Do(c, w, act);
            && w.accepted <= v.accepted
            && forall k :: k in w.archive.sessions ==>
                 k in v.archive.sessions && v.archive.sessions[k] == w.archive.sessions[k]
  {
  }

  lemma OtherStepsAddNothing(c: Codec, w: World, act: Act)
    requires Lawful(c) && Consistent(c, w) && Can(c, w, act)
    requires act.Append? ==> |Matching(act.sources, act.chat)| != 1
    ensures Extends(c, w.archive, Do(c, w, act).archive, None)
  {
    match act
    case Append(sources, chat, newId) => QueueingKeeps(c, w.archive, Do(c, w, act).archive);
    case Abort => AbortStep(c, w);
    case Take(rows) => QueueingKeeps(c, w.archive, w.archive);
    case Halve(rows) => QueueingKeeps(c, w.archive, w.archive);
    case Upload(rows) => UploadStep(c, w, rows);
    case CommitRows(rows, bucket, channel) => CommitStep(c, w, rows, bucket, channel);
  }

  lemma {:induction false} RunKeepsGenuine(c: Codec, w: World, acts: seq<Act>)
    requires Lawful(c) && Consistent(c, w) && AllGenuine(c, w) && Legal(c, w, acts)
    ensures AllGenuine(c, Run(c, w, acts))
    decreases |acts|
  {
    if acts != [] {
      var _ := StepKeepsConsistent(c, w, acts[0]);
      StepKeepsGenuine(c, w, acts[0]);
      RunKeepsGenuine(c, Do(c, w, acts[0]), acts[1..]);
    }
  }

  /** In every reachable archive each row of a log is an accepted chat of a channel of that session, word
      for word. */
  lemma RowsAreGenuine(c: Codec, w: World, session: Name, r: ChatRow)
    requires Lawful(c) && Reachable(c, w) && InLog(c, w.archive, session, r)
    ensures r.session == session
    ensures exists chat ::
              && chat in w.accepted && Owned(w.archive, session, chat.channel) && r.event == chat.event
              && r.receivedAt == chat.receivedAt && r.userIdVersion == chat.userIdVersion
              && r.publicUserId == chat.publicUserId && r.displayName == chat.displayName && r.message == chat.message
  {
    var acts :| Legal(c, EMPTY, acts) && Run(c, EMPTY, acts) == w;
    EmptyIsConsistent(c, session);
    RunKeepsGenuine(c, EMPTY, acts);
    assert Genuine(w, session, r);
  }

  /** Every accepted chat waits, or its event has a row in a session of its channel, and that row is an
      accepted chat word for word. */
  lemma AcceptedIsShown(c: Codec, w: World, chat: Chat)
    requires Lawful(c) && Reachable(c, w) && chat in w.accepted
    ensures Queued(w.archive, chat) ||
            exists session, r :: Owned(w.archive, session, chat.channel) && InLog(c, w.archive, session, r)
                                 && r.event == chat.event && Genuine(w, session, r)
  {
    AcceptedIsKept(c, w, chat);
    if !Queued(w.archive, chat) {
      var k :| k in w.archive.sessions && k.channel == chat.channel
               && HasEvent(c, w.archive, w.archive.sessions[k], chat.event);
      var r :| InLog(c, w.archive, w.archive.sessions[k], r) && r.event == chat.event;
      RowsAreGenuine(c, w, w.archive.sessions[k], r);
    }
  }

  /** When a broadcast counts as running: from half a minute before it was first observed and started, to
      its end, and no longer than ten minutes after it was last seen. */
  lemma CoversWindow(b: Source, r: Chat)
    ensures Covers(b, r) <==>
              && b.channel == r.channel
              && r.receivedAt >= (if b.observedAt < b.startedAt then b.startedAt else b.observedAt) - 30 * SECOND
              && r.receivedAt <= b.lastSeenAt + 600 * SECOND
              && (b.endedAt.Some? ==> r.receivedAt <= b.endedAt.value)
  {
  }

  lemma LoggedIsRecorded(c: Codec, a: Archive, session: Name, event: Name)
    requires Inv(c, a) && EventKey(session, event) in a.eventIds && Complete(c, a)
    ensures HasEvent(c, a, session, event)
  {
  }

  lemma {:induction false} RowStays(c: Codec, w: World, acts: seq<Act>, session: Name, r: ChatRow)
    requires Lawful(c) && Consistent(c, w) && Legal(c, w, acts) && InLog(c, w.archive, session, r)
    ensures InLog(c, Run(c, w, acts).archive, session, r)
    decreases |acts|
  {
    if acts != [] {
      var _ := StepKeepsConsistent(c, w, acts[0]);
      RowStays(c, Do(c, w, acts[0]), acts[1..], session, r);
    }
  }

  /** An accepted chat with exactly one running broadcast, whose event is not in the log of that
      broadcast's session, is in it from then on, word for word and past all earlier rows, and no longer
      waits. */
  lemma NewChatIsLogged(c: Codec, w: World, sources: set<Source>, b: Source, chat: Chat, newId: Name, acts: seq<Act>)
    returns (r: ChatRow)
    requires Lawful(c) && Reachable(c, w) && Can(c, w, Append(sources, chat, newId))
    requires b in sources && Covers(b, chat) && forall other :: other in sources && Covers(other, chat) ==> other == b
    requires Legal(c, Do(c, w, Append(sources, chat, newId)), acts)
    requires var k := SourceKey(b.channel, b.startedAt, b.sequence);
             !HasEvent(c, w.archive, if k in w.archive.sessions then w.archive.sessions[k] else newId, chat.event)
    ensures var k, v := SourceKey(b.channel, b.startedAt, b.sequence), Do(c, w, Append(sources, chat, newId));
            && k in v.archive.sessions && v.archive.unassigned == w.archive.unassigned - {chat.spoolId}
            && (k in w.archive.sessions ==> v.archive.sessions[k] == w.archive.sessions[k])
            && InLog(c, Run(c, v, acts).archive, v.archive.sessions[k], r)
            && r.position > w.archive.sequence && Says(r, chat)
  {
    var _ := ReachableLog(c, w, newId);
    OnlyOne(Matching(sources, chat), b);
    var v := Do(c, w, Append(sources, chat, newId));
    var key := KeyOfSource(b);
    AssignedRow(c, w, sources, chat, newId);
    var added := Added(w.archive, key, chat, newId);
    if added.None? { LoggedIsRecorded(c, w.archive, SessionFor(w.archive, key, newId), chat.event); }
    r := added.value;
    assert InLog(c, v.archive, r.session, r);
    var _ := StepKeepsConsistent(c, w, Append(sources, chat, newId));
    RowStays(c, v, acts, r.session, r);
  }

  lemma OnlyOne(s: set<Source>, b: Source)
    requires b in s && forall other :: other in s ==> other == b
    ensures |s| == 1 && Only(s) == b
  {
    assert s == {b};
  }

  /** A chat without exactly one running broadcast waits as it is, unless its spool ID already does. */
  lemma OtherChatsWait(a: Archive, sources: set<Source>, chat: Chat, newId: Name)
    requires |Matching(sources, chat)| != 1
    ensures var b := AppendChat(a, sources, chat, newId);
            && b == a.(unassigned := b.unassigned) && chat.spoolId in b.unassigned
            && b.unassigned.Keys == a.unassigned.Keys + {chat.spoolId}
            && (forall id :: id in a.unassigned ==> b.unassigned[id] == a.unassigned[id])
            && (chat.spoolId !in a.unassigned ==> b.unassigned[chat.spoolId] == chat)
  {
  }
}
