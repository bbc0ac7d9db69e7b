/** The chat archive: hot rows, the permanent event-ID index, the segment index, the object store and
    the queue of chats without a session, with the transactions that change them. */
module ArchiveState {
  import opened JournalTypes
  import opened Segments

  datatype EventKey = EventKey(session: Name, event: Name)

  /** A broadcast as observed by discovery; chats are attributed to it by receive time. */
  datatype Source = Source(channel: Name, startedAt: Time, sequence: int, observedAt: Time,
                           lastSeenAt: Time, endedAt: Option<Time>)
  datatype SourceKey = SourceKey(channel: Name, startedAt: Time, sequence: int)

  function KeyOfSource(b: Source): SourceKey { SourceKey(b.channel, b.startedAt, b.sequence) }

  /** A spooled chat, before a position is known. */
  datatype Chat = Chat(spoolId: Name, event: Name, channel: Name, receivedAt: Time,
                       userIdVersion: int, publicUserId: Name, displayName: Name, message: Name)

  datatype Entry = Entry(session: Name, first: int, last: int, count: nat, bucket: Name, key: ObjectKey, sha: Name)

  function EntryOf(s: Segment, bucket: Name): Entry {
    Entry(s.session, s.first, s.last, s.count, bucket, KeyOf(s), s.sha)
  }

  /** `sequence` is the last position issued; `sessions` names the archive session of each broadcast. */
  datatype Archive = Archive(
    sequence: nat,
    sessions: map<SourceKey, Name>,
    eventIds: map<EventKey, int>,
    hot: map<int, ChatRow>,
    entries: set<Entry>,
    objects: map<ObjectKey, Bytes>,
    unassigned: map<Name, Chat>)

  predicate InRange(e: Entry, position: int) { e.first <= position <= e.last }

  predicate Overlap(e: Entry, first: int, last: int) { !(e.last < first || e.first > last) }

  predicate Owned(a: Archive, session: Name, channel: Name) {
    exists k :: k in a.sessions && k.channel == channel && a.sessions[k] == session
  }

  // ---- Appending ----

  predicate Hex(s: string) {
    forall i :: 0 <= i < |s| ==> '0' <= s[i] <= '9' || 'a' <= s[i] <= 'f' || 'A' <= s[i] <= 'F'
  }

  predicate Acceptable(c: Codec, r: Chat) {
    && c.isUuid(r.spoolId) && 0 < |r.event.text| <= 255 && r.channel.text != "" && r.receivedAt != 0
    && r.userIdVersion >= 1 && |r.message.text| <= 65536 && |r.displayName.text| <= 2048
    && |r.publicUserId.text| == 64 && Hex(r.publicUserId.text)
  }

  /** Whether a broadcast was running when the chat was received. */
  predicate Covers(b: Source, r: Chat) {
    && b.channel == r.channel
    && b.observedAt <= r.receivedAt + 30 * SECOND && b.startedAt <= r.receivedAt + 30 * SECOND
    && b.lastSeenAt >= r.receivedAt - 600 * SECOND
    && (b.endedAt.None? || b.endedAt.value >= r.receivedAt)
  }

  function Matching(sources: set<Source>, r: Chat): set<Source> {
    set b | b in sources && Covers(b, r)
  }

  /** A chat whose broadcast is absent or ambiguous waits; otherwise it goes to the broadcast's
      session, unless that session has the event already. `newId` names a session not yet created. */
  function AppendChat(a: Archive, sources: set<Source>, r: Chat, newId: Name): Archive {
    if |Matching(sources, r)| != 1 then
      if r.spoolId in a.unassigned then a else a.(unassigned := a.unassigned[r.spoolId := r])
    else
      AppendTo(a, KeyOfSource(Only(Matching(sources, r))), r, newId)
  }

  function Only<T(==)>(s: set<T>): (x: T)
    requires |s| == 1
    ensures s == {x}
  {
    OneElement(s);
    var x :| x in s;
    x
  }

  lemma OneElement<T>(s: set<T>)
    requires |s| == 1
    ensures forall x, y :: x in s && y in s ==> x == y
  {
    forall x, y | x in s && y in s ensures x == y {
      var rest := s - {x};
      assert |rest| == 0 && y !in rest;
    }
  }

  function SessionFor(a: Archive, source: SourceKey, newId: Name): Name {
    if source in a.sessions then a.sessions[source] else newId
  }

  function RowFor(r: Chat, session: Name, position: int): ChatRow {
    ChatRow(session, position, r.event, r.receivedAt, r.userIdVersion, r.publicUserId, r.displayName, r.message)
  }

  /** The next position is drawn whether or not the event turns out to be known. */
  function AppendTo(a: Archive, source: SourceKey, r: Chat, newId: Name): Archive {
    var session, position := SessionFor(a, source, newId), a.sequence + 1;
    var b := a.(sequence := position, sessions := a.sessions[source := session],
                unassigned := a.unassigned - {r.spoolId});
    if EventKey(session, r.event) in a.eventIds then b
    else
      b.(eventIds := a.eventIds[EventKey(session, r.event) := position],
         hot := a.hot[position := RowFor(r, session, position)])
  }

  // ---- Exporting ----

  datatype CommitError = NotOwned | Overlapping | CountChanged | Unverified
  datatype Committed = Done(archive: Archive) | Failed(error: CommitError)

  function Kept(hot: map<int, ChatRow>, session: Name, first: int, last: int): map<int, ChatRow> {
    map p | p in hot && !(hot[p].session == session && first <= p <= last) :: hot[p]
  }

  /** Index the segment and drop its hot rows, all or nothing. Committing it again is harmless. */
  function Commit(a: Archive, s: Segment, bucket: Name, channel: Name): (r: Committed)
    ensures r.Done? ==>
              && EntryOf(s, bucket) in r.archive.entries
              && r.archive == a.(entries := r.archive.entries, hot := r.archive.hot)
  {
    if !Owned(a, s.session, channel) then Failed(NotOwned)
    else if EntryOf(s, bucket) in a.entries then Done(a)
    else if exists e :: e in a.entries && e.session == s.session && Overlap(e, s.first, s.last) then Failed(Overlapping)
    else
      var kept := Kept(a.hot, s.session, s.first, s.last);
      if |a.hot| - |kept| != s.count then Failed(CountChanged)
      else Done(a.(entries := a.entries + {EntryOf(s, bucket)}, hot := kept))
  }

  /** Uploading never changes another object: the key carries the digest of the body. */
  function Uploaded(a: Archive, s: Segment): Archive {
    a.(objects := a.objects[KeyOf(s) := s.body])
  }
}
