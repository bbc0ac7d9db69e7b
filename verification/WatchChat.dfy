/** Watching a channel's chat by polling its stream: an event without a gap mark follows directly on
    the one before. */
module WatchChat {
  import opened JournalTypes
  import opened ChatStream
  import opened ChatTrace
  import opened ChatTour

  datatype Cursor = Cursor(generation: Name, id: Id)
  datatype Status = Watching | InvalidCursor | NoGeneration | StreamReset | BeyondStream

  /** No chat entry lies strictly between two IDs. */
  predicate Quiet(all: seq<Entry>, from: Id, to: Id) {
    forall i :: 0 <= i < |all| && Before(from, all[i].id) && Before(all[i].id, to) ==> !IsChat(all[i])
  }

  /** Events in stream order, all of them chats of the stream; where one has no gap mark there was no
      chat between it and the one before (or the cursor the reader came with). */
  ghost predicate Sound(all: seq<Entry>, start: Id, sent: seq<ChatEvent>) {
    && (forall i :: 0 <= i < |sent| ==> sent[i].entry in all && IsChat(sent[i].entry) && sent[i].entry.observedAt.Some?)
    && (forall i, j :: 0 <= i < j < |sent| ==> Before(sent[i].entry.id, sent[j].entry.id))
    && (forall i :: 0 < i < |sent| && !sent[i].gapBefore ==> Quiet(all, sent[i - 1].entry.id, sent[i].entry.id))
    && (start != ZERO && 0 < |sent| && !sent[0].gapBefore ==> Quiet(all, start, sent[0].entry.id))
  }

  function LastSent(start: Id, sent: seq<ChatEvent>): Id { if sent == [] then start else sent[|sent| - 1].entry.id }

  /** The reader has dealt with everything up to `after`: what it did not send is marked as a gap. */
  ghost predicate Caught(all: seq<Entry>, start: Id, after: Id, gap: bool, sent: seq<ChatEvent>) {
    && Sound(all, start, sent)
    && (|| after == LastSent(start, sent)
        || (exists i :: 0 <= i < |all| && all[i].id == after && Before(LastSent(start, sent), after)))
    && (!gap && (sent != [] || start != ZERO) ==> QuietUpTo(all, LastSent(start, sent), after))
  }

  predicate QuietUpTo(all: seq<Entry>, from: Id, to: Id) {
    forall i :: 0 <= i < |all| && Before(from, all[i].id) && !Before(to, all[i].id) ==> !IsChat(all[i])
  }

  /** Nothing unread lies before index `b`, unless a gap is marked or nothing precedes the next event. */
  ghost predicate Ready(all: seq<Entry>, start: Id, after: Id, gap: bool, sent: seq<ChatEvent>, b: nat) {
    && b <= |all| && (forall i :: b <= i < |all| ==> Before(after, all[i].id))
    && (gap || (sent == [] && start == ZERO) || forall i :: 0 <= i < b ==> !Before(after, all[i].id))
  }

  lemma SoundGrows(all: seq<Entry>, more: seq<Entry>, start: Id, sent: seq<ChatEvent>)
    requires ChatStream.Ascending(more) && all <= more && Sound(all, start, sent)
    ensures Sound(more, start, sent)
  {
    forall i | 0 <= i < |sent|
      ensures sent[i].entry in more && forall k :: |all| <= k < |more| ==> !Before(more[k].id, sent[i].entry.id)
    {
      AddedLater(all, more, sent[i].entry);
    }
    forall i | 0 < i < |sent| && !sent[i].gapBefore ensures Quiet(more, sent[i - 1].entry.id, sent[i].entry.id) { }
  }

  lemma AddedLater(all: seq<Entry>, more: seq<Entry>, e: Entry)
    requires ChatStream.Ascending(more) && all <= more && e in all
    ensures e in more && forall k :: |all| <= k < |more| ==> Before(e.id, more[k].id)
  {
    var i :| 0 <= i < |all| && all[i] == e;
    assert more[i] == e;
  }

  /** What the reader dealt with stays dealt with when the stream grows. */
  lemma CaughtGrows(all: seq<Entry>, more: seq<Entry>, start: Id, after: Id, gap: bool, sent: seq<ChatEvent>)
    requires ChatStream.Ascending(more) && all <= more && Caught(all, start, after, gap, sent)
    ensures Caught(more, start, after, gap, sent)
  {
    SoundGrows(all, more, start, sent);
    if after != LastSent(start, sent) {
      var i :| 0 <= i < |all| && all[i].id == after && Before(LastSent(start, sent), after);
      AddedLater(all, more, all[i]);
      assert more[i].id == after;
    }
  }

  lemma SkipStep(all: seq<Entry>, start: Id, after: Id, gap: bool, sent: seq<ChatEvent>, b: nat, mark: bool)
    requires ChatStream.Ascending(all) && Caught(all, start, after, gap, sent) && Ready(all, start, after, gap, sent, b)
    requires b < |all| && (IsChat(all[b]) ==> mark)
    ensures Caught(all, start, all[b].id, gap || mark, sent) && Ready(all, start, all[b].id, gap || mark, sent, b + 1)
  {
    assert all[b].id == all[b].id && Before(LastSent(start, sent), all[b].id) by {
      if after != LastSent(start, sent) { Transitive(LastSent(start, sent), after, all[b].id); }
    }
  }

  lemma SendStep(all: seq<Entry>, start: Id, after: Id, gap: bool, sent: seq<ChatEvent>, b: nat, generation: Name)
    requires ChatStream.Ascending(all) && Caught(all, start, after, gap, sent) && Ready(all, start, after, gap, sent, b)
    requires b < |all| && IsChat(all[b]) && all[b].observedAt.Some?
    ensures var more := sent + [ChatEvent(all[b], generation, gap)];
            Caught(all, start, all[b].id, false, more) && Ready(all, start, all[b].id, false, more, b + 1)
  {
    var more := sent + [ChatEvent(all[b], generation, gap)];
    var last := LastSent(start, sent);
    Transitive(last, after, all[b].id);
    forall i | 0 <= i < |sent|
      ensures Before(sent[i].entry.id, all[b].id)
    {
      Transitive(sent[i].entry.id, last, all[b].id);
    }
    if !gap && (sent != [] || start != ZERO) {
      assert Quiet(all, last, all[b].id) by {
        forall i | 0 <= i < |all| && Before(last, all[i].id) && Before(all[i].id, all[b].id)
          ensures !IsChat(all[i])
        {
          assert i < b;
        }
      }
    }
    forall i | 0 < i < |more| && !more[i].gapBefore ensures Quiet(all, more[i - 1].entry.id, more[i].entry.id) {
      assert i < |sent| ==> more[i] == sent[i];
    }
    assert LastSent(start, more) == all[b].id;
  }

  /** Caught up to `after` and ready for the entry at index `b`. */
  ghost predicate AtEntry(all: seq<Entry>, start: Id, after: Id, gap: bool, sent: seq<ChatEvent>, b: nat) {
    Caught(all, start, after, gap, sent) && Ready(all, start, after, gap, sent, b)
  }

  /** What was sent, and whether a gap is marked now, is what the reader went through. */
  ghost predicate Kept(k: Account, trace: seq<Moment>, generation: Name, gap: bool, sent: seq<ChatEvent>) {
    sent == k.events(trace, generation) && gap == k.marked(trace)
  }

  /** Sends one entry, or passes over it. */
  method Handle(ghost k: Account, ghost all: seq<Entry>, msg: Entry, ghost b: nat, ghost start: Id, ghost after: Id,
                gap0: bool, sent0: seq<ChatEvent>, generation: Name, ghost trace: seq<Moment>)
    returns (gap: bool, sent: seq<ChatEvent>)
    requires Accounts(k)
    requires ChatStream.Ascending(all) && AtEntry(all, start, after, gap0, sent0, b) && b < |all| && msg == all[b]
    requires Kept(k, trace, generation, gap0, sent0)
    ensures AtEntry(all, start, msg.id, gap, sent, b + 1)
    ensures sent == if msg.chat && msg.user.text != "" && msg.observedAt.Some?
                    then sent0 + [ChatEvent(msg, generation, gap0)] else sent0
    ensures gap == if !msg.chat || msg.user.text == "" then gap0 else msg.observedAt.None?
    ensures Kept(k, trace + [Passed(msg)], generation, gap, sent)
  {
    gap, sent := gap0, sent0;
    assert AccountStep(k, trace, Passed(msg), generation);
    if !msg.chat || msg.user.text == "" {
      SkipStep(all, start, after, gap, sent, b, false);
    } else if msg.observedAt.None? {
      SkipStep(all, start, after, gap, sent, b, true);
      gap := true;
    } else {
      SendStep(all, start, after, gap, sent, b, generation);
      sent, gap := sent + [ChatEvent(msg, generation, gap)], false;
    }
  }

  ghost predicate Extended(before: seq<ChatEvent>, sent: seq<ChatEvent>, generation: Name) {
    before <= sent && forall i :: |before| <= i < |sent| ==> sent[i].generation == generation
  }

  /** Handles one batch: the entries of the stream from index `b` on. */
  method Deliver(ghost k: Account, ghost all: seq<Entry>, messages: seq<Entry>, ghost b: nat, ghost start: Id,
                 after0: Id, gap0: bool, sent0: seq<ChatEvent>, generation: Name, ghost trace: seq<Moment>)
    returns (after: Id, gap: bool, sent: seq<ChatEvent>)
    requires Accounts(k)
    requires ChatStream.Ascending(all) && AtEntry(all, start, after0, gap0, sent0, b)
    requires b + |messages| <= |all| && messages == all[b..b + |messages|] && messages != []
    requires Kept(k, trace, generation, gap0, sent0)
    ensures Caught(all, start, after, gap, sent) && Extended(sent0, sent, generation)
    ensures after == messages[|messages| - 1].id
    ensures Kept(k, trace + Passings(messages), generation, gap, sent)
    ensures EntriesOf(sent) == EntriesOf(sent0) + ChatsOf(messages)
  {
    after, gap, sent := after0, gap0, sent0;
    var i := 0;
    DeliveringNone(k, all, messages, b, start, after, gap, sent, generation, trace);
    while i < |messages|
      invariant 0 <= i <= |messages|
      invariant Delivering(k, all, messages, b, i, start, after, gap, sent0, sent, generation, trace)
    {
      ghost var gap1, sent1 := gap, sent;
      gap, sent := Handle(k, all, messages[i], b + i, start, after, gap, sent, generation,
                          trace + Passings(messages[..i]));
      DeliveringNext(k, all, messages, b, i, start, after, gap1, sent0, sent1, generation, trace, gap, sent);
      after, i := messages[i].id, i + 1;
    }
    DeliveredAll(k, all, messages, b, start, after, gap, sent0, sent, generation, trace, gap0);
  }

  lemma DeliveredAll(k: Account, all: seq<Entry>, messages: seq<Entry>, b: nat, start: Id, after: Id, gap: bool,
                     sent0: seq<ChatEvent>, sent: seq<ChatEvent>, generation: Name, trace: seq<Moment>, gap0: bool)
    requires Accounts(k)
    requires Delivering(k, all, messages, b, |messages|, start, after, gap, sent0, sent, generation, trace)
    requires messages != [] && Kept(k, trace, generation, gap0, sent0)
    ensures Caught(all, start, after, gap, sent) && Extended(sent0, sent, generation)
    ensures after == messages[|messages| - 1].id && Kept(k, trace + Passings(messages), generation, gap, sent)
    ensures EntriesOf(sent) == EntriesOf(sent0) + ChatsOf(messages)
  {
    assert messages[..|messages|] == messages;
    BatchIsSent(k, trace, messages, generation);
  }

  lemma DeliveringNone(k: Account, all: seq<Entry>, messages: seq<Entry>, b: nat, start: Id, after: Id, gap: bool,
                       sent: seq<ChatEvent>, generation: Name, trace: seq<Moment>)
    requires AtEntry(all, start, after, gap, sent, b) && Kept(k, trace, generation, gap, sent)
    ensures Delivering(k, all, messages, b, 0, start, after, gap, sent, sent, generation, trace)
  {
    assert trace + Passings(messages[..0]) == trace;
  }

  /** The first `i` entries of the batch have been handled. */
  ghost predicate Delivering(k: Account, all: seq<Entry>, messages: seq<Entry>, b: nat, i: nat, start: Id, after: Id,
                             gap: bool, sent0: seq<ChatEvent>, sent: seq<ChatEvent>, generation: Name,
                             trace: seq<Moment>)
  {
    && i <= |messages| && Extended(sent0, sent, generation) && AtEntry(all, start, after, gap, sent, b + i)
    && (i > 0 ==> after == messages[i - 1].id)
    && Kept(k, trace + Passings(messages[..i]), generation, gap, sent)
  }

  lemma DeliveringNext(k: Account, all: seq<Entry>, messages: seq<Entry>, b: nat, i: nat, start: Id, after: Id,
                       gap: bool, sent0: seq<ChatEvent>, sent: seq<ChatEvent>, generation: Name, trace: seq<Moment>,
                       gap': bool, sent': seq<ChatEvent>)
    requires Delivering(k, all, messages, b, i, start, after, gap, sent0, sent, generation, trace) && i < |messages|
    requires AtEntry(all, start, messages[i].id, gap', sent', b + i + 1)
    requires sent' == sent || sent' == sent + [ChatEvent(messages[i], generation, gap)]
    requires Kept(k, trace + Passings(messages[..i]) + [Passed(messages[i])], generation, gap', sent')
    ensures Delivering(k, all, messages, b, i + 1, start, messages[i].id, gap', sent0, sent', generation, trace)
  {
    PassingsNext(messages, i);
    assert trace + Passings(messages[..i]) + [Passed(messages[i])] == trace + Passings(messages[..i + 1]);
  }

  lemma SentIsNotZero(all: seq<Entry>, start: Id, sent: seq<ChatEvent>)
    requires Sound(all, start, sent) && forall i :: 0 <= i < |all| ==> all[i].id != ZERO
    ensures sent != [] ==> LastSent(start, sent) != ZERO
  {
    assert sent != [] ==> sent[|sent| - 1].entry in all;
  }

  /** After the check against the oldest retained entry the reader is ready for the batch. */
  lemma PollIsReady(s: Stream, start: Id, after: Id, gap: bool, sent: seq<ChatEvent>)
    requires WellFormed(s) && Caught(s.all, start, after, gap, sent)
    ensures var gap' := gap || GapAt(after, Read(s, after));
            && Caught(s.all, start, after, gap', sent)
            && (Read(s, after).messages != [] ==> AtEntry(s.all, start, after, gap', sent, BatchStart(s, after)))
  {
    BatchSplits(s, after);
    SentIsNotZero(s.all, start, sent);
    if after != ZERO && s.trimmed < |s.all| && !Before(after, s.all[s.trimmed].id) {
      forall i | 0 <= i < s.trimmed ensures !Before(after, s.all[i].id) {
        Transitive(after, s.all[i].id, s.all[s.trimmed].id);
      }
    }
  }

  /** Every poll had the generation of the call, but for polls of a stream that had none yet at the start
      of a call without a cursor. */
  ghost predicate Steady(polls: seq<Stream>, n: nat, cursor: Option<Cursor>, generation: Option<Name>) {
    n <= |polls| && forall i :: 0 <= i < n ==> SteadyAt(polls, i, cursor, generation)
  }

  ghost predicate SteadyAt(polls: seq<Stream>, i: nat, cursor: Option<Cursor>, generation: Option<Name>)
    requires i < |polls|
  {
    polls[i].generation == generation || (cursor.None? && NoneUpTo(polls, i))
  }

  /** Until a generation is known, the reader has gone through nothing. */
  ghost predicate TracedBy(k: Account, trace: seq<Moment>, generation: Option<Name>, gap: bool, sent: seq<ChatEvent>) {
    if generation.None? then trace == [] && sent == [] && !gap else Kept(k, trace, generation.value, gap, sent)
  }

  ghost predicate Went(start: Id, polls: seq<Stream>, n: nat, generation: Option<Name>)
    requires Readable(polls)
  {
    n <= |polls| && forall i :: 0 <= i < n ==> WentAt(start, polls, i, generation)
  }

  ghost predicate WentAt(start: Id, polls: seq<Stream>, i: nat, generation: Option<Name>)
    requires Readable(polls) && i < |polls|
  {
    (generation.Some? && polls[i].generation == generation) || Waiting(start, polls, i)
  }

  /** Where the reader is after `n` polls, and what it went through. */
  ghost predicate Tracked(k: Account, start: Id, polls: seq<Stream>, n: nat, generation: Option<Name>, after: Id,
                          gap: bool, sent: seq<ChatEvent>)
  {
    && Readable(polls) && n <= |polls| && after == CursorAt(start, polls, n) && Went(start, polls, n, generation)
    && TracedBy(k, TraceOf(start, polls, n), generation, gap, sent)
  }

  /** What the reader has after `n` polls: until a generation is known, nothing; then all of its events
      come from the stream of that generation, and the last poll still had it. */
  ghost predicate Progress(polls: seq<Stream>, n: nat, cursor: Option<Cursor>, start: Id, generation: Option<Name>,
                           after: Id, gap: bool, sent: seq<ChatEvent>)
  {
    && Steady(polls, n, cursor, generation) && (cursor.Some? ==> generation == Some(cursor.value.generation))
    && (forall i :: 0 <= i < |sent| ==> Some(sent[i].generation) == generation)
    && (if generation.None? || n == 0 then sent == [] && after == start && !gap && (cursor.None? ==> start == ZERO)
        else polls[n - 1].generation == generation && Caught(polls[n - 1].all, start, after, gap, sent))
  }

  lemma SteadyNext(polls: seq<Stream>, n: nat, cursor: Option<Cursor>, generation0: Option<Name>,
                   generation: Option<Name>)
    requires n < |polls| && Steady(polls, n, cursor, generation0) && polls[n].generation == generation
    requires generation0.Some? ==> generation == generation0
    requires cursor.Some? ==> generation0.Some?
    ensures Steady(polls, n + 1, cursor, generation)
  {
    forall i | 0 <= i < n + 1 ensures SteadyAt(polls, i, cursor, generation) {
      if i < n {
        assert SteadyAt(polls, i, cursor, generation0);
        if generation0.None? {
          forall j | 0 <= j <= i ensures polls[j].generation.None? {
            assert SteadyAt(polls, j, cursor, generation0);
            assert polls[j].generation == generation0 || NoneUpTo(polls, j);
          }
        }
      }
    }
  }

  lemma CaughtAtNext(polls: seq<Stream>, n: nat, cursor: Option<Cursor>, start: Id, generation: Option<Name>,
                     after: Id, gap: bool, sent: seq<ChatEvent>)
    requires Polls(polls) && n < |polls| && Progress(polls, n, cursor, start, generation, after, gap, sent)
    requires generation.None? || polls[n].generation == generation
    ensures Caught(polls[n].all, start, after, gap, sent)
  {
    if generation.Some? && n > 0 {
      assert Sequel(polls, n - 1) && Sequel(polls, n);
      var cs :| Later(polls[n - 1], cs, polls[n]);
      LaterContinues(polls[n - 1], cs, polls[n]);
      CaughtGrows(polls[n - 1].all, polls[n].all, start, after, gap, sent);
    }
  }

  /** Why a poll ends the call: entries without a generation, another generation than before, or a cursor
      past the newest entry; Watching if it does not. */
  ghost predicate EndsWith(s: Stream, generation: Option<Name>, after: Id, status: Status)
    requires s.trimmed <= |s.all|
  {
    var unnamed := s.generation.None? && Read(s, after).messages != [];
    var reset := generation.Some? && generation != s.generation;
    var beyond := s.trimmed < |s.all| && Before(s.all[|s.all| - 1].id, after);
    && (status == NoGeneration <==> unnamed) && (status == StreamReset <==> !unnamed && reset)
    && (status == BeyondStream <==> !unnamed && !reset && beyond)
    && (status == Watching <==> !unnamed && !reset && !beyond)
  }

  /** The checks of a poll, in order. */
  method Check(s: Stream, generation: Option<Name>, after: Id) returns (status: Status)
    requires s.trimmed <= |s.all|
    ensures status != InvalidCursor && EndsWith(s, generation, after, status)
  {
    var batch := Read(s, after);
    if batch.generation.None? && batch.messages != [] { return NoGeneration; }
    if generation.Some? && generation != batch.generation { return StreamReset; }
    if batch.latest.Some? && Before(batch.latest.value, after) { return BeyondStream; }
    return Watching;
  }

  /** One poll of the loop. */
  method Poll(ghost k: Account, s: Stream, ghost start: Id, generation0: Option<Name>, after0: Id, gap0: bool,
              sent0: seq<ChatEvent>, ghost trace: seq<Moment>, ghost m: nat)
    returns (status: Status, generation: Option<Name>, after: Id, gap: bool, sent: seq<ChatEvent>)
    requires Accounts(k)
    requires WellFormed(s)
    requires generation0.None? || s.generation == generation0 ==> Caught(s.all, start, after0, gap0, sent0)
    requires TracedBy(k, trace, generation0, gap0, sent0) && (generation0.None? ==> after0 == ZERO)
    ensures sent0 <= sent && (status != Watching ==> sent == sent0) && status != InvalidCursor
    ensures EndsWith(s, generation0, after0, status)
    ensures status == Watching ==>
              Taken(k, s, start, generation0, after0, gap0, sent0, trace, m, generation, after, gap, sent)
  {
    generation, after, gap, sent := generation0, after0, gap0, sent0;
    status := Check(s, generation0, after0);
    if status == Watching {
      if generation.None? { generation := s.generation; }
      after, gap, sent := Take(k, s, start, generation0, generation, after0, gap0, sent0, trace, m);
    }
  }

  /** Marks a gap if the cursor is behind the stream, and handles the batch. */
  method Take(ghost k: Account, s: Stream, ghost start: Id, ghost generation0: Option<Name>, generation: Option<Name>,
              after0: Id, gap0: bool, sent0: seq<ChatEvent>, ghost trace: seq<Moment>, ghost m: nat)
    returns (after: Id, gap: bool, sent: seq<ChatEvent>)
    requires Accounts(k)
    requires WellFormed(s) && Caught(s.all, start, after0, gap0, sent0) && generation == s.generation
    requires TracedBy(k, trace, generation0, gap0, sent0) && (generation0.None? ==> after0 == ZERO)
    requires (generation0.Some? ==> generation == generation0) && (generation.None? ==> Read(s, after0).messages == [])
    ensures Taken(k, s, start, generation0, after0, gap0, sent0, trace, m, generation, after, gap, sent)
  {
    var batch := Read(s, after0);
    after, sent := after0, sent0;
    PollIsReady(s, start, after, gap0, sent);
    BatchIsSlice(s, after);
    gap := gap0 || GapAt(after, batch);
    ghost var noted := NoteBehind(k, trace, s, after0, m, generation0, generation, gap0, sent0);
    if batch.messages != [] {
      after, gap, sent := Deliver(k, s.all, batch.messages, BatchStart(s, after), start, after, gap, sent,
                                  generation.value, noted);
      TakenBatch(k, s, start, generation0, after0, gap0, sent0, trace, m, noted, generation, after, gap, sent);
    } else {
      TakenNothing(k, s, start, generation0, after0, gap0, sent0, trace, m, generation, gap);
    }
  }

  /** What one poll of the loop adds. */
  ghost predicate Taken(k: Account, s: Stream, start: Id, generation0: Option<Name>, after0: Id, gap0: bool,
                        sent0: seq<ChatEvent>, trace: seq<Moment>, m: nat, generation: Option<Name>, after: Id,
                        gap: bool, sent: seq<ChatEvent>)
    requires s.trimmed <= |s.all|
  {
    && sent0 <= sent && Polled(s, start, generation0, after0, gap0, sent0, generation, after, gap, sent)
    && after == Advance(after0, Read(s, after0).messages)
    && TracedBy(k, trace + MomentsOf(s, after0, m), generation, gap, sent)
    && EntriesOf(sent) == EntriesOf(sent0) + ChatsOf(Read(s, after0).messages)
  }

  lemma TakenBatch(k: Account, s: Stream, start: Id, generation0: Option<Name>, after0: Id, gap0: bool,
                   sent0: seq<ChatEvent>, trace: seq<Moment>, m: nat, noted: seq<Moment>, generation: Option<Name>,
                   after: Id, gap: bool, sent: seq<ChatEvent>)
    requires s.trimmed <= |s.all| && Read(s, after0).messages != [] && generation == s.generation && generation.Some?
    requires generation0.Some? ==> generation == generation0
    requires Caught(s.all, start, after, gap, sent) && Extended(sent0, sent, generation.value)
    requires after == Read(s, after0).messages[|Read(s, after0).messages| - 1].id
    requires Kept(k, noted + Passings(Read(s, after0).messages), generation.value, gap, sent)
    requires noted + Passings(Read(s, after0).messages) == trace + MomentsOf(s, after0, m)
    requires EntriesOf(sent) == EntriesOf(sent0) + ChatsOf(Read(s, after0).messages)
    ensures Taken(k, s, start, generation0, after0, gap0, sent0, trace, m, generation, after, gap, sent)
  {
  }

  lemma TakenNothing(k: Account, s: Stream, start: Id, generation0: Option<Name>, after: Id, gap0: bool,
                     sent: seq<ChatEvent>, trace: seq<Moment>, m: nat, generation: Option<Name>, gap: bool)
    requires s.trimmed <= |s.all| && Read(s, after).messages == [] && generation == s.generation
    requires (generation0.Some? ==> generation == generation0) && gap == (gap0 || GapAt(after, Read(s, after)))
    requires Caught(s.all, start, after, gap, sent)
    requires TracedBy(k, trace + MomentsOf(s, after, m), generation, gap, sent)
    requires EntriesOf(sent) == EntriesOf(sent) + ChatsOf([])
    ensures Taken(k, s, start, generation0, after, gap0, sent, trace, m, generation, after, gap, sent)
  {
  }

  /** The note of being behind comes before the batch. */
  lemma NoteBehind(k: Account, trace: seq<Moment>, s: Stream, after: Id, m: nat, generation0: Option<Name>,
                   generation: Option<Name>, gap: bool, sent: seq<ChatEvent>) returns (noted: seq<Moment>)
    requires Accounts(k)
    requires s.trimmed <= |s.all| && TracedBy(k, trace, generation0, gap, sent) && (generation0.None? ==> after == ZERO)
    requires generation0.Some? ==> generation == generation0
    ensures TracedBy(k, noted, generation, gap || GapAt(after, Read(s, after)), sent)
    ensures noted + Passings(Read(s, after).messages) == trace + MomentsOf(s, after, m)
    ensures Read(s, after).messages == [] ==>
              noted == trace + MomentsOf(s, after, m) && EntriesOf(sent) == EntriesOf(sent) + ChatsOf([])
  {
    noted := trace + if GapAt(after, Read(s, after)) then [Behind(m)] else [];
    if GapAt(after, Read(s, after)) {
      assert AccountStep(k, trace, Behind(m), generation.value);
    } else {
      assert noted == trace;
    }
  }

  /** What a poll that goes on tells about its result. */
  ghost predicate Polled(s: Stream, start: Id, generation0: Option<Name>, after0: Id, gap0: bool,
                         sent0: seq<ChatEvent>, generation: Option<Name>, after: Id, gap: bool,
                         sent: seq<ChatEvent>) {
    && generation == s.generation && Caught(s.all, start, after, gap, sent)
    && if generation.None? then generation0.None? && after == after0 && sent == sent0 && (after0 == ZERO ==>
          gap == gap0)
       else (generation0.Some? ==> generation == generation0) && Extended(sent0, sent, generation.value)
  }

  lemma ProgressNext(polls: seq<Stream>, n: nat, cursor: Option<Cursor>, start: Id, generation0: Option<Name>,
                     after0: Id, gap0: bool, sent0: seq<ChatEvent>, generation: Option<Name>, after: Id, gap: bool,
                     sent: seq<ChatEvent>)
    requires n < |polls| && Progress(polls, n, cursor, start, generation0, after0, gap0, sent0)
    requires Polled(polls[n], start, generation0, after0, gap0, sent0, generation, after, gap, sent)
    ensures Progress(polls, n + 1, cursor, start, generation, after, gap, sent)
  {
    SteadyNext(polls, n, cursor, generation0, generation);
  }

  lemma TrackedNext(k: Account, start: Id, polls: seq<Stream>, n: nat, generation0: Option<Name>, after0: Id,
                    gap0: bool, sent0: seq<ChatEvent>, generation: Option<Name>, after: Id, gap: bool,
                    sent: seq<ChatEvent>)
    requires n < |polls| && Tracked(k, start, polls, n, generation0, after0, gap0, sent0)
    requires polls[n].generation == generation && (generation0.Some? ==> generation == generation0)
    requires after == Advance(after0, Read(polls[n], after0).messages)
    requires TracedBy(k, TraceOf(start, polls, n) + MomentsOf(polls[n], after0, n), generation, gap, sent)
    requires generation.None? ==> after0 == ZERO && Read(polls[n], after0).messages == []
    ensures Tracked(k, start, polls, n + 1, generation, after, gap, sent)
  {
    CursorNext(start, polls, n);
    TraceNext(start, polls, n);
    WentNext(start, polls, n, generation0, generation);
  }

  lemma NoneNext(start: Id, polls: seq<Stream>, n: nat)
    requires Readable(polls) && n < |polls| && Went(start, polls, n, None) && polls[n].generation.None?
    ensures NoneUpTo(polls, n)
  {
    if n > 0 { assert WentAt(start, polls, n - 1, None); }
  }

  lemma WentNext(start: Id, polls: seq<Stream>, n: nat, generation0: Option<Name>, generation: Option<Name>)
    requires Readable(polls) && n < |polls| && Went(start, polls, n, generation0) && polls[n].generation == generation
    requires generation0.Some? ==> generation == generation0
    requires generation.None? ==>
               CursorAt(start, polls, n) == ZERO && Read(polls[n], CursorAt(start, polls, n)).messages == []
    ensures Went(start, polls, n + 1, generation)
  {
    forall i | 0 <= i < n + 1 ensures WentAt(start, polls, i, generation) {
      if i < n {
        assert WentAt(start, polls, i, generation0);
      } else if generation.None? {
        NoneNext(start, polls, n);
      }
    }
  }

  /** Everything known about the reader after `n` polls, and about the poll that ended the call, if any. */
  ghost predicate Watched(k: Account, polls: seq<Stream>, n: nat, cursor: Option<Cursor>, start: Id,
                          generation: Option<Name>, after: Id, gap: bool, sent: seq<ChatEvent>, status: Status)
  {
    && Readable(polls) && n <= |polls| && status != InvalidCursor
    && Progress(polls, n, cursor, start, generation, after, gap, sent)
    && Tracked(k, start, polls, n, generation, after, gap, sent)
    && (status != Watching ==> n < |polls| && EndsWith(polls[n], generation, after, status))
  }

  /** The next poll; one that ends the call leaves everything as it was. */
  method PollNext(ghost k: Account, polls: seq<Stream>, n0: nat, ghost cursor: Option<Cursor>, ghost start: Id,
                  generation0: Option<Name>, after0: Id, gap0: bool, sent0: seq<ChatEvent>)
    returns (n: nat, status: Status, generation: Option<Name>, after: Id, gap: bool, sent: seq<ChatEvent>)
    requires Accounts(k)
    requires Polls(polls) && n0 < |polls|
    requires Watched(k, polls, n0, cursor, start, generation0, after0, gap0, sent0, Watching)
    ensures n == (if status == Watching then n0 + 1 else n0) <= |polls|
    ensures Watched(k, polls, n, cursor, start, generation, after, gap, sent, status)
  {
    assert Sequel(polls, n0);
    if generation0.None? || polls[n0].generation == generation0 {
      CaughtAtNext(polls, n0, cursor, start, generation0, after0, gap0, sent0);
    }
    status, generation, after, gap, sent :=
      Poll(k, polls[n0], start, generation0, after0, gap0, sent0, TraceOf(start, polls, n0), n0);
    if status == Watching {
      ProgressNext(polls, n0, cursor, start, generation0, after0, gap0, sent0, generation, after, gap, sent);
      TrackedNext(k, start, polls, n0, generation0, after0, gap0, sent0, generation, after, gap, sent);
      n := n0 + 1;
    } else {
      n, generation, after, gap, sent := n0, generation0, after0, gap0, sent0;
    }
  }

  function StartOf(cursor: Option<Cursor>): Id { if cursor.Some? then cursor.value.id else ZERO }

  /** What a call has sent after `n` polls: the events of what it went through, and nothing before it knew a
      generation. */
  ghost predicate Sent(cursor: Option<Cursor>, polls: seq<Stream>, n: nat, generation: Option<Name>,
                       sent: seq<ChatEvent>)
    requires Polls(polls) && n <= |polls|
  {
    if generation.None? then sent == []
    else
      && Going(StartOf(cursor), polls, n, generation.value) && (n > 0 ==> polls[n - 1].generation == generation)
      && sent == EventsOf(TraceOf(StartOf(cursor), polls, n), generation.value)
  }

  lemma TrackedIsSent(cursor: Option<Cursor>, polls: seq<Stream>, n: nat, generation: Option<Name>, after: Id,
                      gap: bool, sent: seq<ChatEvent>)
    requires Polls(polls) && n <= |polls|
    requires Progress(polls, n, cursor, StartOf(cursor), generation, after, gap, sent)
    requires Tracked(READER, StartOf(cursor), polls, n, generation, after, gap, sent)
    ensures Sent(cursor, polls, n, generation, sent)
  {
    if generation.Some? {
      forall i | 0 <= i < n
        ensures polls[i].generation == generation || Waiting(StartOf(cursor), polls, i)
      {
        assert WentAt(StartOf(cursor), polls, i, generation);
      }
    }
  }

  /** How a call ends after `n` polls: only a bad cursor or a poll that ends it stops it. The events are
      exactly those of what the reader went through; they are sound and of the one generation that every
      poll had. */
  ghost predicate WatchEnds(cursor: Option<Cursor>, polls: seq<Stream>, sent: seq<ChatEvent>, status: Status,
                            generation: Option<Name>, n: nat)
    requires Polls(polls)
  {
    && (status == InvalidCursor <==> cursor.Some? && cursor.value.generation.text == "")
    && n <= |polls| && (status == Watching ==> n == |polls|)
    && (status != Watching && status != InvalidCursor ==>
          n < |polls| && EndsWith(polls[n], generation, CursorAt(StartOf(cursor), polls, n), status))
    && (cursor.Some? && status != InvalidCursor ==> generation == Some(cursor.value.generation))
    && (forall i :: 0 <= i < |sent| ==> Some(sent[i].generation) == generation)
    && (sent != [] ==> 0 < n && polls[n - 1].generation == generation
                       && Sound(polls[n - 1].all, StartOf(cursor), sent))
    && Sent(cursor, polls, n, generation, sent) && Steady(polls, n, cursor, generation)
  }

  lemma WatchedEnds(cursor: Option<Cursor>, polls: seq<Stream>, sent: seq<ChatEvent>, status: Status,
                    generation: Option<Name>, n: nat, after: Id, gap: bool)
    requires Polls(polls) && n <= |polls| && (status == Watching ==> n == |polls|)
    requires Watched(READER, polls, n, cursor, StartOf(cursor), generation, after, gap, sent, status)
    requires cursor.Some? ==> cursor.value.generation.text != ""
    ensures WatchEnds(cursor, polls, sent, status, generation, n)
  {
    TrackedIsSent(cursor, polls, n, generation, after, gap, sent);
  }

  /** Watches the stream over any sequence of polls. */
  method Watch(cursor: Option<Cursor>, polls: seq<Stream>)
    returns (sent: seq<ChatEvent>, status: Status, generation: Option<Name>, n: nat)
    requires Polls(polls)
    ensures WatchEnds(cursor, polls, sent, status, generation, n)
  {
    var after := ZERO;
    generation, sent, n, status := None, [], 0, Watching;
    if cursor.Some? {
      if cursor.value.generation.text == "" { return sent, InvalidCursor, generation, n; }
      after, generation := cursor.value.id, Some(cursor.value.generation);
    }
    ReaderAccounts();
    NothingYet(READER, cursor, polls, generation);
    var gap;
    sent, status, generation, n, after, gap := WatchFrom(READER, cursor, polls, generation, after);
    WatchedEnds(cursor, polls, sent, status, generation, n, after, gap);
  }

  lemma NothingYet(k: Account, cursor: Option<Cursor>, polls: seq<Stream>, generation: Option<Name>)
    requires Accounts(k)
    requires Readable(polls) && generation == if cursor.Some? then Some(cursor.value.generation) else None
    ensures Watched(k, polls, 0, cursor, StartOf(cursor), generation, StartOf(cursor), false, [], Watching)
  {
  }

  /** The loop over the polls. */
  method WatchFrom(ghost k: Account, ghost cursor: Option<Cursor>, polls: seq<Stream>, generation0: Option<Name>,
                   after0: Id)
    returns (sent: seq<ChatEvent>, status: Status, generation: Option<Name>, n: nat, after: Id, gap: bool)
    requires Accounts(k)
    requires Polls(polls) && Watched(k, polls, 0, cursor, after0, generation0, after0, false, [], Watching)
    ensures n <= |polls| && (status == Watching ==> n == |polls|)
    ensures Watched(k, polls, n, cursor, after0, generation, after, gap, sent, status)
  {
    sent, status, generation, n, after, gap := [], Watching, generation0, 0, after0, false;
    while n < |polls| && status == Watching
      invariant n <= |polls| && Watched(k, polls, n, cursor, after0, generation, after, gap, sent, status)
      decreases |polls| - n, status == Watching
    {
      n, status, generation, after, gap, sent := PollNext(k, polls, n, cursor, after0, generation, after, gap, sent);
    }
  }
}
