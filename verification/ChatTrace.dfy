/** What a polling reader of the stream goes through, poll by poll, and what it sends: every chat it
    passes that has a timestamp, marked where it may have missed one. */
module ChatTrace {
  import opened JournalTypes
  import opened ChatStream

  datatype ChatEvent = ChatEvent(entry: Entry, generation: Name, gapBefore: bool)

  lemma Transitive(a: Id, b: Id, d: Id)
    ensures Before(a, b) && Before(b, d) ==> Before(a, d)
  {
  }

  function GapAt(after: Id, batch: Batch): bool {
    after != ZERO && batch.earliest.Some? && Before(after, batch.earliest.value)
  }

  /** Where in the stream the batch begins. */
  function BatchStart(s: Stream, after: Id): nat
    requires s.trimmed <= |s.all|
  {
    s.trimmed + UpTo(Retained(s), after)
  }

  lemma BatchIsSlice(s: Stream, after: Id)
    requires WellFormed(s)
    ensures var b, batch := BatchStart(s, after), Read(s, after);
            b + |batch.messages| <= |s.all| && batch.messages == s.all[b..b + |batch.messages|]
  {
    var kept := Retained(s);
    var n := UpTo(kept, after);
    assert kept[n..] == s.all[s.trimmed + n..];
  }

  lemma BatchSplits(s: Stream, after: Id)
    requires WellFormed(s)
    ensures var b := BatchStart(s, after);
            && b <= |s.all| && (forall i :: b <= i < |s.all| ==> Before(after, s.all[i].id))
            && (forall i :: s.trimmed <= i < b ==> !Before(after, s.all[i].id))
  {
    var kept := Retained(s);
    UpToSplits(kept, after);
    assert forall i :: s.trimmed <= i < |s.all| ==> s.all[i] == kept[i - s.trimmed];
  }

  /** The stream at the next poll. */
  ghost predicate Follows(s: Stream, t: Stream) { exists cs :: Later(s, cs, t) }

  ghost predicate Sequel(polls: seq<Stream>, i: nat)
    requires i < |polls|
  {
    WellFormed(polls[i]) && (i > 0 ==> Follows(polls[i - 1], polls[i]))
  }

  /** The stream as any sequence of polls may find it. */
  ghost predicate Polls(polls: seq<Stream>) {
    Readable(polls) && forall i :: 0 <= i < |polls| ==> Sequel(polls, i)
  }

  predicate Readable(polls: seq<Stream>) { forall i :: 0 <= i < |polls| ==> polls[i].trimmed <= |polls[i].all| }

  // ---- Where the reader is ----

  function Advance(after: Id, messages: seq<Entry>): Id {
    if messages == [] then after else messages[|messages| - 1].id
  }

  /** The cursor before the poll `m`. */
  function CursorAt(start: Id, polls: seq<Stream>, m: nat): Id
    requires Readable(polls) && m <= |polls|
  {
    if m == 0 then start
    else
      var after := CursorAt(start, polls, m - 1);
      Advance(after, Read(polls[m - 1], after).messages)
  }

  // ---- What it goes through ----

  /** At some poll the cursor was behind the oldest entry, or an entry was passed. */
  datatype Moment = Behind(poll: nat) | Passed(entry: Entry)

  predicate Sendable(e: Entry) { IsChat(e) && e.observedAt.Some? }

  predicate Sends(m: Moment) { m.Passed? && Sendable(m.entry) }

  /** A chat may have been missed, or one without a timestamp was. */
  predicate Marks(m: Moment) { m.Behind? || (IsChat(m.entry) && m.entry.observedAt.None?) }

  function Passings(messages: seq<Entry>): seq<Moment> {
    seq(|messages|, i requires 0 <= i < |messages| => Passed(messages[i]))
  }

  function MomentsOf(s: Stream, after: Id, m: nat): seq<Moment>
    requires s.trimmed <= |s.all|
  {
    (if GapAt(after, Read(s, after)) then [Behind(m)] else []) + Passings(Read(s, after).messages)
  }

  function Flat(parts: seq<seq<Moment>>): seq<Moment>
    decreases |parts|
  {
    if parts == [] then [] else Flat(parts[..|parts| - 1]) + parts[|parts| - 1]
  }

  /** The first `n` values, in order. */
  function Collect<T>(f: nat -> T, n: nat): (all: seq<T>)
    ensures |all| == n
  {
    if n == 0 then [] else Collect(f, n - 1) + [f(n - 1)]
  }

  lemma {:induction false} CollectAt<T>(f: nat -> T, n: nat, m: nat)
    requires m < n
    ensures Collect(f, n)[m] == f(m)
    decreases n
  {
    if m < n - 1 { CollectAt(f, n - 1, m); }
  }

  function MomentsAt(start: Id, polls: seq<Stream>): nat -> seq<Moment>
    requires Readable(polls)
  {
    (m: nat) => if m < |polls| then MomentsOf(polls[m], CursorAt(start, polls, m), m) else []
  }

  /** What each poll before `n` brings. */
  function PartsOf(start: Id, polls: seq<Stream>, n: nat): (parts: seq<seq<Moment>>)
    requires Readable(polls) && n <= |polls|
    ensures |parts| == n
  {
    Collect(MomentsAt(start, polls), n)
  }

  lemma PartsAt(start: Id, polls: seq<Stream>, n: nat, m: nat)
    requires Readable(polls) && m < n <= |polls|
    ensures PartsOf(start, polls, n)[m] == MomentsOf(polls[m], CursorAt(start, polls, m), m)
  {
    CollectAt(MomentsAt(start, polls), n, m);
  }

  /** Everything before the poll `n`, in order. */
  function TraceOf(start: Id, polls: seq<Stream>, n: nat): seq<Moment>
    requires Readable(polls) && n <= |polls|
  {
    Flat(PartsOf(start, polls, n))
  }

  lemma TraceNext(start: Id, polls: seq<Stream>, n: nat)
    requires Readable(polls) && n < |polls|
    ensures TraceOf(start, polls, n + 1) ==
            TraceOf(start, polls, n) + MomentsOf(polls[n], CursorAt(start, polls, n), n)
  {
    CollectNext(MomentsAt(start, polls), n);
  }

  lemma CollectNext(f: nat -> seq<Moment>, n: nat)
    ensures Flat(Collect(f, n + 1)) == Flat(Collect(f, n)) + f(n)
  {
    FlatNext(Collect(f, n), f(n));
  }

  lemma FlatNext(parts: seq<seq<Moment>>, part: seq<Moment>)
    ensures Flat(parts + [part]) == Flat(parts) + part
  {
    assert (parts + [part])[..|parts|] == parts;
  }

  // ---- What it sends ----

  predicate NoneSent(trace: seq<Moment>, from: nat, to: nat)
    requires to <= |trace|
  {
    forall j :: from <= j < to ==> !Sends(trace[j])
  }

  /** There is a mark before the position and nothing was sent since. */
  predicate GapBefore(trace: seq<Moment>, p: nat)
    requires p <= |trace|
  {
    exists q :: 0 <= q < p && Marks(trace[q]) && NoneSent(trace, q + 1, p)
  }

  /** Every chat passed with a timestamp is sent, with a gap mark exactly after a mark since the one before. */
  function EventsOf(trace: seq<Moment>, generation: Name): seq<ChatEvent>
    decreases |trace|
  {
    if trace == [] then []
    else
      var n := |trace| - 1;
      EventsOf(trace[..n], generation)
      + if Sends(trace[n]) then [ChatEvent(trace[n].entry, generation, GapBefore(trace, n))] else []
  }

  lemma GapOfPrefix(trace: seq<Moment>, m: Moment, p: nat)
    requires p <= |trace|
    ensures GapBefore(trace + [m], p) <==> GapBefore(trace, p)
  {
    var more := trace + [m];
    forall q | 0 <= q < p
      ensures Marks(more[q]) && NoneSent(more, q + 1, p) <==> Marks(trace[q]) && NoneSent(trace, q + 1, p)
    {
      assert forall j :: 0 <= j < p ==> more[j] == trace[j];
    }
  }

  /** One more moment: what is sent, and whether a gap is now marked. */
  lemma TraceStep(trace: seq<Moment>, m: Moment, generation: Name)
    ensures EventsOf(trace + [m], generation) ==
            EventsOf(trace, generation)
            + if Sends(m) then [ChatEvent(m.entry, generation, GapBefore(trace, |trace|))] else []
    ensures GapBefore(trace + [m], |trace| + 1) <==> !Sends(m) && (Marks(m) || GapBefore(trace, |trace|))
  {
    var more, n := trace + [m], |trace|;
    assert more[..n] == trace && more[n] == m;
    GapOfPrefix(trace, m, n);
    if GapBefore(more, n) && !Sends(m) {
      var q :| 0 <= q < n && Marks(more[q]) && NoneSent(more, q + 1, n);
      assert NoneSent(more, q + 1, n + 1);
    }
    if Marks(m) && !Sends(m) { assert Marks(more[n]) && NoneSent(more, n + 1, n + 1); }
    if GapBefore(more, n + 1) {
      var q :| 0 <= q < n + 1 && Marks(more[q]) && NoneSent(more, q + 1, n + 1);
      if q < n { assert NoneSent(more, q + 1, n) && !Sends(more[n]); }
    }
  }

  predicate IsSent(events: seq<ChatEvent>, e: Entry) { exists i :: 0 <= i < |events| && events[i].entry == e }

  lemma SentInEither(a: seq<ChatEvent>, b: seq<ChatEvent>, e: Entry)
    ensures IsSent(a + b, e) <==> IsSent(a, e) || IsSent(b, e)
  {
    var more := a + b;
    if IsSent(a, e) {
      var i :| 0 <= i < |a| && a[i].entry == e;
      assert more[i].entry == e;
    }
    if IsSent(b, e) {
      var i :| 0 <= i < |b| && b[i].entry == e;
      assert more[|a| + i].entry == e;
    }
  }

  /** Sent is exactly what was passed and has a timestamp. */
  lemma {:induction false} SentIsPassed(trace: seq<Moment>, generation: Name, e: Entry)
    ensures IsSent(EventsOf(trace, generation), e) <==> Sendable(e) && Passed(e) in trace
    decreases |trace|
  {
    if trace != [] {
      var n := |trace| - 1;
      var last := if Sends(trace[n]) then [ChatEvent(trace[n].entry, generation, GapBefore(trace, n))] else [];
      SentIsPassed(trace[..n], generation, e);
      SentInEither(EventsOf(trace[..n], generation), last, e);
      assert trace == trace[..n] + [trace[n]];
      assert Sends(trace[n]) ==> last[0].entry == trace[n].entry;
    }
  }

  // ---- What a batch adds ----

  /** The chats of a batch that have a timestamp, in order. */
  function ChatsOf(messages: seq<Entry>): seq<Entry>
    decreases |messages|
  {
    if messages == [] then []
    else
      var n := |messages| - 1;
      ChatsOf(messages[..n]) + if Sendable(messages[n]) then [messages[n]] else []
  }

  function EntriesOf(events: seq<ChatEvent>): seq<Entry> {
    seq(|events|, i requires 0 <= i < |events| => events[i].entry)
  }

  lemma PassingsNext(messages: seq<Entry>, n: nat)
    requires n < |messages|
    ensures Passings(messages[..n + 1]) == Passings(messages[..n]) + [Passed(messages[n])]
  {
  }

  /** A way to tell the events of a trace and whether a gap is marked at its end. */
  datatype Account = Account(events: (seq<Moment>, Name) -> seq<ChatEvent>, marked: seq<Moment> -> bool)

  /** What one more moment does. */
  ghost predicate AccountStep(k: Account, trace: seq<Moment>, m: Moment, generation: Name) {
    && k.events(trace + [m], generation) ==
       k.events(trace, generation)
       + (if Sends(m) then [ChatEvent(m.entry, generation, k.marked(trace))] else [])
    && (k.marked(trace + [m]) <==> !Sends(m) && (Marks(m) || k.marked(trace)))
  }

  ghost predicate Accounts(k: Account) {
    && (forall generation :: k.events([], generation) == []) && !k.marked([])
    && (forall trace, m, generation :: AccountStep(k, trace, m, generation))
  }

  ghost const READER: Account :=
    Account((trace: seq<Moment>, generation: Name) => EventsOf(trace, generation),
            (trace: seq<Moment>) => GapBefore(trace, |trace|))

  lemma ReaderAccounts()
    ensures Accounts(READER)
  {
    forall trace, m, generation ensures AccountStep(READER, trace, m, generation) { TraceStep(trace, m, generation); }
  }

  /** A batch adds exactly its chats that have a timestamp. */
  lemma {:induction false} BatchIsSent(k: Account, trace: seq<Moment>, messages: seq<Entry>, generation: Name)
    requires Accounts(k)
    ensures k.events(trace, generation) <= k.events(trace + Passings(messages), generation)
    ensures EntriesOf(k.events(trace + Passings(messages), generation))
            == EntriesOf(k.events(trace, generation)) + ChatsOf(messages)
    decreases |messages|
  {
    if messages == [] {
      assert trace + Passings(messages) == trace;
    } else {
      var n := |messages| - 1;
      BatchIsSent(k, trace, messages[..n], generation);
      PassingsNext(messages, n);
      assert messages[..n + 1] == messages;
      var before := trace + Passings(messages[..n]);
      assert trace + Passings(messages) == before + [Passed(messages[n])];
      assert AccountStep(k, before, Passed(messages[n]), generation);
      EntriesOfBoth(k.events(before, generation), k.events(before + [Passed(messages[n])], generation));
    }
  }

  lemma EntriesOfBoth(some: seq<ChatEvent>, all: seq<ChatEvent>)
    requires some <= all
    ensures EntriesOf(all) == EntriesOf(some) + EntriesOf(all[|some|..])
  {
  }
}
