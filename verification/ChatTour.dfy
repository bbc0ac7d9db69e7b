/** A reader's way through the stream, seen from its end: where the cursor was before each poll, what had
    been trimmed by then, and what each poll brought. Nothing is lost that was still there. */
module ChatTour {
  import opened JournalTypes
  import opened ChatStream
  import opened ChatTrace

  /** `all` is the stream at the end; `at` holds the cursor before each poll and at the end, `gone` how many
      entries each poll found trimmed, and `parts` what each brought. */
  datatype Tour = Tour(all: seq<Entry>, at: seq<Id>, gone: seq<nat>, parts: seq<seq<Moment>>)

  /** The poll takes the cursor past the ID. */
  predicate PassesAt(t: Tour, m: nat, id: Id)
    requires m + 1 < |t.at|
  {
    Before(t.at[m], id) && !Before(t.at[m + 1], id)
  }

  /** Entries come in order, after a note of being behind, if any. */
  predicate InOrder(part: seq<Moment>, m: nat) {
    && (forall i :: 0 <= i < |part| && part[i].Behind? ==> i == 0 && part[i].poll == m)
    && (forall i, j :: 0 <= i < j < |part| && part[i].Passed? && part[j].Passed? ==>
          Before(part[i].entry.id, part[j].entry.id))
  }

  /** The poll brings exactly the entries it passes that were still there, and says so if it passes others. */
  ghost predicate Brings(t: Tour, m: nat)
    requires m + 1 < |t.at| && m < |t.gone| && m < |t.parts|
  {
    && InOrder(t.parts[m], m)
    && (forall e :: Passed(e) in t.parts[m] ==> e in t.all && PassesAt(t, m, e.id))
    && (forall i :: 0 <= i < |t.all| && PassesAt(t, m, t.all[i].id) ==>
          (Passed(t.all[i]) in t.parts[m] <==> i >= t.gone[m]))
    && (forall i :: 0 <= i < |t.all| && i < t.gone[m] && t.at[m] != ZERO && PassesAt(t, m, t.all[i].id) ==>
          Behind(m) in t.parts[m])
  }

  ghost predicate Valid(t: Tour) {
    && |t.at| == |t.parts| + 1 && |t.gone| == |t.parts| && ChatStream.Ascending(t.all)
    && (forall i :: 0 <= i < |t.all| ==> t.all[i].id != ZERO)
    && (forall m :: 0 <= m < |t.parts| ==> StepOk(t, m))
  }

  /** One poll: the cursor does not go back, trimmed entries stay trimmed, and nothing is left out. */
  ghost predicate StepOk(t: Tour, m: nat)
    requires m + 1 < |t.at| && m < |t.gone| && m < |t.parts|
  {
    !Before(t.at[m + 1], t.at[m]) && (m > 0 ==> t.gone[m - 1] <= t.gone[m]) && Brings(t, m)
  }

  lemma NotBefore(a: Id, b: Id, d: Id)
    ensures !Before(b, a) && !Before(d, b) ==> !Before(d, a)
    ensures !Before(b, a) && Before(b, d) ==> Before(a, d)
    ensures Before(a, b) && !Before(d, b) ==> Before(a, d)
  {
  }

  lemma {:induction false} MovesOn(t: Tour, m: nat, n: nat)
    requires Valid(t) && m <= n < |t.at|
    ensures !Before(t.at[n], t.at[m])
    decreases n
  {
    if m < n {
      MovesOn(t, m, n - 1);
      assert StepOk(t, n - 1);
      NotBefore(t.at[m], t.at[n - 1], t.at[n]);
    }
  }

  lemma {:induction false} GoneGrows(t: Tour, m: nat, n: nat)
    requires Valid(t) && m <= n < |t.gone|
    ensures t.gone[m] <= t.gone[n]
    decreases n
  {
    if m < n {
      GoneGrows(t, m, n - 1);
      assert StepOk(t, n);
    }
  }

  lemma PassesOnce(t: Tour, k: nat, m: nat, id: Id)
    requires Valid(t) && k < |t.parts| && m < |t.parts| && PassesAt(t, k, id) && PassesAt(t, m, id)
    ensures k == m
  {
    if k < m {
      MovesOn(t, k + 1, m);
      NotBefore(t.at[k + 1], t.at[m], id);
    } else if m < k {
      MovesOn(t, m + 1, k);
      NotBefore(t.at[m + 1], t.at[k], id);
    }
  }

  lemma {:induction false} PassingPoll(t: Tour, n: nat, id: Id) returns (m: nat)
    requires Valid(t) && n < |t.at| && Before(t.at[0], id) && !Before(t.at[n], id)
    ensures m < n && PassesAt(t, m, id)
    decreases n
  {
    if Before(t.at[n - 1], id) { m := n - 1; } else { m := PassingPoll(t, n - 1, id); }
  }

  // ---- Positions in the trace ----

  function Offset(parts: seq<seq<Moment>>, m: nat): nat
    requires m <= |parts|
  {
    |Flat(parts[..m])|
  }

  lemma {:induction false} PartAt(parts: seq<seq<Moment>>, m: nat, j: nat)
    requires m < |parts| && j < |parts[m]|
    ensures Offset(parts, m) + j < Offset(parts, m + 1) <= |Flat(parts)|
    ensures Flat(parts)[Offset(parts, m) + j] == parts[m][j]
    decreases |parts|
  {
    var n := |parts| - 1;
    assert parts[..m + 1][..m] == parts[..m];
    if m == n {
      assert parts[..m + 1] == parts;
    } else {
      PartAt(parts[..n], m, j);
      assert parts[..n][..m] == parts[..m] && parts[..n][..m + 1] == parts[..m + 1];
    }
  }

  /** Which poll brought the moment at a position. */
  lemma {:induction false} PartOf(parts: seq<seq<Moment>>, p: nat) returns (m: nat, j: nat)
    requires p < |Flat(parts)|
    ensures m < |parts| && j < |parts[m]| && p == Offset(parts, m) + j && Flat(parts)[p] == parts[m][j]
    decreases |parts|
  {
    var n := |parts| - 1;
    if p >= |Flat(parts[..n])| {
      m, j := n, p - |Flat(parts[..n])|;
    } else {
      m, j := PartOf(parts[..n], p);
      assert parts[..n][..m] == parts[..m];
    }
  }

  lemma {:induction false} OffsetsGrow(parts: seq<seq<Moment>>, m: nat, n: nat)
    requires m <= n <= |parts|
    ensures Offset(parts, m) <= Offset(parts, n)
    decreases n
  {
    if m < n {
      OffsetsGrow(parts, m, n - 1);
      assert parts[..n][..n - 1] == parts[..n - 1];
    }
  }

  lemma LaterPart(parts: seq<seq<Moment>>, m: nat, i: nat, n: nat, j: nat)
    requires m < |parts| && i < |parts[m]| && n < |parts| && j < |parts[n]|
    requires Offset(parts, m) + i < Offset(parts, n) + j
    ensures m < n || (m == n && i < j)
  {
    PartAt(parts, m, i);
    PartAt(parts, n, j);
    if n < m { OffsetsGrow(parts, n + 1, m); }
  }

  /** Entries are passed in stream order. */
  lemma TraceAscends(t: Tour, p: nat, q: nat)
    requires Valid(t) && p < q < |Flat(t.parts)| && Flat(t.parts)[p].Passed? && Flat(t.parts)[q].Passed?
    ensures Before(Flat(t.parts)[p].entry.id, Flat(t.parts)[q].entry.id)
  {
    var m, i := PartOf(t.parts, p);
    var n, j := PartOf(t.parts, q);
    LaterPart(t.parts, m, i, n, j);
    var a, b := t.parts[m][i].entry.id, t.parts[n][j].entry.id;
    assert Passed(t.parts[m][i].entry) in t.parts[m] && Passed(t.parts[n][j].entry) in t.parts[n];
    assert StepOk(t, m) && StepOk(t, n);
    if m < n {
      MovesOn(t, m + 1, n);
      NotBefore(a, t.at[m + 1], t.at[n]);
      NotBefore(a, t.at[n], b);
    }
  }

  // ---- Every chat is sent, or was gone ----

  /** A chat with a timestamp that the cursor has gone past was sent, exactly unless it had been trimmed
      before the poll that passed it. */
  lemma SentUnlessGone(t: Tour, generation: Name, i: nat) returns (m: nat)
    requires Valid(t) && i < |t.all| && Sendable(t.all[i])
    requires Before(t.at[0], t.all[i].id) && !Before(t.at[|t.parts|], t.all[i].id)
    ensures m < |t.parts| && PassesAt(t, m, t.all[i].id)
    ensures IsSent(EventsOf(Flat(t.parts), generation), t.all[i]) <==> i >= t.gone[m]
  {
    var e := t.all[i];
    m := PassingPoll(t, |t.parts|, e.id);
    assert StepOk(t, m);
    SentIsPassed(Flat(t.parts), generation, e);
    if Passed(e) in t.parts[m] {
      var j :| 0 <= j < |t.parts[m]| && t.parts[m][j] == Passed(e);
      PartAt(t.parts, m, j);
    }
    if Passed(e) in Flat(t.parts) {
      var p :| 0 <= p < |Flat(t.parts)| && Flat(t.parts)[p] == Passed(e);
      var k, j := PartOf(t.parts, p);
      assert StepOk(t, k) && Passed(e) in t.parts[k];
      PassesOnce(t, k, m, e.id);
    }
  }

  // ---- When a gap mark is right ----

  /** The ID of the last event before a position, or the cursor the reader came with. */
  function LastBefore(start: Id, trace: seq<Moment>, p: nat): Id
    requires p <= |trace|
  {
    if p == 0 then start else if Sends(trace[p - 1]) then trace[p - 1].entry.id else LastBefore(start, trace, p - 1)
  }

  lemma {:induction false} LastIsSent(start: Id, trace: seq<Moment>, p: nat) returns (r: int)
    requires p <= |trace|
    ensures -1 <= r < p && NoneSent(trace, r + 1, p)
    ensures if r == -1 then LastBefore(start, trace, p) == start
            else Sends(trace[r]) && LastBefore(start, trace, p) == trace[r].entry.id
    decreases p
  {
    if p == 0 { r := -1; } else if Sends(trace[p - 1]) { r := p - 1; } else { r := LastIsSent(start, trace, p - 1); }
  }

  /** A chat of the stream lies strictly between two IDs. */
  ghost predicate Missed(all: seq<Entry>, from: Id, to: Id) {
    exists i :: 0 <= i < |all| && IsChat(all[i]) && Before(from, all[i].id) && Before(all[i].id, to)
  }

  /** A chat after the cursor had been trimmed before the poll. */
  ghost predicate LostAt(t: Tour, m: nat)
    requires m < |t.at| && m < |t.gone|
  {
    exists i :: 0 <= i < |t.all| && i < t.gone[m] && IsChat(t.all[i]) && Before(t.at[m], t.all[i].id)
  }

  /** A mark for a chat that was really missed: one without a timestamp, or a trimmed one. */
  ghost predicate Real(t: Tour, x: Moment) {
    match x
    case Passed(e) => IsChat(e) && e.observedAt.None?
    case Behind(m) => m < |t.at| && m < |t.gone| && LostAt(t, m)
  }

  /** Something was missed before the event at `p`, exactly if one of the marks since the event before is
      real. */
  ghost predicate RealGap(t: Tour, p: nat)
    requires p <= |Flat(t.parts)|
  {
    exists q :: 0 <= q < p && Real(t, Flat(t.parts)[q]) && NoneSent(Flat(t.parts), q + 1, p)
  }

  /** What was passed before the poll is not past its cursor. */
  lemma BeforeThePoll(t: Tour, p: nat, m: nat)
    requires Valid(t) && m < |t.parts| && p < Offset(t.parts, m) && p < |Flat(t.parts)| && Flat(t.parts)[p].Passed?
    ensures !Before(t.at[m], Flat(t.parts)[p].entry.id)
  {
    var k, j := PartOf(t.parts, p);
    if k >= m { OffsetsGrow(t.parts, m, k); }
    assert StepOk(t, k) && Passed(t.parts[k][j].entry) in t.parts[k];
    MovesOn(t, k + 1, m);
    NotBefore(t.parts[k][j].entry.id, t.at[k + 1], t.at[m]);
  }

  lemma IndexOf(all: seq<Entry>, e: Entry) returns (i: nat)
    requires e in all
    ensures i < |all| && all[i] == e
  {
    i :| 0 <= i < |all| && all[i] == e;
  }

  /** An entry after a poll was not trimmed by it. */
  lemma PassedIsLater(t: Tour, m: nat, j: nat, p: nat, i: nat)
    requires Valid(t) && m < |t.parts| && j < |t.parts[m]| && p < |Flat(t.parts)| && p >= Offset(t.parts, m) + j
    requires Flat(t.parts)[p].Passed? && i < |t.all| && i < t.gone[m]
    ensures Before(t.all[i].id, Flat(t.parts)[p].entry.id)
  {
    var k, l := PartOf(t.parts, p);
    var e := t.parts[k][l].entry;
    PartAt(t.parts, m, j);
    if k < m { PartAt(t.parts, k, l); OffsetsGrow(t.parts, k + 1, m); }
    GoneGrows(t, m, k);
    assert StepOk(t, k) && Passed(e) in t.parts[k];
    var at := IndexOf(t.all, e);
    assert at >= t.gone[k];
  }

  lemma RealIsMissed(t: Tour, p: nat, q: nat)
    requires Valid(t) && q < p < |Flat(t.parts)| && Sends(Flat(t.parts)[p])
    requires Real(t, Flat(t.parts)[q]) && NoneSent(Flat(t.parts), q + 1, p)
    ensures Missed(t.all, LastBefore(t.at[0], Flat(t.parts), p), Flat(t.parts)[p].entry.id)
  {
    var trace := Flat(t.parts);
    var m, j := PartOf(t.parts, q);
    var r := LastIsSent(t.at[0], trace, p);
    assert StepOk(t, m) && !Sends(trace[q]) && r < q;
    if trace[q].Passed? {
      assert Passed(trace[q].entry) in t.parts[m];
      var i := IndexOf(t.all, trace[q].entry);
      TraceAscends(t, q, p);
      if r >= 0 { TraceAscends(t, r, q); } else { AfterStart(t, m, trace[q].entry.id); }
      assert IsChat(t.all[i]);
    } else {
      var i :| 0 <= i < |t.all| && i < t.gone[m] && IsChat(t.all[i]) && Before(t.at[m], t.all[i].id);
      PassedIsLater(t, m, j, p, i);
      if r >= 0 {
        BeforeThePoll(t, r, m);
        NotBefore(trace[r].entry.id, t.at[m], t.all[i].id);
      } else {
        AfterStart(t, m, t.all[i].id);
      }
    }
  }

  lemma AfterStart(t: Tour, m: nat, id: Id)
    requires Valid(t) && m < |t.parts| && Before(t.at[m], id)
    ensures Before(t.at[0], id)
  {
    MovesOn(t, 0, m);
    NotBefore(t.at[0], t.at[m], id);
  }

  lemma MissedIsReal(t: Tour, p: nat, i: nat)
    requires Valid(t) && p < |Flat(t.parts)| && Sends(Flat(t.parts)[p])
    requires LastBefore(t.at[0], Flat(t.parts), p) != ZERO && i < |t.all| && IsChat(t.all[i])
    requires Before(LastBefore(t.at[0], Flat(t.parts), p), t.all[i].id)
    requires Before(t.all[i].id, Flat(t.parts)[p].entry.id)
    ensures RealGap(t, p)
  {
    var trace, c := Flat(t.parts), t.all[i];
    var r := LastIsSent(t.at[0], trace, p);
    var n, l := PartOf(t.parts, p);
    assert StepOk(t, n) && Passed(trace[p].entry) in t.parts[n];
    StartIsBefore(t, r, c.id);
    NotBefore(c.id, trace[p].entry.id, t.at[n + 1]);
    var m := PassingPoll(t, n + 1, c.id);
    assert StepOk(t, m);
    if Passed(c) in t.parts[m] {
      var j :| 0 <= j < |t.parts[m]| && t.parts[m][j] == Passed(c);
      PartAt(t.parts, m, j);
      Between(t, r, p, Offset(t.parts, m) + j);
      assert Real(t, trace[Offset(t.parts, m) + j]);
    } else {
      if r >= 0 { SentBeforePoll(t, r, m, i); } else { StartIsSet(t, m); }
      assert Behind(m) in t.parts[m] && t.parts[m][0] == Behind(m);
      PartAt(t.parts, m, 0);
      NoteIsBefore(t, m, n, l);
      assert LostAt(t, m) && Real(t, trace[Offset(t.parts, m)]);
    }
  }

  lemma StartIsBefore(t: Tour, r: int, id: Id)
    requires Valid(t) && -1 <= r < |Flat(t.parts)|
    requires if r == -1 then Before(t.at[0], id)
             else Flat(t.parts)[r].Passed? && Before(Flat(t.parts)[r].entry.id, id)
    ensures Before(t.at[0], id)
  {
    if r >= 0 {
      var k, j := PartOf(t.parts, r);
      assert StepOk(t, k) && Passed(t.parts[k][j].entry) in t.parts[k];
      AfterStart(t, k, t.parts[k][j].entry.id);
      Transitive(t.at[0], t.parts[k][j].entry.id, id);
    }
  }

  /** What lies between two passed entries was passed between them. */
  lemma Between(t: Tour, r: int, p: nat, q: nat)
    requires Valid(t) && -1 <= r < p < |Flat(t.parts)| && q < |Flat(t.parts)|
    requires Flat(t.parts)[q].Passed? && Flat(t.parts)[p].Passed? && (r >= 0 ==> Flat(t.parts)[r].Passed?)
    requires Before(Flat(t.parts)[q].entry.id, Flat(t.parts)[p].entry.id)
    requires r >= 0 ==> Before(Flat(t.parts)[r].entry.id, Flat(t.parts)[q].entry.id)
    ensures r < q < p
  {
    if q > p { TraceAscends(t, p, q); }
    if 0 <= q < r { TraceAscends(t, q, r); }
  }

  /** An event before a trimmed entry was sent before the poll that passed that entry. */
  lemma SentBeforePoll(t: Tour, r: nat, m: nat, i: nat)
    requires Valid(t) && r < |Flat(t.parts)| && Flat(t.parts)[r].Passed? && m < |t.parts| && i < |t.all|
    requires Before(Flat(t.parts)[r].entry.id, t.all[i].id) && i < t.gone[m] && PassesAt(t, m, t.all[i].id)
    ensures r < Offset(t.parts, m) && t.at[m] != ZERO
  {
    var k, j := PartOf(t.parts, r);
    var e := t.parts[k][j].entry;
    assert StepOk(t, k) && Passed(e) in t.parts[k];
    if k > m {
      MovesOn(t, m + 1, k);
      NotBefore(t.all[i].id, t.at[m + 1], t.at[k]);
      Transitive(t.at[k], e.id, t.all[i].id);
    } else if k == m {
      var at := IndexOf(t.all, e);
    } else {
      PartAt(t.parts, k, j);
      OffsetsGrow(t.parts, k + 1, m);
      MovesOn(t, k + 1, m);
      NotBefore(e.id, t.at[k + 1], t.at[m]);
      assert e.id != ZERO by { var at := IndexOf(t.all, e); }
    }
  }

  lemma NoteIsBefore(t: Tour, m: nat, n: nat, l: nat)
    requires m <= n < |t.parts| && l < |t.parts[n]| && t.parts[n][l].Passed?
    requires t.parts[m] != [] && t.parts[m][0].Behind?
    ensures Offset(t.parts, m) < Offset(t.parts, n) + l
  {
    if m < n {
      PartAt(t.parts, m, 0);
      OffsetsGrow(t.parts, m + 1, n);
    }
  }

  lemma StartIsSet(t: Tour, m: nat)
    requires Valid(t) && m < |t.parts| && t.at[0] != ZERO
    ensures t.at[m] != ZERO
  {
    MovesOn(t, 0, m);
  }

  /** Before an event that has one before it, or a cursor, a chat was missed exactly if a mark in between is
      real. Every other mark is a poll that was behind the stream without having missed a chat. */
  lemma GapIsReal(t: Tour, p: nat)
    requires Valid(t) && p < |Flat(t.parts)| && Sends(Flat(t.parts)[p])
    requires LastBefore(t.at[0], Flat(t.parts), p) != ZERO
    ensures Missed(t.all, LastBefore(t.at[0], Flat(t.parts), p), Flat(t.parts)[p].entry.id) <==> RealGap(t, p)
    ensures RealGap(t, p) ==> GapBefore(Flat(t.parts), p)
  {
    var from, e := LastBefore(t.at[0], Flat(t.parts), p), Flat(t.parts)[p].entry;
    if RealGap(t, p) {
      var q :| 0 <= q < p && Real(t, Flat(t.parts)[q]) && NoneSent(Flat(t.parts), q + 1, p);
      RealIsMissed(t, p, q);
      assert Marks(Flat(t.parts)[q]);
    }
    if Missed(t.all, from, e.id) {
      var i :| 0 <= i < |t.all| && IsChat(t.all[i]) && Before(from, t.all[i].id) && Before(t.all[i].id, e.id);
      MissedIsReal(t, p, i);
    }
  }

  // ---- The tour of a call ----

  ghost predicate NoneUpTo(polls: seq<Stream>, i: nat) {
    forall j :: 0 <= j <= i && j < |polls| ==> polls[j].generation.None?
  }

  /** The polls of a call that goes on: all of one generation, but for polls of a stream that had none yet,
      and no entries, at the start of a call without a cursor. */
  ghost predicate Going(start: Id, polls: seq<Stream>, n: nat, generation: Name) {
    && Polls(polls) && n <= |polls|
    && forall i :: 0 <= i < n ==> polls[i].generation == Some(generation) || Waiting(start, polls, i)
  }

  ghost predicate Waiting(start: Id, polls: seq<Stream>, i: nat)
    requires Readable(polls) && i < |polls|
  {
    CursorAt(start, polls, i) == ZERO && NoneUpTo(polls, i) && Read(polls[i], ZERO).messages == []
  }

  /** Under one generation the stream only grows, and only loses old entries. */
  lemma {:induction false} StreamGrows(start: Id, polls: seq<Stream>, n: nat, generation: Name, m: nat)
    requires Going(start, polls, n, generation) && m < n && polls[m].generation == Some(generation)
    ensures polls[n - 1].generation == Some(generation)
    ensures polls[m].all <= polls[n - 1].all && polls[m].trimmed <= polls[n - 1].trimmed
    decreases n
  {
    if m < n - 1 {
      StreamGrows(start, polls, n - 1, generation, m);
      assert polls[n - 1].generation == Some(generation);
      assert Sequel(polls, n - 2) && Sequel(polls, n - 1);
      var cs :| Later(polls[n - 2], cs, polls[n - 1]);
      LaterContinues(polls[n - 2], cs, polls[n - 1]);
    }
  }

  /** What one poll passes: the retained entries after the cursor, in order, a hundred at most. */
  lemma PollPasses(s: Stream, after: Id)
    requires WellFormed(s)
    ensures var b, messages := BatchStart(s, after), Read(s, after).messages;
            && s.trimmed <= b && b + |messages| <= |s.all| && messages == s.all[b..b + |messages|]
            && |messages| == (if |s.all| - b < 100 then |s.all| - b else 100)
            && (forall i :: b <= i < |s.all| ==> Before(after, s.all[i].id))
            && (forall i :: s.trimmed <= i < b ==> !Before(after, s.all[i].id))
  {
    BatchIsSlice(s, after);
    BatchSplits(s, after);
  }

  /** A batch from `b` on, seen from a later state of the stream. */
  lemma BatchPasses(all: seq<Entry>, size: nat, b: nat, trimmed: nat, messages: seq<Entry>, after: Id, i: nat)
    requires ChatStream.Ascending(all) && trimmed <= b && b + |messages| <= size <= |all| && i < |all|
    requires messages == all[b..b + |messages|]
    requires forall j :: b <= j < size ==> Before(after, all[j].id)
    requires forall j :: trimmed <= j < b ==> !Before(after, all[j].id)
    ensures !Before(Advance(after, messages), after)
    ensures Before(after, all[i].id) && !Before(Advance(after, messages), all[i].id) ==>
              (all[i] in messages <==> i >= trimmed)
    ensures all[i] in messages ==> Before(after, all[i].id) && !Before(Advance(after, messages), all[i].id)
  {
    var last := b + |messages| - 1;
    if messages != [] {
      assert all[last] == messages[|messages| - 1];
      if all[i] in messages {
        var j :| 0 <= j < |messages| && messages[j] == all[i];
        assert all[b + j] == all[i];
      }
      if b <= i <= last { assert messages[i - b] == all[i]; }
    }
  }

  /** What a poll brings, in terms of the stream at the end. */
  lemma PollBrings(s: Stream, after: Id, all: seq<Entry>, m: nat, i: nat)
    requires WellFormed(s) && s.all <= all && ChatStream.Ascending(all) && i < |all|
    ensures var messages := Read(s, after).messages;
            var next := Advance(after, messages);
            && !Before(next, after)
            && (all[i] in messages ==> Before(after, all[i].id) && !Before(next, all[i].id))
            && (Before(after, all[i].id) && !Before(next, all[i].id) ==> (all[i] in messages <==> i >= s.trimmed))
  {
    var b, messages := BatchStart(s, after), Read(s, after).messages;
    PollPasses(s, after);
    assert s.all[b..b + |messages|] == all[b..b + |messages|];
    BatchPasses(all, |s.all|, b, s.trimmed, messages, after, i);
  }

  /** A poll that passes a trimmed entry is behind. */
  lemma PollNotes(s: Stream, after: Id, all: seq<Entry>, i: nat)
    requires WellFormed(s) && s.all <= all && ChatStream.Ascending(all) && i < |all| && i < s.trimmed
    requires after != ZERO && Before(after, all[i].id) && Read(s, after).messages != []
    ensures GapAt(after, Read(s, after))
  {
    assert Read(s, after).earliest == Some(s.all[s.trimmed].id);
    Transitive(after, all[i].id, all[s.trimmed].id);
  }

  lemma PartInOrder(messages: seq<Entry>, behind: bool, m: nat)
    requires ChatStream.Ascending(messages)
    ensures var part := (if behind then [Behind(m)] else []) + Passings(messages);
            && InOrder(part, m) && (behind ==> Behind(m) in part)
            && (forall e :: Passed(e) in part <==> e in messages)
  {
    var part := (if behind then [Behind(m)] else []) + Passings(messages);
    var d := |part| - |messages|;
    assert forall i :: d <= i < |part| ==> part[i] == Passed(messages[i - d]);
    forall e | e in messages ensures Passed(e) in part {
      var j :| 0 <= j < |messages| && messages[j] == e;
      assert part[d + j] == Passed(e);
    }
    if behind { assert part[0] == Behind(m); }
  }

  /** A poll counts as behind exactly if its cursor is before everything that is left. For the cursor of a
      reader that has read an entry: exactly if that entry has been trimmed and others are left. */
  lemma BehindExactly(s: Stream, after: Id)
    requires WellFormed(s)
    ensures GapAt(after, Read(s, after)) <==>
              after != ZERO && s.trimmed < |s.all| && Before(after, s.all[s.trimmed].id)
    ensures forall i :: 0 <= i < |s.all| && s.all[i].id == after ==>
              (GapAt(after, Read(s, after)) <==> i < s.trimmed < |s.all|)
  {
    assert s.trimmed < |s.all| ==> Retained(s)[0] == s.all[s.trimmed];
  }

  lemma MomentsInOrder(s: Stream, after: Id, m: nat)
    requires WellFormed(s)
    ensures InOrder(MomentsOf(s, after, m), m)
    ensures forall e :: Passed(e) in MomentsOf(s, after, m) <==> e in Read(s, after).messages
    ensures GapAt(after, Read(s, after)) ==> Behind(m) in MomentsOf(s, after, m)
  {
    BatchAscends(s, after);
    PartInOrder(Read(s, after).messages, GapAt(after, Read(s, after)), m);
  }

  lemma BatchAscends(s: Stream, after: Id)
    requires WellFormed(s)
    ensures ChatStream.Ascending(Read(s, after).messages)
  {
    PollPasses(s, after);
  }

  function CursorsOf(start: Id, polls: seq<Stream>, n: nat): (at: seq<Id>)
    requires Readable(polls) && n <= |polls|
    ensures |at| == n + 1 && forall m :: 0 <= m <= n ==> at[m] == CursorAt(start, polls, m)
  {
    seq(n + 1, m requires 0 <= m <= n => CursorAt(start, polls, m))
  }

  function GoneOf(polls: seq<Stream>, n: nat, generation: Name): (gone: seq<nat>)
    requires n <= |polls|
    ensures |gone| == n
    ensures forall m :: 0 <= m < n ==>
              gone[m] == if polls[m].generation == Some(generation) then polls[m].trimmed else 0
  {
    seq(n, m requires 0 <= m < n => if polls[m].generation == Some(generation) then polls[m].trimmed else 0)
  }

  ghost function TourOf(start: Id, polls: seq<Stream>, n: nat, generation: Name): Tour
    requires Readable(polls) && 0 < n <= |polls|
  {
    Tour(polls[n - 1].all, CursorsOf(start, polls, n), GoneOf(polls, n, generation), PartsOf(start, polls, n))
  }

  lemma TourAt(start: Id, polls: seq<Stream>, n: nat, generation: Name, m: nat)
    requires Readable(polls) && m < n <= |polls|
    ensures var t, after := TourOf(start, polls, n, generation), CursorAt(start, polls, m);
            && |t.at| == n + 1 && |t.gone| == n == |t.parts| && t.at[m] == after
            && t.at[m + 1] == Advance(after, Read(polls[m], after).messages)
            && t.parts[m] == MomentsOf(polls[m], after, m)
            && t.gone[m] == (if polls[m].generation == Some(generation) then polls[m].trimmed else 0)
  {
    CursorNext(start, polls, m);
    PartsAt(start, polls, n, m);
  }

  lemma CursorNext(start: Id, polls: seq<Stream>, m: nat)
    requires Readable(polls) && m < |polls|
    ensures CursorAt(start, polls, m + 1)
            == Advance(CursorAt(start, polls, m), Read(polls[m], CursorAt(start, polls, m)).messages)
  {
  }

  lemma WaitingBrings(t: Tour, s: Stream, m: nat)
    requires m + 1 < |t.at| && m < |t.gone| && m < |t.parts| && s.trimmed <= |s.all|
    requires t.at[m] == ZERO && t.at[m + 1] == Advance(ZERO, Read(s, ZERO).messages)
    requires Read(s, ZERO).messages == [] && t.parts[m] == MomentsOf(s, ZERO, m)
    ensures Brings(t, m) && !Before(t.at[m + 1], t.at[m])
  {
    assert t.parts[m] == [];
  }

  lemma PollIsBrought(start: Id, polls: seq<Stream>, n: nat, generation: Name, m: nat)
    requires Going(start, polls, n, generation) && m < n && polls[n - 1].generation == Some(generation)
    ensures var t := TourOf(start, polls, n, generation);
            |t.at| == n + 1 && |t.gone| == n == |t.parts| && Brings(t, m) && !Before(t.at[m + 1], t.at[m])
  {
    var t, after := TourOf(start, polls, n, generation), CursorAt(start, polls, m);
    TourAt(start, polls, n, generation, m);
    assert Sequel(polls, m) && Sequel(polls, n - 1);
    if polls[m].generation == Some(generation) {
      StreamGrows(start, polls, n, generation, m);
      GoingBrings(t, polls[m], after, m);
    } else {
      WaitingBrings(t, polls[m], m);
    }
  }

  lemma GoingBrings(t: Tour, s: Stream, after: Id, m: nat)
    requires WellFormed(s) && s.all <= t.all && ChatStream.Ascending(t.all)
    requires m + 1 < |t.at| && m < |t.gone| && m < |t.parts|
    requires t.at[m] == after && t.at[m + 1] == Advance(after, Read(s, after).messages) && t.gone[m] == s.trimmed
    requires t.parts[m] == MomentsOf(s, after, m)
    ensures Brings(t, m) && !Before(t.at[m + 1], t.at[m])
  {
    MomentsInOrder(s, after, m);
    PollPasses(s, after);
    forall e | Passed(e) in t.parts[m] ensures e in t.all && PassesAt(t, m, e.id) {
      assert e in s.all;
      var i := IndexOf(t.all, e);
      PollBrings(s, after, t.all, m, i);
    }
    forall i | 0 <= i < |t.all| && PassesAt(t, m, t.all[i].id)
      ensures Passed(t.all[i]) in t.parts[m] <==> i >= t.gone[m]
      ensures i < t.gone[m] && t.at[m] != ZERO ==> Behind(m) in t.parts[m]
    {
      PollBrings(s, after, t.all, m, i);
      if i < t.gone[m] && t.at[m] != ZERO { PollNotes(s, after, t.all, i); }
    }
    if Read(s, after).messages != [] { PollBrings(s, after, t.all, m, 0); }
  }

  lemma GoneIsSorted(start: Id, polls: seq<Stream>, n: nat, generation: Name, m: nat)
    requires Going(start, polls, n, generation) && 0 < m < n
    ensures GoneOf(polls, n, generation)[m - 1] <= GoneOf(polls, n, generation)[m]
  {
    if polls[m - 1].generation == Some(generation) {
      assert Going(start, polls, m + 1, generation);
      StreamGrows(start, polls, m + 1, generation, m - 1);
    }
  }

  lemma PollIsOk(start: Id, polls: seq<Stream>, n: nat, generation: Name, m: nat)
    requires Going(start, polls, n, generation) && m < n && polls[n - 1].generation == Some(generation)
    ensures var t := TourOf(start, polls, n, generation);
            |t.at| == n + 1 && |t.gone| == n == |t.parts| && StepOk(t, m)
  {
    PollIsBrought(start, polls, n, generation, m);
    if m > 0 { GoneIsSorted(start, polls, n, generation, m); }
  }

  lemma TourIsValid(start: Id, polls: seq<Stream>, n: nat, generation: Name)
    requires Going(start, polls, n, generation) && n > 0 && polls[n - 1].generation == Some(generation)
    ensures Valid(TourOf(start, polls, n, generation))
  {
    var t := TourOf(start, polls, n, generation);
    assert Sequel(polls, n - 1);
    forall m | 0 <= m < n ensures StepOk(t, m) { PollIsOk(start, polls, n, generation, m); }
  }

  /** In every call, a chat with a timestamp that the cursor has gone past was sent, exactly unless it had
      been trimmed from the stream before the poll that passed it. */
  lemma EveryChatIsSent(start: Id, polls: seq<Stream>, n: nat, generation: Name, i: nat) returns (m: nat)
    requires Going(start, polls, n, generation) && n > 0 && polls[n - 1].generation == Some(generation)
    requires i < |polls[n - 1].all| && Sendable(polls[n - 1].all[i])
    requires Before(start, polls[n - 1].all[i].id) && !Before(CursorAt(start, polls, n), polls[n - 1].all[i].id)
    ensures m < n && polls[m].generation == Some(generation)
    ensures var e := polls[n - 1].all[i];
            && Before(CursorAt(start, polls, m), e.id) && !Before(CursorAt(start, polls, m + 1), e.id)
            && (IsSent(EventsOf(TraceOf(start, polls, n), generation), e) <==> i >= polls[m].trimmed)
  {
    TourIsValid(start, polls, n, generation);
    m := SentUnlessGone(TourOf(start, polls, n, generation), generation, i);
    TourAt(start, polls, n, generation, m);
  }

  /** In every call, a chat was missed right before an event, that has one before it or a cursor, exactly if
      a chat without a timestamp was passed in between or a poll in between found one trimmed. */
  lemma GapsAreReal(start: Id, polls: seq<Stream>, n: nat, generation: Name, p: nat)
    requires Going(start, polls, n, generation) && n > 0 && polls[n - 1].generation == Some(generation)
    requires p < |TraceOf(start, polls, n)| && Sends(TraceOf(start, polls, n)[p])
    requires LastBefore(start, TraceOf(start, polls, n), p) != ZERO
    ensures var trace := TraceOf(start, polls, n);
            && (Missed(polls[n - 1].all, LastBefore(start, trace, p), trace[p].entry.id)
                <==> RealGap(TourOf(start, polls, n, generation), p))
            && (RealGap(TourOf(start, polls, n, generation), p) ==> GapBefore(trace, p))
  {
    TourIsValid(start, polls, n, generation);
    GapIsReal(TourOf(start, polls, n, generation), p);
  }

  // ---- A mark without a gap ----

  const FIRST := Entry(Id(1, 0), Name("a"), true, Name("u"), Some(0), Name("m"))
  const SECOND_ENTRY := Entry(Id(2, 0), Name("b"), true, Name("u"), Some(0), Name("m"))

  /** A reader that has read everything is marked as behind when its last entry is trimmed before the next
      one is published, although nothing is missing. */
  lemma MarkWithoutGap() returns (polls: seq<Stream>, generation: Name)
    ensures Going(ZERO, polls, 2, generation) && |polls| == 2 && polls[1].generation == Some(generation)
    ensures var trace := TraceOf(ZERO, polls, 2);
            && trace == [Passed(FIRST), Behind(1), Passed(SECOND_ENTRY)]
            && EventsOf(trace, generation)
               == [ChatEvent(FIRST, generation, false), ChatEvent(SECOND_ENTRY, generation, true)]
            && !Missed(polls[1].all, FIRST.id, SECOND_ENTRY.id)
  {
    generation := Name("g");
    var s := Stream(true, Some(generation), [FIRST], 0, {generation});
    var change := Publish(SECOND_ENTRY, Name("h"), Id(2, 0));
    var t := Changed(s, change);
    polls := [s, t];
    MarkedStreams(s, t, change);
    MarkedPolls(s, t, change);
    MarkedTrace(s, t);
    MarkedEvents(generation);
  }

  lemma MarkedPolls(s: Stream, t: Stream, change: Change)
    requires WellFormed(s) && WellFormed(t) && Can(s, change) && t == Changed(s, change)
    ensures Polls([s, t])
  {
    assert Later(s, [change], t) by { assert [change][1..] == [] && Later(t, [], t); }
    assert Follows(s, t);
  }

  lemma MarkedTrace(s: Stream, t: Stream)
    requires s.trimmed <= |s.all| && t.trimmed <= |t.all| && Readable([s, t])
    requires Read(s, ZERO).messages == [FIRST] && !GapAt(ZERO, Read(s, ZERO))
    requires Read(t, FIRST.id).messages == [SECOND_ENTRY] && GapAt(FIRST.id, Read(t, FIRST.id))
    ensures TraceOf(ZERO, [s, t], 2) == [Passed(FIRST), Behind(1), Passed(SECOND_ENTRY)]
  {
    MarkedMoments(s, t);
    MarkedCursor(s, t);
    TwoPolls(ZERO, [s, t], [Passed(FIRST)], [Behind(1), Passed(SECOND_ENTRY)]);
  }

  lemma MarkedCursor(s: Stream, t: Stream)
    requires s.trimmed <= |s.all| && Readable([s, t]) && Read(s, ZERO).messages == [FIRST]
    ensures CursorAt(ZERO, [s, t], 0) == ZERO && CursorAt(ZERO, [s, t], 1) == FIRST.id
  {
    CursorNext(ZERO, [s, t], 0);
  }

  lemma TwoPolls(start: Id, polls: seq<Stream>, first: seq<Moment>, second: seq<Moment>)
    requires Readable(polls) && |polls| == 2
    requires MomentsOf(polls[0], CursorAt(start, polls, 0), 0) == first
    requires MomentsOf(polls[1], CursorAt(start, polls, 1), 1) == second
    ensures TraceOf(start, polls, 2) == first + second
  {
    TwoParts(MomentsAt(start, polls), first, second);
  }

  lemma TwoParts(f: nat -> seq<Moment>, first: seq<Moment>, second: seq<Moment>)
    requires f(0) == first && f(1) == second
    ensures Flat(Collect(f, 2)) == first + second
  {
    CollectNext(f, 0);
    CollectNext(f, 1);
  }

  lemma MarkedMoments(s: Stream, t: Stream)
    requires s.trimmed <= |s.all| && t.trimmed <= |t.all|
    requires Read(s, ZERO).messages == [FIRST] && !GapAt(ZERO, Read(s, ZERO))
    requires Read(t, FIRST.id).messages == [SECOND_ENTRY] && GapAt(FIRST.id, Read(t, FIRST.id))
    ensures MomentsOf(s, ZERO, 0) == [Passed(FIRST)]
    ensures MomentsOf(t, FIRST.id, 1) == [Behind(1), Passed(SECOND_ENTRY)]
  {
    assert Passings([FIRST]) == [Passed(FIRST)] && Passings([SECOND_ENTRY]) == [Passed(SECOND_ENTRY)];
  }

  lemma MarkedStreams(s: Stream, t: Stream, change: Change)
    requires s == Stream(true, Some(Name("g")), [FIRST], 0, {Name("g")})
    requires change == Publish(SECOND_ENTRY, Name("h"), Id(2, 0)) && t == Changed(s, change)
    ensures WellFormed(s) && WellFormed(t) && Can(s, change) && t.generation == s.generation
    ensures t.all == [FIRST, SECOND_ENTRY] && t.trimmed == 1
    ensures Read(s, ZERO).messages == [FIRST] && !GapAt(ZERO, Read(s, ZERO))
    ensures Read(t, FIRST.id).messages == [SECOND_ENTRY] && GapAt(FIRST.id, Read(t, FIRST.id))
  {
    var all := [FIRST] + [SECOND_ENTRY];
    assert all == [FIRST, SECOND_ENTRY] && all[1..] == [SECOND_ENTRY];
    assert Older(all, Id(2, 0)) == 1 + Older(all[1..], Id(2, 0));
    assert s.all[0..] == [FIRST] && t.all[1..] == [SECOND_ENTRY];
    assert UpTo([FIRST], ZERO) == 0 && UpTo([SECOND_ENTRY], FIRST.id) == 0;
    assert [FIRST][0..] == [FIRST] && [SECOND_ENTRY][0..] == [SECOND_ENTRY];
  }

  lemma MarkedEvents(generation: Name)
    ensures EventsOf([Passed(FIRST), Behind(1), Passed(SECOND_ENTRY)], generation)
            == [ChatEvent(FIRST, generation, false), ChatEvent(SECOND_ENTRY, generation, true)]
  {
    TraceStep([], Passed(FIRST), generation);
    TraceStep([Passed(FIRST)], Behind(1), generation);
    TraceStep([Passed(FIRST), Behind(1)], Passed(SECOND_ENTRY), generation);
    assert [] + [Passed(FIRST)] == [Passed(FIRST)];
    assert [Passed(FIRST)] + [Behind(1)] == [Passed(FIRST), Behind(1)];
    assert [Passed(FIRST), Behind(1)] + [Passed(SECOND_ENTRY)] == [Passed(FIRST), Behind(1), Passed(SECOND_ENTRY)];
  }
}
