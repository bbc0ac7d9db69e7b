/** The spool's own operations over its directory and the store: draining in file-name order, and
    saving under a deadline. */
module DonationSpools {
  import opened JournalTypes
  import opened JournalOps
  import opened WorkerRuns
  import opened PgStores

  // ---- File-name order ----

  predicate Lex(a: string, b: string)
    decreases |a|
  {
    b != [] && (a == [] || a[0] < b[0] || (a[0] == b[0] && Lex(a[1..], b[1..])))
  }

  /** Names sort by zero-padded acceptance time, then by the event ID together with the file ending. */
  predicate Before(m: FileName, n: FileName) {
    m.at < n.at || (m.at == n.at && Lex(Ending(m), Ending(n)))
  }

  function Ending(n: FileName): string { n.event.text + ".json" }

  lemma {:induction false} LexOrders(a: string, b: string, c: string)
    ensures Lex(a, b) || a == b || Lex(b, a)
    ensures Lex(a, b) && Lex(b, c) ==> Lex(a, c)
    decreases |a|
  {
    if a != [] && b != [] {
      if c != [] {
        LexOrders(a[1..], b[1..], c[1..]);
      } else {
        LexOrders(a[1..], b[1..], []);
      }
      assert a == [a[0]] + a[1..] && b == [b[0]] + b[1..];
    }
  }

  lemma BeforeOrders(l: FileName, m: FileName, n: FileName)
    ensures Before(l, m) || l == m || Before(m, l)
    ensures Before(l, m) && Before(m, n) ==> Before(l, n)
  {
    LexOrders(Ending(l), Ending(m), Ending(n));
    if Ending(l) == Ending(m) {
      assert l.event.text == Ending(l)[..|Ending(l)| - 5] && m.event.text == Ending(m)[..|Ending(m)| - 5];
    }
  }

  lemma {:induction false} FirstName(names: set<FileName>) returns (first: FileName)
    requires names != {}
    ensures first in names && forall m :: m in names && m != first ==> Before(first, m)
    decreases |names|
  {
    first :| first in names;
    var rest := names - {first};
    if rest == {} {
      assert forall m :: m in names && m != first ==> m in rest;
    } else {
      var other := FirstName(rest);
      BeforeOrders(first, other, other);
      var x := first;
      first := if Before(x, other) then x else other;
      forall m | m in names && m != first ensures Before(first, m) {
        assert m == x || m in rest;
        if m != x { BeforeOrders(x, other, m); }
      }
    }
  }

  /** `files` holds the names of `dir`, each once, in order. */
  ghost predicate Listed(files: seq<FileName>, names: set<FileName>) {
    && (forall i :: 0 <= i < |files| ==> files[i] in names)
    && (forall n :: n in names ==> n in files)
    && (forall i, j :: 0 <= i < j < |files| ==> files[i] != files[j] && Before(files[i], files[j]))
  }

  method Sorted(names: set<FileName>) returns (files: seq<FileName>)
    ensures Listed(files, names)
  {
    files := [];
    var rest := names;
    while rest != {}
      invariant rest <= names
      invariant forall i :: 0 <= i < |files| ==> files[i] in names
      invariant forall n :: n in names ==> n in rest || n in files
      invariant forall i, n :: 0 <= i < |files| && n in rest ==> files[i] != n && Before(files[i], n)
      invariant forall i, j :: 0 <= i < j < |files| ==> files[i] != files[j] && Before(files[i], files[j])
      decreases rest
    {
      ghost var first := FirstName(rest);
      var n :| n in rest && forall m :: m in rest && m != n ==> Before(n, m);
      files := files + [n];
      rest := rest - {n};
    }
  }

  /** The directory without its first `k` listed files. */
  function Without(dir: map<FileName, Record>, files: seq<FileName>, k: nat): map<FileName, Record>
    requires k <= |files|
  {
    if k == 0 then dir else Without(dir, files, k - 1) - {files[k - 1]}
  }

  lemma {:induction false} WithoutPrefix(dir: map<FileName, Record>, files: seq<FileName>, k: nat, n: FileName)
    requires k <= |files|
    ensures n in Without(dir, files, k) <==> n in dir && n !in files[..k]
    ensures n in Without(dir, files, k) ==> Without(dir, files, k)[n] == dir[n]
    decreases k
  {
    if k > 0 {
      WithoutPrefix(dir, files, k - 1, n);
      assert files[..k] == files[..k - 1] + [files[k - 1]];
    }
  }

  // ---- Submitting records ----

  datatype Outcome = Done | Refused(error: Error) | Unavailable | Blocked | TooOld | Full | Expired

  /** The store after submitting records in order. */
  ghost function Submitted(s: Store, records: seq<Record>, length: Donation -> nat, size: Donation -> nat): Store
    decreases |records|
  {
    if records == [] then s
    else
      var r := records[|records| - 1];
      Append(Submitted(s, records[..|records| - 1], length, size), r.grant, r.donation, r.acceptedAt,
             length(r.donation), size(r.donation)).0
  }

  lemma AppendKeepsEvents(s: Store, r: Record, length: nat, size: nat, e: EventId)
    ensures e in s.donations ==> e in Append(s, r.grant, r.donation, r.acceptedAt, length, size).0.donations
    ensures Append(s, r.grant, r.donation, r.acceptedAt, length, size).1.Ok? ==>
              r.donation.eventId in Append(s, r.grant, r.donation, r.acceptedAt, length, size).0.donations
  {
  }

  /** The submitted records are the spooled ones, in file order. */
  ghost predicate Matched(json: map<FileName, Record>, files: seq<FileName>, submitted: seq<Record>) {
    |submitted| <= |files| && forall i :: 0 <= i < |submitted| ==> files[i] in json && submitted[i] == json[files[i]]
  }

  ghost predicate Taken(submitted: seq<Record>, removed: nat, journaled: set<EventId>) {
    removed <= |submitted| && forall i :: 0 <= i < removed ==> submitted[i].donation.eventId in journaled
  }

  /** How far a drain has come: `removed` files are gone and at most one more was submitted. */
  ghost predicate Drained(before: map<FileName, Record>, json: map<FileName, Record>, files: seq<FileName>,
                          removed: nat, submitted: seq<Record>, journaled: set<EventId>, going: bool)
  {
    && removed <= |submitted| <= removed + 1 && |submitted| <= |files| && (going ==> |submitted| == removed)
    && json == Without(before, files, removed) && Matched(before, files, submitted)
    && Taken(submitted, removed, journaled)
  }

  lemma DrainStep(before: map<FileName, Record>, json: map<FileName, Record>, files: seq<FileName>, removed: nat,
                  submitted: seq<Record>, taken: set<EventId>, next: seq<Record>, journaled: set<EventId>, done: bool)
    requires Drained(before, json, files, removed, submitted, taken, true) && removed < |files| && taken <= journaled
    requires files[removed] in json && files[removed] in before && json[files[removed]] == before[files[removed]]
    requires next == submitted + [json[files[removed]]] || (next == submitted && !done)
    requires done ==> json[files[removed]].donation.eventId in journaled
    ensures if done then Drained(before, json - {files[removed]}, files, removed + 1, next, journaled, true)
            else Drained(before, json, files, removed, next, journaled, false)
  {
    MatchOneMore(before, files, submitted, removed, taken, journaled);
  }

  lemma MatchOneMore(json: map<FileName, Record>, files: seq<FileName>, submitted: seq<Record>, removed: nat,
                     taken: set<EventId>, journaled: set<EventId>)
    requires Matched(json, files, submitted) && Taken(submitted, removed, taken) && taken <= journaled
    ensures Taken(submitted, removed, journaled)
    ensures |submitted| < |files| && files[|submitted|] in json ==>
              var record := json[files[|submitted|]];
              && Matched(json, files, submitted + [record]) && Taken(submitted + [record], removed, journaled)
              && (removed == |submitted| && record.donation.eventId in journaled ==>
                    Taken(submitted + [record], removed + 1, journaled))
  {
  }

  // ---- How a drain ends ----

  ghost function Answer(s: Store, r: Record, length: Donation -> nat, size: Donation -> nat): Result<Donation> {
    Append(s, r.grant, r.donation, r.acceptedAt, length(r.donation), size(r.donation)).1
  }

  /** Why a record could not be taken from the spool: it is over thirty days old, the journal cannot be
      reached or fails, or it is refused for good. */
  ghost predicate StopsAt(record: Record, reachable: bool, now: Time, answer: Result<Donation>, r: Outcome) {
    var old30 := now - record.acceptedAt > 30 * DAY;
    var final := answer.Err? && answer.error in {Owner, Generation, Disabled, CursorExpired, Conflict};
    && (old30 ==> r == TooOld)
    && (!old30 && (!reachable || (answer.Err? && !final)) ==> r == Unavailable)
    && (!old30 && reachable && final ==> r == Refused(answer.error))
    && (old30 || !reachable || answer.Err?)
  }

  /** A drain has removed exactly the leading files it could submit, and stopped at the first it could
      not, for the reason it tells. */
  ghost predicate DrainEnds(before: map<FileName, Record>, after: map<FileName, Record>, files: seq<FileName>,
                            removed: nat, submitted: seq<Record>, r: Outcome, s: Store, t: Store,
                            length: Donation -> nat, size: Donation -> nat, reach: nat, now: Time)
  {
    && Listed(files, before.Keys) && removed <= |files| && after == Without(before, files, removed)
    && Matched(before, files, submitted) && Taken(submitted, removed, t.donations.Keys)
    && |submitted| <= removed + 1 && t == Submitted(s, submitted, length, size)
    && (r == Done <==> removed == |files|)
    && (removed < |files| ==> Stopped(before, files, removed, submitted, r, s, length, size, reach, now))
  }

  ghost predicate Stopped(before: map<FileName, Record>, files: seq<FileName>, removed: nat, submitted: seq<Record>,
                          r: Outcome, s: Store, length: Donation -> nat, size: Donation -> nat, reach: nat, now: Time)
  {
    && removed < |files| && files[removed] in before && removed <= |submitted|
    && StopsAt(before[files[removed]], removed < reach, now,
               Answer(Submitted(s, submitted[..removed], length, size), before[files[removed]], length, size), r)
  }

  /** How far a drain has come, or why it stopped. */
  ghost predicate DrainedSoFar(before: map<FileName, Record>, json: map<FileName, Record>, files: seq<FileName>,
                               removed: nat, submitted: seq<Record>, journaled: set<EventId>, r: Outcome, s: Store,
                               length: Donation -> nat, size: Donation -> nat, reach: nat, now: Time)
  {
    && removed <= |files| && Drained(before, json, files, removed, submitted, journaled, r == Done)
    && (r != Done ==> Stopped(before, files, removed, submitted, r, s, length, size, reach, now))
  }

  lemma NextIsThere(before: map<FileName, Record>, json: map<FileName, Record>, files: seq<FileName>, removed: nat)
    requires Listed(files, before.Keys) && removed < |files| && json == Without(before, files, removed)
    ensures files[removed] in before && files[removed] in json && json[files[removed]] == before[files[removed]]
  {
    WithoutPrefix(before, files, removed, files[removed]);
    assert files[removed] !in files[..removed];
  }

  lemma DrainNext(before: map<FileName, Record>, json: map<FileName, Record>, files: seq<FileName>, removed: nat,
                  submitted: seq<Record>, taken: set<EventId>, next: seq<Record>, journaled: set<EventId>, r: Outcome,
                  s: Store, length: Donation -> nat, size: Donation -> nat, reach: nat, now: Time)
    requires DrainedSoFar(before, json, files, removed, submitted, taken, Done, s, length, size, reach, now)
    requires Listed(files, before.Keys) && removed < |files| && taken <= journaled
    requires files[removed] in json && files[removed] in before && json[files[removed]] == before[files[removed]]
    requires next == submitted + [json[files[removed]]] || (next == submitted && r != Done)
    requires r == Done ==> json[files[removed]].donation.eventId in journaled
    requires r != Done ==>
               StopsAt(json[files[removed]], removed < reach, now,
                       Answer(Submitted(s, submitted, length, size), json[files[removed]], length, size), r)
    ensures if r == Done
            then DrainedSoFar(before, json - {files[removed]}, files, removed + 1, next, journaled, Done, s, length,
                              size, reach, now)
            else DrainedSoFar(before, json, files, removed, next, journaled, r, s, length, size, reach, now)
  {
    DrainStep(before, json, files, removed, submitted, taken, next, journaled, r == Done);
    assert next[..removed] == submitted;
  }

  class DonationSpool {
    const journal: PgStore
    const length: Donation -> nat
    const size: Donation -> nat
    const maxFiles: nat
    const maxBytes: nat
    const bytes: Record -> nat
    var json: map<FileName, Record>
    var pending: set<FileName>
    var unknown: set<Name> // other directory entries, which nothing here creates

    ghost predicate Clean()
      reads this
    {
      pending == {} && unknown == {}
    }

    constructor (journal: PgStore, length: Donation -> nat, size: Donation -> nat, maxFiles: nat, maxBytes: nat,
                 bytes: Record -> nat)
      ensures this.journal == journal && this.length == length && this.size == size
      ensures this.maxFiles == maxFiles && this.maxBytes == maxBytes && this.bytes == bytes
      ensures json == map[] && Clean()
    {
      this.journal, this.length, this.size := journal, length, size;
      this.maxFiles, this.maxBytes, this.bytes := maxFiles, maxBytes, bytes;
      json, pending, unknown := map[], {}, {};
    }

    /** Submits one more record, after those in `done`. */
    method Submit(record: Record, now: Time, ghost was: Store, ghost done: seq<Record>)
      returns (result: Result<Donation>)
      requires journal.View(now) == Submitted(was, done, length, size)
      modifies journal
      ensures journal.View(now) == Submitted(was, done + [record], length, size)
      ensures old(journal.donations).Keys <= journal.donations.Keys
      ensures result == Answer(Submitted(was, done, length, size), record, length, size)
      ensures result.Ok? ==> record.donation.eventId in journal.donations
    {
      ghost var before := journal.View(now);
      result := journal.AppendDonation(record.grant, record.donation, record.acceptedAt,
                                       length(record.donation), size(record.donation), now);
      assert (done + [record])[..|done|] == done;
      forall e ensures e in before.donations ==> e in journal.donations {
        AppendKeepsEvents(before, record, length(record.donation), size(record.donation), e);
      }
      AppendKeepsEvents(before, record, length(record.donation), size(record.donation), record.donation.eventId);
    }

    method Try(record: Record, reachable: bool, now: Time, ghost was: Store, ghost done: seq<Record>)
      returns (r: Outcome, ghost submitted: seq<Record>)
      requires journal.View(now) == Submitted(was, done, length, size)
      modifies journal
      ensures journal.View(now) == Submitted(was, submitted, length, size)
      ensures submitted == done + [record] || (submitted == done && r != Done)
      ensures old(journal.donations).Keys <= journal.donations.Keys
      ensures r == Done ==> record.donation.eventId in journal.donations
      ensures r != Done ==>
                StopsAt(record, reachable, now, Answer(Submitted(was, done, length, size), record, length, size), r)
      ensures r == Done || r == TooOld || r == Unavailable || r.Refused?
    {
      submitted := done;
      if now - record.acceptedAt > 30 * DAY {
        r := TooOld;
      } else if !reachable {
        r := Unavailable;
      } else {
        var result := Submit(record, now, was, done);
        submitted := done + [record];
        r := if result.Ok? then Done else if Definite(result.error) then Refused(result.error) else Unavailable;
      }
    }

    /** Lists the directory and adds up its files, unless a record is incomplete or an entry unknown. */
    method Files() returns (files: Option<seq<FileName>>, total: nat)
      ensures files.Some? <==> Clean()
      ensures files.Some? ==> Listed(files.value, json.Keys) && total == DirBytes(json, files.value, bytes)
    {
      if pending != {} || unknown != {} { return None, 0; }
      var names := Sorted(json.Keys);
      total := 0;
      var i := 0;
      assert names[..0] == [];
      while i < |names|
        invariant 0 <= i <= |names| && total == DirBytes(json, names[..i], bytes)
      {
        assert names[..i + 1][..i] == names[..i];
        total := total + bytes(json[names[i]]);
        i := i + 1;
      }
      assert names[..i] == names;
      files := Some(names);
    }

    /** Submits the spooled records in name order and removes exactly the leading ones the journal
        took; it stops at the first that is too old, refused, or finds the journal unavailable.
        `reach` is how many submissions get through before an outage. */
    method Drain(reach: nat, now: Time)
      returns (files: seq<FileName>, removed: nat, r: Outcome, ghost submitted: seq<Record>)
      modifies this`json, journal
      ensures !old(Clean()) ==> r == Blocked && json == old(json) && journal.View(now) == old(journal.View(now))
      ensures old(Clean()) ==> DrainEnds(old(json), json, files, removed, submitted, r, old(journal.View(now)),
                                         journal.View(now), length, size, reach, now)
    {
      files, removed, submitted := [], 0, [];
      var listing, _ := Files();
      if listing.None? {
        r := Blocked;
        return;
      }
      files := listing.value;
      removed, r, submitted := DrainFiles(files, reach, now);
    }

    method DrainFiles(files: seq<FileName>, reach: nat, now: Time)
      returns (removed: nat, r: Outcome, ghost submitted: seq<Record>)
      requires Listed(files, json.Keys)
      modifies this`json, journal
      ensures DrainEnds(old(json), json, files, removed, submitted, r, old(journal.View(now)), journal.View(now),
                        length, size, reach, now)
    {
      ghost var was := journal.View(now);
      removed, r, submitted := 0, Done, [];
      while removed < |files| && r == Done
        invariant removed <= |files|
        invariant DrainedSoFar(old(json), json, files, removed, submitted, journal.donations.Keys, r, was, length,
                               size, reach, now)
        invariant journal.View(now) == Submitted(was, submitted, length, size)
        decreases |files| - removed, r == Done
      {
        removed, r, submitted := DrainOne(files, removed, reach, now, old(json), was, submitted);
      }
    }

    /** Submits the next record and removes its file if the journal took it. */
    method DrainOne(files: seq<FileName>, removed0: nat, reach: nat, now: Time, ghost before: map<FileName, Record>,
                    ghost was: Store, ghost submitted0: seq<Record>)
      returns (removed: nat, r: Outcome, ghost submitted: seq<Record>)
      requires Listed(files, before.Keys) && removed0 < |files|
      requires DrainedSoFar(before, json, files, removed0, submitted0, journal.donations.Keys, Done, was, length, size,
                            reach, now)
      requires journal.View(now) == Submitted(was, submitted0, length, size)
      modifies this`json, journal
      ensures removed == (if r == Done then removed0 + 1 else removed0)
      ensures DrainedSoFar(before, json, files, removed, submitted, journal.donations.Keys, r, was, length, size,
                           reach, now)
      ensures journal.View(now) == Submitted(was, submitted, length, size)
    {
      NextIsThere(before, json, files, removed0);
      ghost var taken := journal.donations.Keys;
      r, submitted := Try(json[files[removed0]], removed0 < reach, now, was, submitted0);
      DrainNext(before, json, files, removed0, submitted0, taken, submitted, journal.donations.Keys, r, was, length,
                size, reach, now);
      removed := removed0;
      if r == Done {
        json := json - {files[removed0]};
        removed := removed0 + 1;
      }
    }

    /** Whether one more record fits: by the number of files, then by their bytes and its own. */
    ghost predicate HasRoom(record: Record)
      reads this
    {
      exists files :: Listed(files, json.Keys) && |files| < maxFiles
                      && DirBytes(json, files, bytes) + bytes(record) <= maxBytes
    }

    /** Whether the record passes every check of a save. */
    ghost predicate Passes(record: Record, deadline: Time, t0: Time, t2: Time)
      reads this
    {
      && record.donation.Acceptable() && t0 < deadline && Clean() && HasRoom(record)
      && '/' !in record.donation.eventId.text && t2 < deadline
    }

    /** The first check a record fails. */
    ghost function Problem(record: Record, deadline: Time, t0: Time): Outcome
      reads this
    {
      if !record.donation.Acceptable() then Refused(Invalid)
      else if t0 >= deadline then Expired
      else if !Clean() then Blocked
      else if !HasRoom(record) then Full
      else if '/' in record.donation.eventId.text then Refused(Invalid)
      else Expired
    }

    /** A save: publish under the deadline, then drain. It reports success once the record is durably
        published, even if the journal cannot be reached. The time readings are those of the checks
        before acceptance, at acceptance and before publication. */
    method Save(g: OwnerGrant, d: Donation, deadline: Time, t0: Time, t1: Time, t2: Time, reach: nat)
      returns (r: Outcome, ghost files: seq<FileName>, ghost removed: nat, ghost submitted: seq<Record>)
      requires t0 <= t1 <= t2
      modifies this, journal
      ensures var record := Record(g, d, t1);
              old(Passes(record, deadline, t0, t2)) ==>
                && Clean()
                && DrainEnds(old(json)[NameOf(record) := record], json, files, removed, submitted, r,
                             old(journal.View(t2)), journal.View(t2), length, size, reach, t2)
      ensures var record := Record(g, d, t1);
              !old(Passes(record, deadline, t0, t2)) ==>
                && r == old(Problem(record, deadline, t0)) && json == old(json)
                && journal.View(t2) == old(journal.View(t2)) && pending <= old(pending) + {NameOf(record)}
      ensures var record := Record(g, d, t1);
              r == Done || r == Unavailable ==>
                (NameOf(record) in json && json[NameOf(record)] == record) || d.eventId in journal.donations
    {
      files, removed, submitted := [], 0, [];
      if !d.Acceptable() {
        r := Refused(Invalid);
        return;
      }
      if t0 >= deadline {
        r := Expired;
        return;
      }
      var spooled, total := Files();
      if spooled.None? {
        r := Blocked;
        return;
      }
      var record := Record(g, d, t1);
      if |spooled.value| >= maxFiles || total + bytes(record) > maxBytes {
        NoRoom(spooled.value, record);
        r := Full;
        return;
      }
      if '/' in d.eventId.text {
        r := Refused(Invalid);
        return;
      }
      r, files, removed, submitted := Publish(record, deadline, t2, reach);
    }

    lemma NoRoom(files: seq<FileName>, record: Record)
      requires Listed(files, json.Keys)
      requires |files| >= maxFiles || DirBytes(json, files, bytes) + bytes(record) > maxBytes
      ensures !HasRoom(record)
    {
      forall other | Listed(other, json.Keys) ensures other == files {
        if |other| >= |files| { ListedOnce(other, files, json.Keys); } else { ListedOnce(files, other, json.Keys); }
      }
    }

    /** Writes the record aside, renames it into place unless the deadline has passed, and drains. */
    method Publish(record: Record, deadline: Time, now: Time, reach: nat)
      returns (r: Outcome, ghost files: seq<FileName>, ghost removed: nat, ghost submitted: seq<Record>)
      requires Clean()
      modifies this, journal
      ensures now >= deadline ==>
                && r == Expired && json == old(json) && journal.View(now) == old(journal.View(now))
                && pending == {NameOf(record)} && unknown == {}
      ensures now < deadline ==>
                && Clean()
                && DrainEnds(old(json)[NameOf(record) := record], json, files, removed, submitted, r,
                             old(journal.View(now)), journal.View(now), length, size, reach, now)
                && ((NameOf(record) in json && json[NameOf(record)] == record) ||
                    record.donation.eventId in journal.donations)
    {
      var name := NameOf(record);
      files, removed, submitted := [], 0, [];
      pending := pending + {name};
      if now >= deadline {
        r := Expired;
        return;
      }
      pending := pending - {name};
      json := json[name := record];
      ghost var dir := json;
      files, removed, r, submitted := Drain(reach, now);
      DrainedOrKept(dir, json, files, removed, submitted, journal.donations.Keys, name);
    }
  }

  lemma DrainedOrKept(before: map<FileName, Record>, after: map<FileName, Record>, files: seq<FileName>, removed: nat,
                      submitted: seq<Record>, journaled: set<EventId>, name: FileName)
    requires removed <= |files| && after == Without(before, files, removed) && name in before
    requires Matched(before, files, submitted) && Taken(submitted, removed, journaled)
    ensures (name in after && after[name] == before[name]) || before[name].donation.eventId in journaled
  {
    WithoutPrefix(before, files, removed, name);
    if name !in after {
      var i :| 0 <= i < removed && files[i] == name;
      assert submitted[i] == before[name];
    }
  }

  /** The bytes of the listed files. */
  function DirBytes(json: map<FileName, Record>, files: seq<FileName>, bytes: Record -> nat): nat
    requires forall i :: 0 <= i < |files| ==> files[i] in json
    decreases |files|
  {
    if files == [] then 0 else DirBytes(json, files[..|files| - 1], bytes) + bytes(json[files[|files| - 1]])
  }

  lemma Irreflexive(n: FileName)
    ensures !Before(n, n)
  {
    NotBeforeItself(Ending(n));
  }

  lemma {:induction false} NotBeforeItself(a: string)
    ensures !Lex(a, a)
  {
    if a != [] { NotBeforeItself(a[1..]); }
  }

  /** A set of names has one listing. */
  lemma {:induction false} ListedOnce(a: seq<FileName>, b: seq<FileName>, names: set<FileName>)
    requires Listed(a, names) && Listed(b, names) && |a| >= |b|
    ensures a == b
    decreases |a|
  {
    if a != [] {
      assert a[0] in names && a[0] in b;
      SameFirst(a, b, names);
      RestIsListed(a, names);
      RestIsListed(b, names);
      ListedOnce(a[1..], b[1..], names - {a[0]});
      assert a == [a[0]] + a[1..] && b == [b[0]] + b[1..];
    }
  }

  lemma SameFirst(a: seq<FileName>, b: seq<FileName>, names: set<FileName>)
    requires Listed(a, names) && Listed(b, names) && a != [] && b != []
    ensures a[0] == b[0]
  {
    FirstIsFirst(a, names, b[0]);
    FirstIsFirst(b, names, a[0]);
    BeforeOrders(a[0], b[0], a[0]);
    Irreflexive(a[0]);
  }

  lemma FirstIsFirst(a: seq<FileName>, names: set<FileName>, n: FileName)
    requires Listed(a, names) && a != [] && n in names
    ensures a[0] == n || Before(a[0], n)
  {
    var i :| 0 <= i < |a| && a[i] == n;
  }

  lemma RestIsListed(a: seq<FileName>, names: set<FileName>)
    requires Listed(a, names) && a != []
    ensures Listed(a[1..], names - {a[0]})
  {
    forall n | n in names - {a[0]} ensures n in a[1..] {
      var i :| 0 <= i < |a| && a[i] == n;
      assert a[1..][i - 1] == n;
    }
  }
}
