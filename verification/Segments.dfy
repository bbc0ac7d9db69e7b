/** Immutable chat segments: one line per row, compressed and identified by digest. Building and
    decoding are inverse on everything that can be built. */
module Segments {
  import opened JournalTypes

  type Bytes = seq<nat>

  const MAX_SEGMENT_ROWS: nat := 1000
  const MAX_PLAIN_BYTES: nat := 16 * 0x10_0000
  const MAX_GZIP_BYTES: nat := 16 * 0x10_0000
  const NEWLINE: nat := 10

  datatype ChatRow = ChatRow(session: Name, position: int, event: Name, receivedAt: Time,
                             userIdVersion: int, publicUserId: Name, displayName: Name, message: Name)

  datatype Segment = Segment(body: Bytes, sha: Name, session: Name, first: int, last: int, count: nat)
  datatype ObjectKey = ObjectKey(session: Name, first: int, last: int, sha: Name)
  datatype SegmentError = TooLarge | BadRows | BadMetadata | BadChecksum | BadBody | BadRange
  datatype Built = Good(segment: Segment) | Bad(error: SegmentError)
  datatype Decoding = Rows(rows: seq<ChatRow>) | Broken(error: SegmentError)

  function KeyOf(s: Segment): ObjectKey { ObjectKey(s.session, s.first, s.last, s.sha) }

  /** The encodings the segments rest on: a line per row, compression and a digest. */
  datatype Codec = Codec(isUuid: Name -> bool, line: ChatRow -> Bytes, parse: Bytes -> Option<ChatRow>,
                         zip: Bytes -> Bytes, unzip: Bytes -> Option<Bytes>, digest: Bytes -> Name)

  /** A row's line holds no line break and parses back, compression is lossless and never empty,
      and no two bodies share a digest. */
  ghost predicate Lawful(c: Codec) {
    && (forall r :: c.parse(c.line(r)) == Some(r) && NEWLINE !in c.line(r))
    && (forall b :: c.unzip(c.zip(b)) == Some(b) && c.zip(b) != [])
    && (forall b, d :: c.digest(b) == c.digest(d) ==> b == d)
  }

  // ---- Rows and their plain form ----

  predicate RowFits(r: ChatRow, session: Name) {
    r.session == session && r.position > 0 && r.event.text != "" && r.receivedAt != 0
  }

  predicate Ascending(rows: seq<ChatRow>) {
    forall i, j :: 0 <= i < j < |rows| ==> rows[i].position < rows[j].position
  }

  /** Rows of one session in strictly increasing, positive positions. */
  predicate Orderly(rows: seq<ChatRow>, session: Name) {
    (forall i :: 0 <= i < |rows| ==> RowFits(rows[i], session)) && Ascending(rows)
  }

  function LastPosition(rows: seq<ChatRow>): int {
    if rows == [] then 0 else rows[|rows| - 1].position
  }

  /** A row extends an orderly list exactly when it fits and comes after the last. */
  lemma OrderlySnoc(rows: seq<ChatRow>, r: ChatRow, session: Name)
    requires Orderly(rows, session)
    ensures Orderly(rows + [r], session) <==> RowFits(r, session) && r.position > LastPosition(rows)
  {
    var more := rows + [r];
    assert more[|rows|] == r;
    assert rows != [] ==> more[|rows| - 1] == rows[|rows| - 1];
  }

  lemma OrderlyPrefix(rows: seq<ChatRow>, n: nat, session: Name)
    requires n <= |rows|
    ensures Orderly(rows, session) ==> Orderly(rows[..n], session)
  {
  }

  function Plain(c: Codec, rows: seq<ChatRow>): Bytes
    decreases |rows|
  {
    if rows == [] then [] else Plain(c, rows[..|rows| - 1]) + c.line(rows[|rows| - 1]) + [NEWLINE]
  }

  lemma PlainSnoc(c: Codec, rows: seq<ChatRow>, r: ChatRow)
    ensures Plain(c, rows + [r]) == Plain(c, rows) + c.line(r) + [NEWLINE]
  {
    assert (rows + [r])[..|rows|] == rows;
  }

  lemma {:induction false} PlainGrows(c: Codec, rows: seq<ChatRow>, n: nat)
    requires n <= |rows|
    ensures |Plain(c, rows[..n])| <= |Plain(c, rows)|
    decreases |rows| - n
  {
    if n < |rows| {
      assert rows[..n + 1] == rows[..n] + [rows[n]];
      PlainSnoc(c, rows[..n], rows[n]);
      PlainGrows(c, rows, n + 1);
    } else {
      assert rows[..n] == rows;
    }
  }

  predicate Buildable(c: Codec, rows: seq<ChatRow>) {
    0 < |rows| <= MAX_SEGMENT_ROWS && c.isUuid(rows[0].session) && Orderly(rows, rows[0].session)
  }

  predicate Fits(c: Codec, rows: seq<ChatRow>) {
    |Plain(c, rows)| <= MAX_PLAIN_BYTES && |c.zip(Plain(c, rows))| <= MAX_GZIP_BYTES
  }

  function SegmentOf(c: Codec, rows: seq<ChatRow>): Segment
    requires rows != []
  {
    var body := c.zip(Plain(c, rows));
    Segment(body, c.digest(body), rows[0].session, rows[0].position, rows[|rows| - 1].position, |rows|)
  }

  /** Builds a segment exactly from the rows that are in order and fit. */
  method Build(c: Codec, rows: seq<ChatRow>) returns (r: Built)
    ensures r.Good? <==> Buildable(c, rows) && Fits(c, rows)
    ensures r.Good? ==> r.segment == SegmentOf(c, rows)
    ensures r == Bad(TooLarge) ==> 0 < |rows| <= MAX_SEGMENT_ROWS && !Fits(c, rows)
    ensures Buildable(c, rows) && !Fits(c, rows) ==> r == Bad(TooLarge)
  {
    if |rows| == 0 || |rows| > MAX_SEGMENT_ROWS { return Bad(BadRows); }
    var session := rows[0].session;
    if !c.isUuid(session) || rows[0].position <= 0 { return Bad(BadRows); }
    var plain: Bytes := [];
    var previous := 0;
    var i := 0;
    assert rows[..0] == [];
    while i < |rows|
      invariant 0 <= i <= |rows| && previous == LastPosition(rows[..i])
      invariant plain == Plain(c, rows[..i]) && |plain| <= MAX_PLAIN_BYTES
      invariant Orderly(rows[..i], session)
    {
      var row := rows[i];
      assert rows[..i + 1] == rows[..i] + [row];
      OrderlySnoc(rows[..i], row, session);
      if row.session != session || row.position <= previous || row.event.text == "" || row.receivedAt == 0 {
        OrderlyPrefix(rows, i + 1, session);
        return Bad(BadRows);
      }
      var line := c.line(row);
      PlainSnoc(c, rows[..i], row);
      if |plain| + |line| + 1 > MAX_PLAIN_BYTES {
        PlainGrows(c, rows, i + 1);
        return Bad(TooLarge);
      }
      plain := plain + line + [NEWLINE];
      previous := row.position;
      i := i + 1;
    }
    assert rows[..|rows|] == rows;
    var body := c.zip(plain);
    if |body| > MAX_GZIP_BYTES { return Bad(TooLarge); }
    return Good(Segment(body, c.digest(body), session, rows[0].position, previous, |rows|));
  }

  // ---- Decoding ----

  /** The length of the first line, without its line break. */
  function LineEnd(b: Bytes): (n: nat)
    ensures n <= |b| && (forall i :: 0 <= i < n ==> b[i] != NEWLINE) && (n < |b| ==> b[n] == NEWLINE)
    decreases |b|
  {
    if b == [] || b[0] == NEWLINE then 0 else 1 + LineEnd(b[1..])
  }

  function AfterLine(b: Bytes): Bytes {
    var n := LineEnd(b);
    if n < |b| then b[n + 1..] else []
  }

  /** All rows of a plain body, or None if a line does not parse. */
  function Parsed(c: Codec, b: Bytes): Option<seq<ChatRow>>
    decreases |b|
  {
    if b == [] then Some([])
    else
      var row := c.parse(b[..LineEnd(b)]);
      if row.None? then None
      else
        assert |AfterLine(b)| < |b|;
        var rest := Parsed(c, AfterLine(b));
        if rest.None? then None else Some([row.value] + rest.value)
  }

  lemma {:induction false} LineEndOf(line: Bytes, rest: Bytes)
    requires NEWLINE !in line
    ensures LineEnd(line + [NEWLINE] + rest) == |line|
  {
    var b := line + [NEWLINE] + rest;
    var n := LineEnd(b);
    assert b[|line|] == NEWLINE;
    assert forall i :: 0 <= i < |line| ==> b[i] == line[i];
  }

  /** A line followed by anything parses to its row followed by the rest. */
  lemma ParsedCons(c: Codec, r: ChatRow, rest: Bytes)
    requires Lawful(c)
    ensures Parsed(c, c.line(r) + [NEWLINE] + rest)
            == match Parsed(c, rest) case None => None case Some(rows) => Some([r] + rows)
  {
    var line := c.line(r);
    var b := line + [NEWLINE] + rest;
    LineEndOf(line, rest);
    assert b[..|line|] == line && AfterLine(b) == rest;
  }

  lemma {:induction false} ParsedAll(c: Codec, rows: seq<ChatRow>, rest: Bytes, more: seq<ChatRow>)
    requires Lawful(c) && Parsed(c, rest) == Some(more)
    ensures Parsed(c, Plain(c, rows) + rest) == Some(rows + more)
    decreases |rows|
  {
    if rows == [] {
      assert Plain(c, rows) + rest == rest && rows + more == more;
    } else {
      var r, init := rows[|rows| - 1], rows[..|rows| - 1];
      ParsedCons(c, r, rest);
      ParsedAll(c, init, c.line(r) + [NEWLINE] + rest, [r] + more);
      Regroup(Plain(c, init), c.line(r), [NEWLINE], rest);
      Regroup(init, [r], [], more);
      assert init + [r] == rows;
    }
  }

  lemma Regroup<T>(a: seq<T>, b: seq<T>, d: seq<T>, e: seq<T>)
    ensures a + b + d + e == a + (b + d + e)
    ensures a + b + e == a + (b + e)
  {
  }

  /** What a stored body holds. */
  function Contents(c: Codec, body: Bytes): Option<seq<ChatRow>> {
    match c.unzip(body)
    case None => None
    case Some(plain) => Parsed(c, plain)
  }

  lemma ContentsOfBuilt(c: Codec, rows: seq<ChatRow>)
    requires Lawful(c)
    ensures Contents(c, c.zip(Plain(c, rows))) == Some(rows)
  {
    ParsedAll(c, rows, [], []);
    assert Plain(c, rows) + [] == Plain(c, rows) && rows + [] == rows;
  }

  predicate MetadataFits(c: Codec, s: Segment) {
    && c.isUuid(s.session) && 0 < |s.body| <= MAX_GZIP_BYTES && 1 <= s.count <= MAX_SEGMENT_ROWS
    && 0 < s.first <= s.last
  }

  /** The rows are what the segment's index entry says. */
  predicate Describes(s: Segment, rows: seq<ChatRow>) {
    && |rows| == s.count && rows != [] && Orderly(rows, s.session)
    && rows[0].position == s.first && rows[|rows| - 1].position == s.last
  }

  predicate Sound(c: Codec, s: Segment) {
    && MetadataFits(c, s) && c.digest(s.body) == s.sha
    && c.unzip(s.body).Some? && |c.unzip(s.body).value| <= MAX_PLAIN_BYTES
    && Contents(c, s.body).Some? && Describes(s, Contents(c, s.body).value)
  }

  /** Having read `rows`, with `rest` still to parse. */
  ghost predicate Reading(c: Codec, plain: Bytes, rows: seq<ChatRow>, rest: Bytes) {
    Parsed(c, plain) == match Parsed(c, rest) case None => None case Some(more) => Some(rows + more)
  }

  lemma ReadLine(c: Codec, plain: Bytes, rows: seq<ChatRow>, rest: Bytes)
    requires Reading(c, plain, rows, rest) && rest != []
    ensures match c.parse(rest[..LineEnd(rest)])
            case None => Parsed(c, plain).None?
            case Some(row) => Reading(c, plain, rows + [row], AfterLine(rest))
  {
    var row := c.parse(rest[..LineEnd(rest)]);
    var later := Parsed(c, AfterLine(rest));
    if row.Some? && later.Some? {
      assert rows + ([row.value] + later.value) == rows + [row.value] + later.value;
    }
  }

  /** A list that already has too many or misplaced rows is not what the segment describes. */
  lemma ReadTooMuch(c: Codec, plain: Bytes, rows: seq<ChatRow>, rest: Bytes, s: Segment)
    requires Reading(c, plain, rows, rest) && (!Orderly(rows, s.session) || |rows| > s.count)
    ensures Parsed(c, plain).Some? ==> !Describes(s, Parsed(c, plain).value)
  {
    if Parsed(c, plain).Some? {
      var all := Parsed(c, plain).value;
      assert rows == all[..|rows|];
    }
  }

  /** Returns the rows exactly when checksum, limits, order, count and range all agree. */
  method Decode(c: Codec, s: Segment) returns (r: Decoding)
    ensures r.Rows? <==> Sound(c, s)
    ensures r.Rows? ==> Contents(c, s.body) == Some(r.rows)
  {
    if !MetadataFits(c, s) { return Broken(BadMetadata); }
    if c.digest(s.body) != s.sha { return Broken(BadChecksum); }
    var unzipped := c.unzip(s.body);
    if unzipped.None? { return Broken(BadBody); }
    if |unzipped.value| > MAX_PLAIN_BYTES { return Broken(BadBody); }
    r := DecodePlain(c, s, unzipped.value);
  }

  /** The decoding loop over the plain body. */
  method DecodePlain(c: Codec, s: Segment, plain: Bytes) returns (r: Decoding)
    requires s.count >= 1
    ensures r.Rows? <==> Parsed(c, plain).Some? && Describes(s, Parsed(c, plain).value)
    ensures r.Rows? ==> Parsed(c, plain) == Some(r.rows)
  {
    var rows: seq<ChatRow> := [];
    var previous := 0;
    var rest := plain;
    assert Reading(c, plain, rows, rest) by {
      if Parsed(c, plain).Some? { assert rows + Parsed(c, plain).value == Parsed(c, plain).value; }
    }
    while rest != []
      invariant Reading(c, plain, rows, rest)
      invariant |rows| <= s.count && Orderly(rows, s.session) && previous == LastPosition(rows)
      decreases |rest|
    {
      ReadLine(c, plain, rows, rest);
      var row := c.parse(rest[..LineEnd(rest)]);
      if row.None? { return Broken(BadBody); }
      OrderlySnoc(rows, row.value, s.session);
      rows, rest := rows + [row.value], AfterLine(rest);
      if row.value.session != s.session || row.value.position <= previous
         || row.value.event.text == "" || row.value.receivedAt == 0 || |rows| > s.count
      {
        ReadTooMuch(c, plain, rows, rest, s);
        return Broken(BadRows);
      }
      previous := row.value.position;
    }
    assert rows + [] == rows;
    if |rows| != s.count || rows[0].position != s.first || previous != s.last { return Broken(BadRange); }
    return Rows(rows);
  }

  /** Round trip: what was built decodes to the very rows it was built from. */
  lemma BuiltDecodes(c: Codec, rows: seq<ChatRow>)
    requires Lawful(c) && Buildable(c, rows) && Fits(c, rows)
    ensures Sound(c, SegmentOf(c, rows)) && Contents(c, SegmentOf(c, rows).body) == Some(rows)
  {
    ContentsOfBuilt(c, rows);
    assert RowFits(rows[0], rows[0].session);
  }
}
