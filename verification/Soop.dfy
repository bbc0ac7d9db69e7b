/** SOOP packet framing: a fixed header with decimal lengths, a body of separated fields. Parsing undoes
    building, also with noise between packets. */
module Soop {
  import opened JournalTypes

  type Bytes = seq<int>

  const ESCAPE: int := 0x1B
  const TAB: int := 0x09
  const SEPARATOR: int := 0x0C
  const HEADER: nat := 14

  // ---- Decimal numbers ----

  predicate IsDigit(b: int) { 48 <= b <= 57 }

  function Pow10(n: nat): (p: nat)
    ensures p > 0
  {
    if n == 0 then 1 else 10 * Pow10(n - 1)
  }

  /** The decimal digits, at least one. */
  function Decimal(n: nat): Bytes {
    if n < 10 then [48 + n] else Decimal(n / 10) + [48 + n % 10]
  }

  /** Zero-padded to a width; longer numbers are not cut. */
  function Padded(n: nat, width: nat): Bytes
    decreases width
  {
    if width <= 1 || n >= Pow10(width - 1) then Decimal(n) else [48] + Padded(n, width - 1)
  }

  /** The value of a nonempty run of digits. */
  function Number(b: Bytes): Option<nat>
    decreases |b|
  {
    if b == [] || !IsDigit(b[|b| - 1]) then None
    else if |b| == 1 then Some(b[0] - 48)
    else
      match Number(b[..|b| - 1])
      case None => None
      case Some(n) => Some(10 * n + (b[|b| - 1] - 48))
  }

  lemma {:induction false} NumberOfDecimal(n: nat)
    ensures Number(Decimal(n)) == Some(n) && |Decimal(n)| >= 1
  {
    if n >= 10 {
      NumberOfDecimal(n / 10);
      assert Decimal(n)[..|Decimal(n)| - 1] == Decimal(n / 10);
    }
  }

  lemma {:induction false} ZeroInFront(b: Bytes, n: nat)
    requires Number(b) == Some(n)
    ensures Number([48] + b) == Some(n)
    decreases |b|
  {
    var z := [48] + b;
    if |b| == 1 {
      assert z[..1] == [48];
    } else {
      ZeroInFront(b[..|b| - 1], (n - (b[|b| - 1] - 48)) / 10);
      assert z[..|z| - 1] == [48] + b[..|b| - 1];
    }
  }

  lemma {:induction false} NumberOfPadded(n: nat, width: nat)
    ensures Number(Padded(n, width)) == Some(n)
    decreases width
  {
    NumberOfDecimal(n);
    if !(width <= 1 || n >= Pow10(width - 1)) {
      NumberOfPadded(n, width - 1);
      ZeroInFront(Padded(n, width - 1), n);
    }
  }

  lemma {:induction false} DecimalWidth(n: nat, width: nat)
    requires width >= 1
    ensures |Decimal(n)| <= width <==> n < Pow10(width)
    decreases n
  {
    if n < 10 {
      assert Pow10(width) >= 10 by { assert Pow10(width) == 10 * Pow10(width - 1); }
    } else if width == 1 {
      NumberOfDecimal(n / 10);
    } else {
      DecimalWidth(n / 10, width - 1);
    }
  }

  /** The header has its fixed width exactly for the numbers that fit. */
  lemma {:induction false} PaddedWidth(n: nat, width: nat)
    requires width >= 1
    ensures |Padded(n, width)| == width <==> n < Pow10(width)
    decreases width
  {
    NumberOfDecimal(n);
    DecimalWidth(n, width);
    if width > 1 {
      if n >= Pow10(width - 1) {
        DecimalWidth(n, width - 1);
      } else {
        PaddedWidth(n, width - 1);
      }
    }
  }

  // ---- Fields ----

  predicate Free(field: Bytes) { SEPARATOR !in field }

  function Join(fields: seq<Bytes>): Bytes
    decreases |fields|
  {
    if fields == [] then [] else if |fields| == 1 then fields[0] else fields[0] + [SEPARATOR] + Join(fields[1..])
  }

  function FirstField(b: Bytes): (n: nat)
    ensures n <= |b| && Free(b[..n]) && (n < |b| ==> b[n] == SEPARATOR)
    decreases |b|
  {
    if b == [] || b[0] == SEPARATOR then 0
    else
      var n := 1 + FirstField(b[1..]);
      assert b[..n] == [b[0]] + b[1..][..n - 1];
      n
  }

  function Split(b: Bytes): seq<Bytes>
    decreases |b|
  {
    var n := FirstField(b);
    if n == |b| then [b] else [b[..n]] + Split(b[n + 1..])
  }

  lemma FirstFieldOf(field: Bytes, rest: Bytes)
    requires Free(field)
    ensures FirstField(field) == |field| && FirstField(field + [SEPARATOR] + rest) == |field|
  {
    var b := field + [SEPARATOR] + rest;
    assert b[|field|] == SEPARATOR;
    assert forall i :: 0 <= i < |field| ==> b[i] == field[i];
    var n := FirstField(b);
    assert forall i :: 0 <= i < n ==> b[i] in b[..n];
  }

  lemma {:induction false} SplitOfJoin(fields: seq<Bytes>)
    requires fields != [] && forall i :: 0 <= i < |fields| ==> Free(fields[i])
    ensures Split(Join(fields)) == fields
    decreases |fields|
  {
    var rest := fields[1..];
    FirstFieldOf(fields[0], Join(rest));
    if |fields| > 1 {
      SplitOfJoin(rest);
      var b := Join(fields);
      assert b[..|fields[0]|] == fields[0] && b[|fields[0]| + 1..] == Join(rest);
    }
  }

  function TrimPrefix(b: Bytes): Bytes { if b != [] && b[0] == SEPARATOR then b[1..] else b }

  function TrimSuffix(b: Bytes): Bytes { if b != [] && b[|b| - 1] == SEPARATOR then b[..|b| - 1] else b }

  function FieldsOf(body: Bytes): seq<Bytes> {
    var inner := TrimSuffix(TrimPrefix(body));
    if inner == [] then [] else Split(inner)
  }

  function Body(fields: seq<Bytes>): Bytes { [SEPARATOR] + Join(fields) + [SEPARATOR] }

  /** Separator-free fields come back, except a single empty one. */
  lemma FieldsComeBack(fields: seq<Bytes>)
    requires forall i :: 0 <= i < |fields| ==> Free(fields[i])
    ensures FieldsOf(Body(fields)) == fields <==> fields != [[]]
  {
    var joined := Join(fields);
    assert TrimPrefix(Body(fields)) == joined + [SEPARATOR];
    assert TrimSuffix(joined + [SEPARATOR]) == joined;
    if fields != [] { SplitOfJoin(fields); }
    assert joined == [] && fields != [] ==> fields == [[]];
  }

  // ---- Packets ----

  datatype Packet = Packet(cmd: nat, ret: nat, fields: seq<Bytes>, raw: Bytes)

  /** How numbers and fields are read. */
  datatype Reader = Reader(number: Bytes -> Option<nat>, fields: Bytes -> seq<Bytes>)

  const SOOP := Reader((b: Bytes) => Number(b), (b: Bytes) => FieldsOf(b))

  function Build(cmd: nat, body: Bytes): Bytes {
    [ESCAPE, TAB] + Padded(cmd, 4) + Padded(|body|, 6) + [48, 48] + body
  }

  /** The header numbers at the front of the bytes: command, body length and return code. */
  function Header(k: Reader, raw: Bytes): Option<(nat, nat, nat)>
    requires |raw| >= HEADER
  {
    var cmd, length, ret := k.number(raw[2..6]), k.number(raw[6..12]), k.number(raw[12..14]);
    if raw[0] != ESCAPE || raw[1] != TAB then None
    else if cmd.None? || length.None? || ret.None? || HEADER + length.value > |raw| then None
    else Some((cmd.value, length.value, ret.value))
  }

  function PacketAt(k: Reader, raw: Bytes, h: (nat, nat, nat)): Packet
    requires HEADER + h.1 <= |raw|
  {
    Packet(h.0, h.2, k.fields(raw[HEADER..HEADER + h.1]), raw[..HEADER + h.1])
  }

  /** All packets in the bytes; what does not start one is passed over byte by byte. */
  function Parsed(k: Reader, raw: Bytes): seq<Packet>
    decreases |raw|
  {
    if |raw| < HEADER then []
    else
      match Header(k, raw)
      case None => Parsed(k, raw[1..])
      case Some(h) => [PacketAt(k, raw, h)] + Parsed(k, raw[HEADER + h.1..])
  }

  /** The header numbers read at a position. */
  predicate HeaderAt(k: Reader, raw: Bytes, pos: nat, cmd: Option<nat>, length: Option<nat>, ret: Option<nat>) {
    && pos + HEADER <= |raw| && cmd == k.number(raw[pos + 2..pos + 6]) && length == k.number(raw[pos + 6..pos + 12])
    && ret == k.number(raw[pos + 12..pos + 14])
  }

  predicate Starts(raw: Bytes, pos: nat, cmd: Option<nat>, length: Option<nat>, ret: Option<nat>)
    requires pos + HEADER <= |raw|
  {
    && raw[pos] == ESCAPE && raw[pos + 1] == TAB && cmd.Some? && length.Some? && ret.Some?
    && pos + HEADER + length.value <= |raw|
  }

  lemma Slice(raw: Bytes, pos: nat, lo: nat, hi: nat)
    requires pos <= |raw| && lo <= hi <= |raw| - pos
    ensures raw[pos..][lo..hi] == raw[pos + lo..pos + hi]
    ensures hi == |raw| - pos ==> raw[pos..][lo..] == raw[pos + lo..]
    ensures lo == 0 ==> raw[pos..][..hi] == raw[pos..pos + hi]
  {
  }

  lemma ParsedAt(k: Reader, raw: Bytes, pos: nat, cmd: Option<nat>, length: Option<nat>, ret: Option<nat>)
    requires HeaderAt(k, raw, pos, cmd, length, ret)
    ensures Parsed(k, raw[pos..]) ==
            if !Starts(raw, pos, cmd, length, ret) then Parsed(k, raw[pos + 1..])
            else
              var end := pos + HEADER + length.value;
              [Packet(cmd.value, ret.value, k.fields(raw[pos + HEADER..end]), raw[pos..end])] + Parsed(k, raw[end..])
  {
    var rest := raw[pos..];
    Slice(raw, pos, 2, 6);
    Slice(raw, pos, 6, 12);
    Slice(raw, pos, 12, 14);
    if Starts(raw, pos, cmd, length, ret) {
      var n := HEADER + length.value;
      Slice(raw, pos, 0, n);
      Slice(raw, pos, HEADER, n);
      Slice(raw, pos, n, |rest|);
      assert Header(k, rest) == Some((cmd.value, length.value, ret.value));
    } else {
      Slice(raw, pos, 1, |rest|);
      assert Header(k, rest) == None;
    }
  }

  /** The packets before a position were found, and the rest is still to be parsed. */
  ghost predicate Parsing(k: Reader, raw: Bytes, pos: nat, packets: seq<Packet>) {
    pos <= |raw| && packets + Parsed(k, raw[pos..]) == Parsed(k, raw)
  }

  lemma ParseStep(k: Reader, raw: Bytes, pos: nat, cmd: Option<nat>, length: Option<nat>, ret: Option<nat>,
                  packets: seq<Packet>)
    requires HeaderAt(k, raw, pos, cmd, length, ret) && Parsing(k, raw, pos, packets)
    ensures !Starts(raw, pos, cmd, length, ret) ==> Parsing(k, raw, pos + 1, packets)
    ensures Starts(raw, pos, cmd, length, ret) ==>
              var end := pos + HEADER + length.value;
              var packet := Packet(cmd.value, ret.value, k.fields(raw[pos + HEADER..end]), raw[pos..end]);
              Parsing(k, raw, end, packets + [packet])
  {
    ParsedAt(k, raw, pos, cmd, length, ret);
    if Starts(raw, pos, cmd, length, ret) {
      var end := pos + HEADER + length.value;
      var packet := Packet(cmd.value, ret.value, k.fields(raw[pos + HEADER..end]), raw[pos..end]);
      Regroup(packets, packet, Parsed(k, raw[end..]));
    }
  }

  lemma ParseEnds(k: Reader, raw: Bytes, pos: nat, packets: seq<Packet>)
    requires Parsing(k, raw, pos, packets) && pos + HEADER > |raw|
    ensures packets == Parsed(k, raw)
  {
    assert Parsed(k, raw[pos..]) == [] && packets + [] == packets;
  }

  lemma Regroup(packets: seq<Packet>, packet: Packet, rest: seq<Packet>)
    ensures packets + ([packet] + rest) == packets + [packet] + rest
  {
  }

  method ParseWith(k: Reader, raw: Bytes) returns (packets: seq<Packet>)
    ensures packets == Parsed(k, raw)
  {
    packets := [];
    var pos := 0;
    assert Parsing(k, raw, 0, []) by { assert raw[0..] == raw && [] + Parsed(k, raw) == Parsed(k, raw); }
    while pos + HEADER <= |raw|
      invariant 0 <= pos <= |raw| && Parsing(k, raw, pos, packets)
    {
      var cmd, length := k.number(raw[pos + 2..pos + 6]), k.number(raw[pos + 6..pos + 12]);
      var ret := k.number(raw[pos + 12..pos + 14]);
      ParseStep(k, raw, pos, cmd, length, ret, packets);
      if raw[pos] != ESCAPE || raw[pos + 1] != TAB {
        pos := pos + 1;
      } else if cmd.None? || length.None? || ret.None? || pos + HEADER + length.value > |raw| {
        pos := pos + 1;
      } else {
        var end := pos + HEADER + length.value;
        var packet := Packet(cmd.value, ret.value, k.fields(raw[pos + HEADER..end]), raw[pos..end]);
        packets, pos := packets + [packet], end;
      }
    }
    ParseEnds(k, raw, pos, packets);
  }

  method Parse(raw: Bytes) returns (packets: seq<Packet>)
    ensures packets == Parsed(SOOP, raw)
  {
    packets := ParseWith(SOOP, raw);
  }

  // ---- Round trip ----

  lemma HeaderOfBuilt(cmd: nat, body: Bytes, rest: Bytes)
    requires cmd < 10000 && |body| < 1000000
    ensures var raw := Build(cmd, body) + rest;
            |Build(cmd, body)| == HEADER + |body| && |raw| >= HEADER && Header(SOOP, raw) == Some((cmd, |body|, 0))
  {
    assert Pow10(4) == 10000 && Pow10(6) == 1000000 by { assert Pow10(3) == 1000 && Pow10(5) == 100000; }
    PaddedWidth(cmd, 4);
    PaddedWidth(|body|, 6);
    NumberOfPadded(cmd, 4);
    NumberOfPadded(|body|, 6);
    var raw := Build(cmd, body) + rest;
    assert raw[2..6] == Padded(cmd, 4);
    assert raw[6..12] == Padded(|body|, 6);
    assert raw[12..14] == [48, 48];
    assert [48, 48][..1] == [48] && Number([48]) == Some(0) && Number([48, 48]) == Some(0);
  }

  /** A built packet parses to itself, whatever follows. */
  lemma ParsedBuilt(cmd: nat, body: Bytes, rest: Bytes)
    requires cmd < 10000 && |body| < 1000000
    ensures Parsed(SOOP, Build(cmd, body) + rest)
            == [Packet(cmd, 0, FieldsOf(body), Build(cmd, body))] + Parsed(SOOP, rest)
  {
    HeaderOfBuilt(cmd, body, rest);
    var built, raw := Build(cmd, body), Build(cmd, body) + rest;
    var n := HEADER + |body|;
    assert raw[..n] == built && raw[n..] == rest && raw[HEADER..n] == body;
  }

  /** Bytes without an escape are passed over. */
  lemma {:induction false} ParsedNoise(noise: Bytes, rest: Bytes)
    requires ESCAPE !in noise
    ensures Parsed(SOOP, noise + rest) == Parsed(SOOP, rest)
    decreases |noise|
  {
    if noise == [] {
      assert noise + rest == rest;
    } else {
      ParsedNoise(noise[1..], rest);
      assert (noise + rest)[1..] == noise[1..] + rest && (noise + rest)[0] == noise[0];
    }
  }

  /** A packet to send, with the noise in front of it. */
  datatype Sent = Sent(noise: Bytes, cmd: nat, body: Bytes)

  function Wire(sent: seq<Sent>, tail: Bytes): Bytes
    decreases |sent|
  {
    if sent == [] then tail else sent[0].noise + (Build(sent[0].cmd, sent[0].body) + Wire(sent[1..], tail))
  }

  function Expected(sent: seq<Sent>): seq<Packet>
    decreases |sent|
  {
    if sent == [] then []
    else [Packet(sent[0].cmd, 0, FieldsOf(sent[0].body), Build(sent[0].cmd, sent[0].body))] + Expected(sent[1..])
  }

  predicate Sendable(s: Sent) { ESCAPE !in s.noise && s.cmd < 10000 && |s.body| < 1000000 }

  /** Round trip: any packets, with any noise free of the escape byte around them, parse to exactly
      those packets in order. */
  lemma {:induction false} WireParses(sent: seq<Sent>, tail: Bytes)
    requires ESCAPE !in tail && forall i :: 0 <= i < |sent| ==> Sendable(sent[i])
    ensures Parsed(SOOP, Wire(sent, tail)) == Expected(sent)
    decreases |sent|
  {
    if sent == [] {
      ParsedNoise(tail, []);
      assert tail + [] == tail;
    } else {
      assert Sendable(sent[0]);
      var rest := Wire(sent[1..], tail);
      ParsedNoise(sent[0].noise, Build(sent[0].cmd, sent[0].body) + rest);
      ParsedBuilt(sent[0].cmd, sent[0].body, rest);
      WireParses(sent[1..], tail);
    }
  }
}
