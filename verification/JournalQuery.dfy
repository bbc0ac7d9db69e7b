/** The ordered, limited row selection that reading and expiry are built on, and what it returns on a
    well-shaped journal: exactly the next offsets. */
module JournalQuery {
  import opened Least
  import opened JournalTypes
  import opened JournalOps
  import opened JournalShape

  predicate Matches(t: map<EventId, Row>, ch: Channel, generation: Name, after: int, e: EventId) {
    e in t && t[e].channel == ch && t[e].generation == generation && t[e].payload.Some? && t[e].offset > after
  }

  /** `es` holds the first `limit` matching rows in offset order, or all of them. */
  ghost predicate Selected(t: map<EventId, Row>, ch: Channel, generation: Name, after: int, limit: nat,
                           es: seq<EventId>)
  {
    && |es| <= limit
    && (forall i :: 0 <= i < |es| ==> Matches(t, ch, generation, after, es[i]))
    && (forall i, j :: 0 <= i < j < |es| ==> es[i] != es[j] && t[es[i]].offset <= t[es[j]].offset)
    && (forall f :: Matches(t, ch, generation, after, f) && f !in es ==>
          |es| == limit && forall i :: 0 <= i < |es| ==> t[es[i]].offset <= t[f].offset)
  }

  lemma LeastOffset(t: map<EventId, Row>, es: set<EventId>) returns (e: EventId)
    requires es != {} && es <= t.Keys
    ensures e in es && forall f :: f in es ==> t[e].offset <= t[f].offset
  {
    var some := SomeElement(es);
    var offsets: set<int> := set f | f in es :: t[f].offset;
    assert t[some].offset in offsets;
    var least := LeastElement(offsets);
    e :| e in es && t[e].offset == least;
    forall f | f in es ensures t[e].offset <= t[f].offset { assert t[f].offset in offsets; }
  }

  /** The matching rows that still have a payload, by offset, up to the limit. */
  method Select(t: map<EventId, Row>, ch: Channel, generation: Name, after: int, limit: nat) returns (es: seq<EventId>)
    ensures Selected(t, ch, generation, after, limit, es)
  {
    es := [];
    var rest := set e | e in t && Matches(t, ch, generation, after, e);
    while rest != {} && |es| < limit
      invariant |es| <= limit
      invariant forall i :: 0 <= i < |es| ==> Matches(t, ch, generation, after, es[i])
      invariant forall e :: e in rest ==> Matches(t, ch, generation, after, e)
      invariant forall e :: Matches(t, ch, generation, after, e) ==> e in rest || e in es
      invariant forall e :: e in rest ==> e !in es
      invariant forall i, j :: 0 <= i < j < |es| ==> es[i] != es[j] && t[es[i]].offset <= t[es[j]].offset
      invariant forall i, f :: 0 <= i < |es| && f in rest ==> t[es[i]].offset <= t[f].offset
      decreases rest
    {
      ghost var least := LeastOffset(t, rest);
      var e :| e in rest && forall f :: f in rest ==> t[e].offset <= t[f].offset;
      es := es + [e];
      rest := rest - {e};
    }
  }

  /** On a journal in shape the i-th selected row has the i-th offset after the cursor. */
  lemma {:induction false} SelectedOffset(s: Store, ch: Channel, after: nat, limit: nat, es: seq<EventId>, i: nat)
    requires Shape(s) && ch in s.channels && s.channels[ch].expiredThrough <= after
    requires Selected(s.donations, ch, s.channels[ch].generation, after, limit, es) && i < |es|
    ensures s.donations[es[i]].offset == after + 1 + i
    decreases i
  {
    var t := s.donations;
    assert forall j :: 0 <= j < i ==> t[es[j]].offset == after + 1 + j by {
      forall j | 0 <= j < i ensures t[es[j]].offset == after + 1 + j {
        SelectedOffset(s, ch, after, limit, es, j);
      }
    }
    assert Matches(t, ch, s.channels[ch].generation, after, es[i]) && RowShape(s, es[i]);
    NotBelow(s, ch, after, limit, es, i);
    if t[es[i]].offset > after + 1 + i {
      SkippedRowIsSelected(s, ch, after, limit, es, i);
    }
  }

  lemma NotBelow(s: Store, ch: Channel, after: nat, limit: nat, es: seq<EventId>, i: nat)
    requires Shape(s) && ch in s.channels
    requires Selected(s.donations, ch, s.channels[ch].generation, after, limit, es) && i < |es|
    requires forall j :: 0 <= j < i ==> s.donations[es[j]].offset == after + 1 + j
    ensures s.donations[es[i]].offset >= after + 1 + i
  {
    var t := s.donations;
    if i > 0 {
      assert t[es[i - 1]].offset <= t[es[i]].offset;
      assert At(t, ch, t[es[i - 1]].offset, es[i - 1]);
      assert At(t, ch, t[es[i]].offset, es[i]);
      assert es[i - 1] != es[i];
    }
  }

  /** The row at offset after + 1 + i, which exists, would have been selected before position i. */
  lemma SkippedRowIsSelected(s: Store, ch: Channel, after: nat, limit: nat, es: seq<EventId>, i: nat)
    requires Shape(s) && ch in s.channels && s.channels[ch].expiredThrough <= after
    requires Selected(s.donations, ch, s.channels[ch].generation, after, limit, es) && i <= |es|
    requires after + 1 + i <= s.channels[ch].current
    requires forall j :: 0 <= j < i ==> s.donations[es[j]].offset == after + 1 + j
    ensures i < |es| ==> s.donations[es[i]].offset <= after + 1 + i
    ensures i == |es| ==> i == limit
  {
    var t := s.donations;
    assert Stored(t, ch, after + 1 + i);
    var f :| At(t, ch, after + 1 + i, f);
    assert RowShape(s, f);
    assert Matches(t, ch, s.channels[ch].generation, after, f);
    if f in es {
      var j :| 0 <= j < |es| && es[j] == f;
      assert j >= i;
    }
  }

  predicate Holds(t: map<EventId, Row>, e: EventId, offset: nat) {
    e in t && t[e].offset == offset && t[e].payload.Some? && t[e].payload.value.offset == offset
  }

  /** The selection after a valid cursor: the next `limit` offsets, or what there is. */
  lemma SelectedIsNext(s: Store, ch: Channel, after: nat, limit: nat, es: seq<EventId>)
    requires Shape(s) && ch in s.channels && s.channels[ch].expiredThrough <= after <= s.channels[ch].current
    requires Selected(s.donations, ch, s.channels[ch].generation, after, limit, es)
    ensures |es| == if s.channels[ch].current - after < limit then s.channels[ch].current - after else limit
    ensures forall i :: 0 <= i < |es| ==> Holds(s.donations, es[i], after + 1 + i)
  {
    forall i | 0 <= i < |es|
      ensures Holds(s.donations, es[i], after + 1 + i)
    {
      SelectedOffset(s, ch, after, limit, es, i);
      assert RowShape(s, es[i]);
    }
    if |es| > 0 {
      assert RowShape(s, es[|es| - 1]);
    }
    if after + |es| < s.channels[ch].current {
      SkippedRowIsSelected(s, ch, after, limit, es, |es|);
    }
  }
}
