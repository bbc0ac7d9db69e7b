/** The recent-chat stream of a channel: appended with increasing IDs, trimmed from its old end, reset
    under a new generation. Readers see a bounded window of it. */
module ChatStream {
  import opened JournalTypes

  datatype Id = Id(ms: nat, seqNo: nat)

  const ZERO := Id(0, 0)
  const MAX_LENGTH: nat := 10000
  const BATCH: nat := 100

  predicate Before(a: Id, b: Id) { if a.ms != b.ms then a.ms < b.ms else a.seqNo < b.seqNo }

  /** `observedAt` is the parsed timestamp, if it parses. */
  datatype Entry = Entry(id: Id, event: Name, chat: bool, user: Name, observedAt: Option<Time>, message: Name)

  /** The entries a reader is meant to see. */
  predicate IsChat(e: Entry) { e.chat && e.user.text != "" }

  /** `all` are the entries since the stream key was created, of which `trimmed` are gone; `present`
      says whether the key exists. Generations used before are in `used`. */
  datatype Stream = Stream(present: bool, generation: Option<Name>, all: seq<Entry>, trimmed: nat, used: set<Name>)

  predicate Ascending(all: seq<Entry>) { forall i, j :: 0 <= i < j < |all| ==> Before(all[i].id, all[j].id) }

  ghost predicate WellFormed(s: Stream) {
    && Ascending(s.all) && s.trimmed <= |s.all| && (!s.present ==> s.trimmed == |s.all|)
    && (forall i :: 0 <= i < |s.all| ==> s.all[i].id != ZERO)
    && (s.generation.Some? ==> s.generation.value in s.used)
  }

  function Retained(s: Stream): seq<Entry>
    requires s.trimmed <= |s.all|
  {
    s.all[s.trimmed..]
  }

  // ---- Writers ----

  datatype Change =
    | Publish(entry: Entry, generation: Name, minId: Id)
    | Trim(minId: Id)
    | LoseStream
    | LoseGeneration

  /** How many of the oldest entries are before an ID. */
  function Older(all: seq<Entry>, minId: Id): (n: nat)
    ensures n <= |all| && (forall i :: 0 <= i < n ==> Before(all[i].id, minId))
    decreases |all|
  {
    if all == [] || !Before(all[0].id, minId) then 0 else 1 + Older(all[1..], minId)
  }

  function Max(a: nat, b: nat): nat { if a < b then b else a }

  predicate Can(s: Stream, c: Change) {
    match c
    case Publish(e, generation, minId) =>
      e.id != ZERO && generation !in s.used && (s.present && s.all != [] ==> Before(s.all[|s.all| - 1].id, e.id))
    case _ => true
  }

  function Changed(s: Stream, c: Change): Stream {
    match c
    case Publish(e, generation, minId) =>
      var all := (if s.present then s.all else []) + [e];
      var overlong := if |all| > MAX_LENGTH then |all| - MAX_LENGTH else 0;
      var trimmed := Max(if s.present then s.trimmed else 0, Max(overlong, Older(all, minId)));
      var renewed := !s.present || s.generation.None?;
      Stream(true, if renewed then Some(generation) else s.generation, all, trimmed, s.used + {generation})
    case Trim(minId) => if s.present then s.(trimmed := Max(s.trimmed, Older(s.all, minId))) else s
    case LoseStream => s.(present := false, trimmed := |s.all|)
    case LoseGeneration => s.(generation := None)
  }

  lemma {:induction false} OlderSplits(all: seq<Entry>, minId: Id)
    requires Ascending(all)
    ensures forall i :: 0 <= i < |all| ==> (i < Older(all, minId) <==> Before(all[i].id, minId))
    decreases |all|
  {
    if all != [] {
      if Before(all[0].id, minId) {
        OlderSplits(all[1..], minId);
        assert forall i :: 1 <= i < |all| ==> all[i] == all[1..][i - 1];
      } else {
        assert forall i :: 0 < i < |all| ==> Before(all[0].id, all[i].id);
      }
    }
  }

  /** A publication appends the entry, under a new generation exactly if the stream had none or is new. It
      keeps exactly the entries that were there, are among the newest ten thousand and not too old. */
  lemma PublishKeepsNewest(s: Stream, e: Entry, generation: Name, minId: Id)
    requires WellFormed(s) && Can(s, Publish(e, generation, minId))
    ensures var t := Changed(s, Publish(e, generation, minId));
            && t.present && t.all == (if s.present then s.all else []) + [e]
            && t.generation == (if s.present && s.generation.Some? then s.generation else Some(generation))
            && forall i :: 0 <= i < |t.all| ==>
                 (i >= t.trimmed <==> && (s.present ==> i >= s.trimmed) && i >= |t.all| - 10000
                                      && !Before(t.all[i].id, minId))
  {
    OlderSplits((if s.present then s.all else []) + [e], minId);
  }

  ghost predicate Later(s: Stream, cs: seq<Change>, t: Stream)
    decreases |cs|
  {
    if cs == [] then t == s else Can(s, cs[0]) && Later(Changed(s, cs[0]), cs[1..], t)
  }

  /** Under an unchanged generation the stream only grew and lost old entries. */
  ghost predicate Continues(s: Stream, t: Stream) {
    s.used <= t.used &&
    (s.generation.Some? && t.generation == s.generation ==>
       s.all <= t.all && s.trimmed <= t.trimmed && (t.present ==> s.present))
  }

  lemma ChangeKeepsForm(s: Stream, c: Change)
    requires WellFormed(s) && Can(s, c)
    ensures WellFormed(Changed(s, c)) && Continues(s, Changed(s, c))
    ensures s.generation.None? && Changed(s, c).generation.Some? ==> Changed(s, c).generation.value !in s.used
    ensures s.generation.Some? && Changed(s, c).generation.Some? && s.generation != Changed(s, c).generation ==>
              Changed(s, c).generation.value !in s.used
  {
  }

  lemma {:induction false} LaterContinues(s: Stream, cs: seq<Change>, t: Stream)
    requires WellFormed(s) && Later(s, cs, t)
    ensures WellFormed(t) && Continues(s, t)
    ensures t.generation.Some? && t.generation != s.generation ==> t.generation.value !in s.used
    decreases |cs|
  {
    if cs != [] {
      ChangeKeepsForm(s, cs[0]);
      LaterContinues(Changed(s, cs[0]), cs[1..], t);
    }
  }

  // ---- Reading ----

  datatype Batch = Batch(generation: Option<Name>, earliest: Option<Id>, latest: Option<Id>, messages: seq<Entry>)

  /** The number of entries up to an ID. */
  function UpTo(all: seq<Entry>, after: Id): (n: nat)
    ensures n <= |all|
    decreases |all|
  {
    if all == [] || Before(after, all[0].id) then 0 else 1 + UpTo(all[1..], after)
  }

  lemma {:induction false} UpToSplits(all: seq<Entry>, after: Id)
    requires Ascending(all)
    ensures forall i :: 0 <= i < UpTo(all, after) ==> !Before(after, all[i].id)
    ensures forall i :: UpTo(all, after) <= i < |all| ==> Before(after, all[i].id)
    decreases |all|
  {
    if all != [] {
      if Before(after, all[0].id) {
        assert forall i :: 0 < i < |all| ==> Before(all[0].id, all[i].id);
      } else {
        UpToSplits(all[1..], after);
        assert forall i :: 1 <= i < |all| ==> all[i] == all[1..][i - 1];
      }
    }
  }

  /** The next retained entries after a cursor, with the ends of the retained range. */
  function Read(s: Stream, after: Id): Batch
    requires s.trimmed <= |s.all|
  {
    var kept := Retained(s);
    var rest := kept[UpTo(kept, after)..];
    Batch(s.generation, if kept == [] then None else Some(kept[0].id),
          if kept == [] then None else Some(kept[|kept| - 1].id),
          if |rest| <= BATCH then rest else rest[..BATCH])
  }
}
