/** Runs of discovery cycles: a tracked channel is ended only after two complete polls missed it and a
    direct check said it was offline. */
module DiscoveryCycles {
  import opened JournalTypes
  import opened Discovery

  /** A failed fetch, or the channels it found that are allowed and not opted out. */
  datatype Poll = FetchFailed | Found(channels: seq<Name>, partial: bool)

  /** How the steps of a cycle turn out. */
  datatype Env = Env(leaseAtUpsert: bool, upserts: bool, unrecorded: set<Name>, check: Name -> Check,
                     leaseAtMark: bool, marks: bool, closable: set<Name>)

  /** What a cycle did: nothing was recorded of what it saw, or it was counted. */
  datatype Record =
    | Aborted(platform: Name, found: set<Name>)
    | Cycle(platform: Name, found: set<Name>, partial: bool, tracked: set<Name>,
            verified: set<Name>, offline: set<Name>, ended: set<Name>)
    | Recovered

  /** The emitter's counters, the channels not marked ended, and the cycles so far. */
  datatype World = World(missed: map<StateKey, nat>, alive: set<StateKey>, log: seq<Record>)

  function Offline(toEnd: set<Name>, check: Name -> Check): set<Name> {
    set ch | ch in toEnd && check(ch) == Some(false)
  }

  function VerifiedLive(toEnd: set<Name>, check: Name -> Check): set<Name> {
    set ch | ch in toEnd && check(ch) == Some(true)
  }

  function Recorded(poll: Poll, env: Env): bool { poll.Found? && env.leaseAtUpsert && env.upserts }

  function Unlisted(alive: set<StateKey>, platform: Name, active: set<Name>): set<Name> {
    set k | k in alive && k.platform == platform && k.channel !in active :: k.channel
  }

  /** The complete part of a cycle, once the found channels have been processed. */
  function Complete(w: World, platform: Name, found: set<Name>, env: Env): World {
    var toEnd := Expired(w.missed, platform, found, false);
    var offline, verified := Offline(toEnd, env.check), VerifiedLive(toEnd, env.check);
    var missed := Reset(Counted(w.missed, platform, found, false), platform, verified);
    var held := found + (Tracked(w.missed, platform) - offline);
    var reached := env.leaseAtMark && env.marks;
    var ended := if reached then Unlisted(w.alive, platform, held) else {};
    World(if reached then missed - KeysOf(platform, offline * env.closable) else missed,
          w.alive - KeysOf(platform, ended),
          w.log + [Cycle(platform, found, false, Tracked(w.missed, platform), verified, offline, ended)])
  }

  function Cycled(w: World, platform: Name, poll: Poll, env: Env): World {
    if !Recorded(poll, env) then
      w.(log := w.log + [Aborted(platform, if poll.Found? then Members(poll.channels) else {})])
    else
      var found := Members(poll.channels);
      var missed := Processed(w.missed, platform, poll.channels, env.unrecorded);
      var alive := w.alive + KeysOf(platform, found);
      if poll.partial then
        World(Counted(missed, platform, found, true), alive,
              w.log + [Cycle(platform, found, true, Tracked(missed, platform), {}, {}, {})])
      else Complete(World(missed, alive, w.log), platform, found, env)
  }

  // ---- The cycle as the leader runs it ----

  class Discover {
    const emitter: Emitter
    var alive: set<StateKey>
    ghost var log: seq<Record>

    ghost function View(): World
      reads this, emitter
    {
      World(emitter.missed, alive, log)
    }

    constructor (e: Emitter)
      ensures emitter == e && alive == {} && log == []
    {
      emitter, alive, log := e, {}, [];
    }

    method ValidateEndedCandidates(platform: Name, active: seq<Name>, toEnd: seq<Name>, check: Name -> Check)
      returns (held: seq<Name>, confirmed: seq<Name>)
      modifies emitter
      ensures Members(confirmed) == Offline(Members(toEnd), check)
      ensures Members(held) == Members(active) + (Members(toEnd) - Members(confirmed))
      ensures emitter.missed == Reset(old(emitter.missed), platform, VerifiedLive(Members(toEnd), check))
    {
      held, confirmed := active, [];
      var live: seq<Name> := [];
      var i := 0;
      while i < |toEnd|
        invariant 0 <= i <= |toEnd| && Members(confirmed) == Offline(Members(toEnd[..i]), check)
        invariant Members(held) == Members(active) + (Members(toEnd[..i]) - Members(confirmed))
        invariant Members(live) == VerifiedLive(Members(toEnd[..i]), check) && emitter.missed == old(emitter.missed)
      {
        var ch := toEnd[i];
        assert toEnd[..i + 1] == toEnd[..i] + [ch];
        AddMember(toEnd[..i], ch);
        AddMember(held, ch);
        AddMember(live, ch);
        AddMember(confirmed, ch);
        var answer := check(ch);
        held := if answer == Some(false) then held else held + [ch];
        live := if answer == Some(true) then live + [ch] else live;
        confirmed := if answer == Some(false) then confirmed + [ch] else confirmed;
        i := i + 1;
      }
      assert toEnd[..i] == toEnd;
      emitter.ResetMissedPolls(platform, live);
    }

    method MarkEndedChannels(platform: Name, active: seq<Name>)
      modifies this`alive
      ensures alive == old(alive) - KeysOf(platform, Unlisted(old(alive), platform, Members(active)))
    {
      var ended := set k | k in alive && k.platform == platform && k.channel !in active;
      assert ended == KeysOf(platform, Unlisted(alive, platform, Members(active))) by {
        forall k | k in ended ensures k in KeysOf(platform, Unlisted(alive, platform, Members(active))) {
          assert k.channel in Unlisted(alive, platform, Members(active)) && k == StateKey(platform, k.channel);
        }
      }
      alive := alive - ended;
    }

    /** One cycle. A lost lease, a failed fetch or a failed store ends it early. */
    method RunDiscoveryCycle(platform: Name, poll: Poll, env: Env)
      modifies this, emitter
      ensures View() == Cycled(old(View()), platform, poll, env)
    {
      if poll.FetchFailed? || !env.leaseAtUpsert || !env.upserts {
        log := log + [Aborted(platform, if poll.Found? then Members(poll.channels) else {})];
        return;
      }
      alive := alive + set ch | ch in poll.channels :: StateKey(platform, ch);
      assert alive == old(alive) + KeysOf(platform, Members(poll.channels));
      emitter.ProcessDiscovered(platform, poll.channels, env.unrecorded);
      if poll.partial {
        log := log + [Cycle(platform, Members(poll.channels), true, Tracked(emitter.missed, platform), {}, {}, {})];
        var _, _ := emitter.DetectEndedChannels(platform, poll.channels, true);
      } else {
        FinishCycle(platform, poll.channels, env);
      }
    }

    method FinishCycle(platform: Name, found: seq<Name>, env: Env)
      modifies this, emitter
      ensures View() == Complete(old(View()), platform, Members(found), env)
    {
      ghost var before := View();
      var active, toEnd := emitter.DetectEndedChannels(platform, found, false);
      var held, confirmed := ValidateEndedCandidates(platform, active, toEnd, env.check);
      HeldActive(before.missed, platform, Members(found), Members(toEnd), Members(confirmed));
      assert Members(held) == Members(found) + (Tracked(before.missed, platform) - Members(confirmed));
      if env.leaseAtMark && env.marks {
        MarkEndedChannels(platform, held);
        emitter.CommitEnded(platform, confirmed, env.closable);
      }
      log := Complete(before, platform, Members(found), env).log;
      assert before.alive - KeysOf(platform, {}) == before.alive;
    }
  }

  lemma HeldActive(missed: map<StateKey, nat>, platform: Name, found: set<Name>, toEnd: set<Name>, offline: set<Name>)
    requires toEnd == Expired(missed, platform, found, false) && offline <= toEnd
    ensures found + (Tracked(missed, platform) - toEnd) + (toEnd - offline)
            == found + (Tracked(missed, platform) - offline)
  {
    assert toEnd <= Tracked(missed, platform);
  }

  // ---- Runs ----

  datatype Step = RunCycle(platform: Name, poll: Poll, env: Env) | Recover(open: seq<StateKey>)

  function Next(w: World, a: Step): World {
    match a
    case RunCycle(platform, poll, env) => Cycled(w, platform, poll, env)
    case Recover(open) => w.(missed := map k | k in open :: 0, log := w.log + [Recovered])
  }

  function Run(w: World, steps: seq<Step>): World
    decreases |steps|
  {
    if steps == [] then w else Run(Next(w, steps[0]), steps[1..])
  }

  const START: World := World(map[], {}, [])

  /** A counted cycle that saw the channel, or checked that it is live. */
  predicate Resets(r: Record, k: StateKey) {
    r.Recovered? || (r.Cycle? && r.platform == k.platform && (k.channel in r.found || k.channel in r.verified))
  }

  /** A counted, complete cycle that missed the channel. */
  predicate Misses(r: Record, k: StateKey) {
    r.Cycle? && r.platform == k.platform && !r.partial && k.channel !in r.found && k.channel !in r.verified
  }

  /** Complete polls that missed the channel since it was last seen or verified live. */
  function MissesSince(log: seq<Record>, k: StateKey): nat
    decreases |log|
  {
    if log == [] then 0
    else
      var r, earlier := log[|log| - 1], log[..|log| - 1];
      if Resets(r, k) then 0 else if Misses(r, k) then MissesSince(earlier, k) + 1 else MissesSince(earlier, k)
  }

  lemma MissesAfter(log: seq<Record>, r: Record, k: StateKey)
    ensures MissesSince(log + [r], k)
            == if Resets(r, k) then 0 else if Misses(r, k) then MissesSince(log, k) + 1 else MissesSince(log, k)
  {
    assert (log + [r])[..|log|] == log;
  }

  /** The emitter's counters are exactly the misses its cycles recorded. */
  ghost predicate Counts(w: World) {
    forall k :: k in w.missed ==> w.missed[k] == MissesSince(w.log, k)
  }

  lemma CompleteAt(w: World, platform: Name, found: set<Name>, env: Env, k: StateKey)
    requires k in Complete(w, platform, found, env).missed && k in w.missed
    requires w.missed[k] == MissesSince(w.log, k) || (k.platform == platform && k.channel in found)
    ensures Complete(w, platform, found, env).missed[k] == MissesSince(Complete(w, platform, found, env).log, k)
  {
    var z := Complete(w, platform, found, env);
    MissesAfter(w.log, z.log[|w.log|], k);
  }

  lemma CycleKeepsCounts(w: World, platform: Name, poll: Poll, env: Env)
    requires Counts(w)
    ensures Counts(Cycled(w, platform, poll, env))
  {
    var z := Cycled(w, platform, poll, env);
    forall k | k in z.missed ensures z.missed[k] == MissesSince(z.log, k) {
      if Recorded(poll, env) {
        ProcessedAt(w.missed, platform, poll.channels, env.unrecorded, k);
        if poll.partial {
          MissesAfter(w.log, z.log[|w.log|], k);
        } else {
          var missed := Processed(w.missed, platform, poll.channels, env.unrecorded);
          var alive := w.alive + KeysOf(platform, Members(poll.channels));
          CompleteAt(World(missed, alive, w.log), platform, Members(poll.channels), env, k);
        }
      } else {
        MissesAfter(w.log, z.log[|w.log|], k);
      }
    }
  }

  lemma {:induction false} RunKeepsCounts(w: World, steps: seq<Step>)
    requires Counts(w)
    ensures Counts(Run(w, steps))
    decreases |steps|
  {
    if steps != [] {
      match steps[0] {
        case RunCycle(platform, poll, env) => CycleKeepsCounts(w, platform, poll, env);
        case Recover(open) =>
          forall k | k in open ensures MissesSince(w.log + [Recovered], k) == 0 { MissesAfter(w.log, Recovered, k); }
      }
      RunKeepsCounts(Next(w, steps[0]), steps[1..]);
    }
  }

  /** A complete poll missed the channel, and no cycle since has seen it or verified it live. */
  ghost predicate MissedBefore(log: seq<Record>, k: StateKey) {
    exists i :: 0 <= i < |log| && Misses(log[i], k) && forall j :: i < j < |log| ==> !Resets(log[j], k)
  }

  lemma {:induction false} MissedOnce(log: seq<Record>, k: StateKey)
    ensures MissesSince(log, k) > 0 <==> MissedBefore(log, k)
    decreases |log|
  {
    if log != [] {
      var earlier, r := log[..|log| - 1], log[|log| - 1];
      MissedOnce(earlier, k);
      if MissesSince(log, k) > 0 && !Misses(r, k) {
        var i :| 0 <= i < |earlier| && Misses(earlier[i], k) && forall j :: i < j < |earlier| ==>
              !Resets(earlier[j], k);
        assert Misses(log[i], k) && forall j :: i < j < |log| ==> !Resets(log[j], k) by {
          forall j | i < j < |log| ensures !Resets(log[j], k) { assert j < |earlier| ==> log[j] == earlier[j]; }
        }
      } else if MissesSince(log, k) > 0 {
        assert Misses(log[|log| - 1], k);
      }
      if MissedBefore(log, k) { MissedEarlier(log, k); }
    }
  }

  lemma MissedEarlier(log: seq<Record>, k: StateKey)
    requires log != [] && MissedBefore(log, k)
    ensures Misses(log[|log| - 1], k) || (!Resets(log[|log| - 1], k) && MissedBefore(log[..|log| - 1], k))
  {
    var earlier := log[..|log| - 1];
    var i :| 0 <= i < |log| && Misses(log[i], k) && forall j :: i < j < |log| ==> !Resets(log[j], k);
    if i < |log| - 1 {
      assert Misses(earlier[i], k) && forall j :: i < j < |earlier| ==> !Resets(earlier[j], k);
    }
  }

  /** In every run a cycle ends a channel its emitter tracks exactly when it gets as far as marking,
      its complete poll missed the channel, an earlier complete poll did so too with no sighting in
      between, and the direct check of this very cycle says that it is offline. */
  lemma EndedAfterTwoMisses(steps: seq<Step>, platform: Name, poll: Poll, env: Env, ch: Name)
    requires Recorded(poll, env)
    requires var w := Run(START, steps);
             StateKey(platform, ch) in w.missed && StateKey(platform, ch) in w.alive
    ensures var w := Run(START, steps);
            var r := Cycled(w, platform, poll, env).log[|w.log|];
            ch in r.ended <==>
            && !poll.partial && env.leaseAtMark && env.marks && ch !in poll.channels
            && MissedBefore(w.log, StateKey(platform, ch)) && env.check(ch) == Some(false)
  {
    var w, k := Run(START, steps), StateKey(platform, ch);
    RunKeepsCounts(START, steps);
    MissedOnce(w.log, k);
    ProcessedAt(w.missed, platform, poll.channels, env.unrecorded, k);
    if !poll.partial {
      var missed := Processed(w.missed, platform, poll.channels, env.unrecorded);
      var alive := w.alive + KeysOf(platform, Members(poll.channels));
      EndsExactly(World(missed, alive, w.log), platform, Members(poll.channels), env, ch);
    }
  }

  /** After a cycle exactly the channels it saw and recorded, and those alive before, are alive that it did
      not end. */
  lemma AliveExactly(w: World, platform: Name, poll: Poll, env: Env, k: StateKey)
    ensures var z := Cycled(w, platform, poll, env);
            var r := z.log[|w.log|];
            && |z.log| == |w.log| + 1
            && (k in z.alive <==>
                  && (k in w.alive || (Recorded(poll, env) && k.platform == platform && k.channel in poll.channels))
                  && !(r.Cycle? && k.platform == platform && k.channel in r.ended))
  {
    var z := Cycled(w, platform, poll, env);
    assert k == StateKey(k.platform, k.channel);
    if Recorded(poll, env) {
      assert k in KeysOf(platform, Members(poll.channels)) <==> k.platform == platform && k.channel in poll.channels;
      var ended := z.log[|w.log|].ended;
      assert k in KeysOf(platform, ended) <==> k.platform == platform && k.channel in ended;
    }
  }

  /** After a cycle exactly the channels are tracked that were, or that it saw and could record, but for
      those it found offline and could close once marking was reached. */
  lemma TrackedExactly(w: World, platform: Name, poll: Poll, env: Env, k: StateKey)
    ensures var z := Cycled(w, platform, poll, env);
            var r := z.log[|w.log|];
            k in z.missed <==>
              && (k in w.missed || (&& Recorded(poll, env) && k.platform == platform && k.channel in poll.channels
                                    && k.channel !in env.unrecorded))
              && !(&& r.Cycle? && !r.partial && env.leaseAtMark && env.marks && k.platform == platform
                   && k.channel in r.offline && k.channel in env.closable)
  {
    assert k == StateKey(k.platform, k.channel);
    if Recorded(poll, env) {
      ProcessedAt(w.missed, platform, poll.channels, env.unrecorded, k);
      var gone := Cycled(w, platform, poll, env).log[|w.log|].offline * env.closable;
      assert k in KeysOf(platform, gone) <==> k.platform == platform && k.channel in gone;
    }
  }

  /** A live channel that is not tracked is ended by the first complete cycle that does not see it. */
  lemma UntrackedEndsAtOnce(w: World, platform: Name, poll: Poll, env: Env, ch: Name)
    requires Recorded(poll, env) && StateKey(platform, ch) in w.alive && StateKey(platform, ch) !in w.missed
    ensures var r := Cycled(w, platform, poll, env).log[|w.log|];
            ch in r.ended <==> !poll.partial && env.leaseAtMark && env.marks && ch !in poll.channels
  {
    var k := StateKey(platform, ch);
    ProcessedAt(w.missed, platform, poll.channels, env.unrecorded, k);
    if !poll.partial && ch !in poll.channels {
      var missed := Processed(w.missed, platform, poll.channels, env.unrecorded);
      assert forall j :: j in missed && j.platform == platform && j.channel == ch ==> j == k;
      var alive := w.alive + KeysOf(platform, Members(poll.channels));
      assert k in alive;
    }
  }

  lemma EndsExactly(w: World, platform: Name, found: set<Name>, env: Env, ch: Name)
    requires StateKey(platform, ch) in w.missed && StateKey(platform, ch) in w.alive
    ensures ch in Complete(w, platform, found, env).log[|w.log|].ended <==>
            && env.leaseAtMark && env.marks && ch !in found && w.missed[StateKey(platform, ch)] >= 1
            && env.check(ch) == Some(false)
  {
    var k := StateKey(platform, ch);
    var toEnd := Expired(w.missed, platform, found, false);
    assert ch in Tracked(w.missed, platform) by { assert k in w.missed && k.channel == ch; }
    assert ch in toEnd <==> ch !in found && w.missed[k] + 1 >= 2;
  }

  /** A partial poll, or a cycle that could not record what it saw, ends nothing. */
  lemma PartialPollsEndNothing(w: World, platform: Name, poll: Poll, env: Env)
    requires !Recorded(poll, env) || poll.partial
    ensures w.alive <= Cycled(w, platform, poll, env).alive
  {
  }

  // ---- Sightings that were not recorded ----

  /** The cycle saw the channel but was aborted before recording it. */
  predicate Lost(r: Record, k: StateKey) { r.Aborted? && r.platform == k.platform && k.channel in r.found }

  /** A complete poll missed the channel, and no poll since has seen it, recorded or not. */
  ghost predicate MissedSinceSeen(log: seq<Record>, k: StateKey) {
    exists i :: 0 <= i < |log| && Misses(log[i], k) && forall j :: i < j < |log| ==>
          !Resets(log[j], k) && !Lost(log[j], k)
  }

  /** A sighting was lost, and no complete poll has missed the channel since. */
  ghost predicate LostSinceMiss(log: seq<Record>, k: StateKey) {
    exists i :: 0 <= i < |log| && Lost(log[i], k) && forall j :: i < j < |log| ==> !Misses(log[j], k)
  }

  lemma {:induction false} LastMiss(log: seq<Record>, k: StateKey, i: nat) returns (m: nat)
    requires i < |log| && Misses(log[i], k)
    ensures i <= m < |log| && Misses(log[m], k) && forall j :: m < j < |log| ==> !Misses(log[j], k)
    decreases |log| - i
  {
    if j :| i < j < |log| && Misses(log[j], k) {
      m := LastMiss(log, k, j);
    } else {
      m := i;
    }
  }

  /** A counted miss came after every sighting exactly if no sighting was lost after the last miss. */
  lemma MissedSinceSeenExactly(log: seq<Record>, k: StateKey)
    requires MissedBefore(log, k)
    ensures MissedSinceSeen(log, k) <==> !LostSinceMiss(log, k)
  {
    var i :| 0 <= i < |log| && Misses(log[i], k) && forall j :: i < j < |log| ==> !Resets(log[j], k);
    var m := LastMiss(log, k, i);
    if !LostSinceMiss(log, k) {
      forall j | m < j < |log| ensures !Resets(log[j], k) && !Lost(log[j], k) { }
      assert Misses(log[m], k);
    }
  }

  /** In every run, when a cycle ends a tracked channel: two complete polls missed it after every poll
      that saw it, recorded or not, exactly if no sighting was lost after the last counted miss. */
  lemma EndedSinceLastSeen(steps: seq<Step>, platform: Name, poll: Poll, env: Env, ch: Name)
    requires Recorded(poll, env)
    requires var w := Run(START, steps);
             && StateKey(platform, ch) in w.missed && StateKey(platform, ch) in w.alive
             && ch in Cycled(w, platform, poll, env).log[|w.log|].ended
    ensures var w, k := Run(START, steps), StateKey(platform, ch);
            && Misses(Cycled(w, platform, poll, env).log[|w.log|], k)
            && (MissedSinceSeen(w.log, k) <==> !LostSinceMiss(w.log, k))
  {
    EndedAfterTwoMisses(steps, platform, poll, env, ch);
    MissedSinceSeenExactly(Run(START, steps).log, StateKey(platform, ch));
    OfflineIsNotVerified(Run(START, steps), platform, poll, env, ch);
  }

  lemma OfflineIsNotVerified(w: World, platform: Name, poll: Poll, env: Env, ch: Name)
    requires Recorded(poll, env) && !poll.partial && ch !in poll.channels && env.check(ch) == Some(false)
    ensures Misses(Cycled(w, platform, poll, env).log[|w.log|], StateKey(platform, ch))
  {
  }

  lemma RunThree(w: World, a: Step, b: Step, d: Step)
    ensures Run(w, [a, b, d]) == Next(Next(Next(w, a), b), d)
  {
    assert [a, b, d][1..] == [b, d] && [b, d][1..] == [d] && [d][1..] == [];
    var v := Next(Next(w, a), b);
    assert Run(v, [d]) == Next(v, d);
    assert Run(Next(w, a), [b, d]) == Run(v, [d]);
  }

  /** A run in which that fails: the poll before saw the channel, but its upsert failed, and the next
      complete miss ends the channel. */
  lemma LostSightingEnds(platform: Name, ch: Name) returns (steps: seq<Step>, last: Step)
    ensures var w, k := Run(START, steps), StateKey(platform, ch);
            && w.log != [] && Lost(w.log[|w.log| - 1], k) && LostSinceMiss(w.log, k) && !MissedSinceSeen(w.log, k)
            && k in w.alive && k !in Next(w, last).alive
  {
    var k := StateKey(platform, ch);
    var env := Env(true, true, {}, (x: Name) => Some(false), true, true, {});
    var seen := RunCycle(platform, Found([ch], false), env);
    var lost := RunCycle(platform, Found([ch], false), env.(upserts := false));
    last := RunCycle(platform, Found([], false), env);
    steps := [seen, last, lost];
    RunThree(START, seen, last, lost);
    SeenOnce(platform, ch, env);
    LostThenMissed(Next(START, seen), platform, ch, env);
  }

  lemma LostThenMissed(w: World, platform: Name, ch: Name, env: Env)
    requires StateKey(platform, ch) in w.missed && StateKey(platform, ch) in w.alive && env.unrecorded == {}
    requires w.missed[StateKey(platform, ch)] == 0 == MissesSince(w.log, StateKey(platform, ch))
    requires env.leaseAtUpsert && env.upserts && env.leaseAtMark && env.marks && env.closable == {}
    requires env.check(ch) == Some(false)
    ensures var k := StateKey(platform, ch);
            var z := Cycled(Cycled(w, platform, Found([], false), env), platform, Found([ch], false),
                  env.(upserts := false));
            && z.log != [] && Lost(z.log[|z.log| - 1], k) && LostSinceMiss(z.log, k) && !MissedSinceSeen(z.log, k)
            && k in z.alive && k !in Cycled(z, platform, Found([], false), env).alive
  {
    MissOnce(w, platform, ch, env);
    var v := Cycled(w, platform, Found([], false), env);
    var z := Cycled(v, platform, Found([ch], false), env.(upserts := false));
    assert ch in Members([ch]) && z == v.(log := v.log + [Aborted(platform, Members([ch]))]);
    LostAtTheEnd(z.log, StateKey(platform, ch));
    MissOnce(z, platform, ch, env);
  }

  lemma LostAtTheEnd(log: seq<Record>, k: StateKey)
    requires log != [] && Lost(log[|log| - 1], k)
    ensures LostSinceMiss(log, k) && !MissedSinceSeen(log, k)
  {
  }

  lemma SeenOnce(platform: Name, ch: Name, env: Env)
    requires env.leaseAtUpsert && env.upserts && env.unrecorded == {}
    ensures var k := StateKey(platform, ch);
            var w := Cycled(START, platform, Found([ch], false), env);
            k in w.missed && w.missed[k] == 0 && k in w.alive && |w.log| == 1 && MissesSince(w.log, k) == 0
  {
    var k := StateKey(platform, ch);
    var w := Cycled(START, platform, Found([ch], false), env);
    ProcessedAt(map[], platform, [ch], {}, k);
    MissesAfter([], w.log[0], k);
  }

  lemma MissOnce(w: World, platform: Name, ch: Name, env: Env)
    requires StateKey(platform, ch) in w.missed && StateKey(platform, ch) in w.alive && env.unrecorded == {}
    requires env.leaseAtUpsert && env.upserts && env.leaseAtMark && env.marks && env.closable == {}
    requires env.check(ch) == Some(false)
    ensures var k := StateKey(platform, ch);
            var z := Cycled(w, platform, Found([], false), env);
            && k in z.missed && z.missed[k] == w.missed[k] + 1 && |z.log| == |w.log| + 1
            && (k in z.alive <==> w.missed[k] == 0) && MissesSince(z.log, k) == MissesSince(w.log, k) + 1
  {
    var k := StateKey(platform, ch);
    var z := Cycled(w, platform, Found([], false), env);
    assert Members([]) == {};
    EndsExactly(World(w.missed, w.alive + KeysOf(platform, {}), w.log), platform, {}, env, ch);
    MissesAfter(w.log, z.log[|w.log|], k);
  }
}
