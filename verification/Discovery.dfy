/** Discovery cycles: when a broadcast that disappears from the polls may be marked ended. */
module Discovery {
  import opened JournalTypes

  datatype StateKey = StateKey(platform: Name, channel: Name)

  /** What a direct check of a channel says; None if it failed. */
  type Check = Option<bool>

  // ---- The emitter ----

  function Processed(missed: map<StateKey, nat>, platform: Name, found: seq<Name>, unrecorded: set<Name>)
    : map<StateKey, nat>
    decreases |found|
  {
    if found == [] then missed
    else
      var m, ch := Processed(missed, platform, found[..|found| - 1], unrecorded), found[|found| - 1];
      if ch in unrecorded then m else m[StateKey(platform, ch) := 0]
  }

  /** Discovered channels are tracked from zero; all others are as before. */
  lemma {:induction false} ProcessedAt(missed: map<StateKey, nat>, platform: Name, found: seq<Name>,
                                       unrecorded: set<Name>, k: StateKey)
    ensures var m := Processed(missed, platform, found, unrecorded);
            var recorded := k.platform == platform && k.channel in found && k.channel !in unrecorded;
            (k in m <==> k in missed || recorded) && (k in m ==> m[k] == if recorded then 0 else missed[k])
    decreases |found|
  {
    if found != [] {
      ProcessedAt(missed, platform, found[..|found| - 1], unrecorded, k);
      assert found == found[..|found| - 1] + [found[|found| - 1]];
    }
  }

  function Counted(missed: map<StateKey, nat>, platform: Name, active: set<Name>, partial: bool): map<StateKey, nat> {
    map k | k in missed ::
      if k.platform != platform then missed[k]
      else if k.channel in active then 0
      else if partial then missed[k]
      else missed[k] + 1
  }

  /** Tracked channels that a complete poll missed for at least the second time. */
  function Expired(missed: map<StateKey, nat>, platform: Name, active: set<Name>, partial: bool): set<Name> {
    set k | k in missed && k.platform == platform && k.channel !in active && !partial && missed[k] + 1 >= 2 :: k.channel
  }

  function Tracked(missed: map<StateKey, nat>, platform: Name): set<Name> {
    set k | k in missed && k.platform == platform :: k.channel
  }

  function Reset(missed: map<StateKey, nat>, platform: Name, channels: set<Name>): map<StateKey, nat> {
    map k | k in missed :: if k.platform == platform && k.channel in channels then 0 else missed[k]
  }

  function Members(s: seq<Name>): set<Name> { set x | x in s }

  class Emitter {
    var missed: map<StateKey, nat>

    constructor ()
      ensures missed == map[]
    {
      missed := map[];
    }

    /** Discovered channels start over; one whose session could not be stored keeps its state. */
    method ProcessDiscovered(platform: Name, found: seq<Name>, unrecorded: set<Name>)
      modifies this
      ensures missed == Processed(old(missed), platform, found, unrecorded)
    {
      var i := 0;
      while i < |found|
        invariant 0 <= i <= |found| && missed == Processed(old(missed), platform, found[..i], unrecorded)
      {
        assert found[..i + 1][..i] == found[..i];
        if found[i] !in unrecorded { missed := missed[StateKey(platform, found[i]) := 0]; }
        i := i + 1;
      }
      assert found[..i] == found;
    }

    /** Counts the poll and returns the channels still to be held active and those to end. */
    method DetectEndedChannels(platform: Name, active: seq<Name>, partial: bool)
      returns (augmented: seq<Name>, toEnd: seq<Name>)
      modifies this
      ensures missed == Counted(old(missed), platform, Members(active), partial)
      ensures Members(toEnd) == Expired(old(missed), platform, Members(active), partial)
      ensures Members(augmented) == Members(active) + (Tracked(old(missed), platform) - Members(toEnd))
    {
      augmented, toEnd := active, [];
      var rest := missed.Keys;
      ghost var done: set<StateKey> := {};
      DetectStarts(missed, platform, active, partial);
      while rest != {}
        invariant done + rest == old(missed).Keys && done !! rest
        invariant Detecting(old(missed), done, platform, active, partial, missed, augmented, toEnd)
        decreases rest
      {
        var k :| k in rest;
        var held, late, count := false, false, missed[k];
        if k.platform == platform {
          if k.channel in active {
            count := 0;
          } else if partial {
            held := true;
          } else {
            count := count + 1;
            held, late := count < 2, count >= 2;
          }
        }
        DetectKeeps(old(missed), done, k, platform, active, partial, missed, augmented, toEnd, count, held, late);
        missed := missed[k := count];
        augmented := if held then augmented + [k.channel] else augmented;
        toEnd := if late then toEnd + [k.channel] else toEnd;
        done, rest := done + {k}, rest - {k};
      }
      DetectEnds(old(missed), done, platform, active, partial, missed, augmented, toEnd);
    }

    method ResetMissedPolls(platform: Name, channels: seq<Name>)
      modifies this
      ensures missed == Reset(old(missed), platform, Members(channels))
    {
      var i := 0;
      while i < |channels|
        invariant 0 <= i <= |channels| && missed == Reset(old(missed), platform, Members(channels[..i]))
      {
        assert Members(channels[..i + 1]) == Members(channels[..i]) + {channels[i]};
        var k := StateKey(platform, channels[i]);
        ResetStep(old(missed), platform, Members(channels[..i]), channels[i]);
        if k in missed { missed := missed[k := 0]; }
        i := i + 1;
      }
      assert channels[..i] == channels;
    }

    /** Forgets the ended channels whose session could be closed. */
    method CommitEnded(platform: Name, ended: seq<Name>, closable: set<Name>)
      modifies this
      ensures missed == old(missed) - KeysOf(platform, Members(ended) * closable)
    {
      var i := 0;
      while i < |ended|
        invariant 0 <= i <= |ended| && missed == old(missed) - KeysOf(platform, Members(ended[..i]) * closable)
      {
        assert Members(ended[..i + 1]) == Members(ended[..i]) + {ended[i]};
        var k := StateKey(platform, ended[i]);
        if k in missed && ended[i] in closable { missed := missed - {k}; }
        i := i + 1;
      }
      assert ended[..i] == ended;
    }

    /** After a restart the open sessions are tracked afresh. */
    method RecoverState(open: seq<StateKey>)
      modifies this
      ensures missed == map k | k in open :: 0
    {
      missed := map[];
      var i := 0;
      while i < |open|
        invariant 0 <= i <= |open| && missed == map k | k in open[..i] :: 0
      {
        if open[i] !in missed { missed := missed[open[i] := 0]; }
        i := i + 1;
      }
      assert open[..i] == open;
    }
  }

  function KeysOf(platform: Name, channels: set<Name>): set<StateKey> {
    set ch | ch in channels :: StateKey(platform, ch)
  }

  function Only(missed: map<StateKey, nat>, done: set<StateKey>): map<StateKey, nat> {
    map k | k in missed && k in done :: missed[k]
  }

  /** Counted for the keys that are done. */
  ghost function Partly(missed: map<StateKey, nat>, done: set<StateKey>, platform: Name, active: set<Name>,
                        partial: bool)
    : map<StateKey, nat>
  {
    map k | k in missed :: if k in done then Counted(missed, platform, active, partial)[k] else missed[k]
  }

  lemma ResetStep(missed: map<StateKey, nat>, platform: Name, channels: set<Name>, ch: Name)
    ensures var m := Reset(missed, platform, channels);
            Reset(missed, platform, channels + {ch})
            == if StateKey(platform, ch) in m then m[StateKey(platform, ch) := 0] else m
  {
  }

  lemma PartlyStep(missed: map<StateKey, nat>, done: set<StateKey>, k: StateKey, platform: Name, active: set<Name>,
                   partial: bool)
    requires k in missed
    ensures Partly(missed, done + {k}, platform, active, partial)
            == Partly(missed, done, platform, active, partial)[k := Counted(missed, platform, active, partial)[k]]
  {
  }

  /** The detection loop, with the keys in `done` behind it. */
  ghost predicate Detecting(before: map<StateKey, nat>, done: set<StateKey>, platform: Name, active: seq<Name>,
                            partial: bool, missed: map<StateKey, nat>, augmented: seq<Name>, toEnd: seq<Name>) {
    && missed == Partly(before, done, platform, Members(active), partial)
    && Members(toEnd) == Expired(Only(before, done), platform, Members(active), partial)
    && Members(augmented) == Members(active) + (Tracked(Only(before, done), platform) - Members(toEnd))
  }

  lemma DetectStarts(before: map<StateKey, nat>, platform: Name, active: seq<Name>, partial: bool)
    ensures Detecting(before, {}, platform, active, partial, before, active, [])
  {
    assert Only(before, {}) == map[];
    assert Partly(before, {}, platform, Members(active), partial) == before;
  }

  lemma DetectKeeps(before: map<StateKey, nat>, done: set<StateKey>, k: StateKey, platform: Name, active: seq<Name>,
                    partial: bool, missed: map<StateKey, nat>, augmented: seq<Name>, toEnd: seq<Name>,
                    count: nat, held: bool, late: bool)
    requires k in before && k !in done && Detecting(before, done, platform, active, partial, missed, augmented, toEnd)
    requires count == Counted(before, platform, Members(active), partial)[k]
    requires held <==> k.platform == platform && k.channel !in Members(active) && !late
    requires late <==> k.platform == platform && k.channel !in Members(active) && !partial && before[k] + 1 >= 2
    ensures Detecting(before, done + {k}, platform, active, partial, missed[k := count],
                      if held then augmented + [k.channel] else augmented, if late then toEnd + [k.channel] else toEnd)
  {
    DetectStep(before, done, k, platform, Members(active), partial);
    PartlyStep(before, done, k, platform, Members(active), partial);
    AddMember(augmented, k.channel);
    AddMember(toEnd, k.channel);
  }

  lemma DetectEnds(before: map<StateKey, nat>, done: set<StateKey>, platform: Name, active: seq<Name>, partial: bool,
                   missed: map<StateKey, nat>, augmented: seq<Name>, toEnd: seq<Name>)
    requires done == before.Keys && Detecting(before, done, platform, active, partial, missed, augmented, toEnd)
    ensures missed == Counted(before, platform, Members(active), partial)
    ensures Members(toEnd) == Expired(before, platform, Members(active), partial)
    ensures Members(augmented) == Members(active) + (Tracked(before, platform) - Members(toEnd))
  {
    assert Only(before, done) == before;
    assert Partly(before, done, platform, Members(active), partial)
        == Counted(before, platform, Members(active), partial);
  }

  lemma AddMember(s: seq<Name>, x: Name)
    ensures Members(s + [x]) == Members(s) + {x}
  {
  }

  lemma DetectStep(missed: map<StateKey, nat>, done: set<StateKey>, k: StateKey, platform: Name, active: set<Name>,
                   partial: bool)
    requires k in missed && k !in done
    ensures var more, less := Only(missed, done + {k}), Only(missed, done);
            && Tracked(more, platform) == Tracked(less, platform) + (if k.platform == platform then {k.channel} else {})
            && Expired(more, platform, active, partial) == Expired(less, platform, active, partial)
               + (if k.platform == platform && k.channel !in active && !partial && missed[k] + 1 >= 2
                  then {k.channel} else {})
            && (k.platform == platform ==> k.channel !in Tracked(less, platform))
  {
    var more, less := Only(missed, done + {k}), Only(missed, done);
    assert forall j :: j in more <==> j in less || j == k;
  }
}
