/** The worker gets somewhere: whenever a donation may be saved, its save goes through step by step and is
    acknowledged, and with a reachable journal the donation ends up there and the spool is empty again. */
module WorkerProgress {
  import opened JournalTypes
  import opened JournalOps
  import opened JournalRuns
  import opened WorkerRuns

  /** A run from `w` that leads to `z`. */
  ghost predicate Leads(w: World, acts: seq<Act>, z: World, accepted: EventId -> Time) {
    Legitimate(w, acts, accepted) && Run(w, acts) == z
  }

  lemma Further(w: World, acts: seq<Act>, z: World, a: Act, accepted: EventId -> Time)
    requires Leads(w, acts, z, accepted) && Can(z, a, accepted)
    ensures Leads(w, acts + [a], Do(z, a), accepted)
  {
    assert (acts + [a])[..|acts|] == acts;
  }

  /** Nothing is going on, nothing is spooled, and the donation may be saved under the capture. */
  ghost predicate Ready(w: World, capture: Capture, d: Donation, accepted: EventId -> Time) {
    && w.spool.pc.Idle? && w.spool.live == map[] && w.spool.livePending == {}
    && capture in w.captures && d.Acceptable() && w.y.s.clock < capture.deadline
    && d.eventId !in w.spool.saved && accepted(d.eventId) == w.y.s.clock
  }

  function RecordOf(w: World, capture: Capture, d: Donation): Record { Record(capture.grant, d, w.y.s.clock) }

  /** The record is durably published and about to be submitted. */
  ghost predicate AtSubmission(w: World, z: World, r: Record) {
    && z.y == w.y && z.spool.live == map[NameOf(r) := r] == z.spool.durable
    && z.spool.livePending == {} == z.spool.durablePending && r in z.spool.published
    && z.spool.pc == Draining([NameOf(r)], 0, AtFile, Some(r))
  }

  /** The record is written aside. */
  ghost predicate AtPublication(w: World, z: World, r: Record, deadline: Time) {
    && z.y == w.y && z.spool.live == map[] && z.spool.livePending == {NameOf(r)}
    && z.spool.pc == Saving(r, deadline, true)
  }

  lemma Starts(w: World, capture: Capture, d: Donation, accepted: EventId -> Time) returns (acts: seq<Act>, z: World)
    requires Ready(w, capture, d, accepted)
    ensures Leads(w, acts, z, accepted) && z.y == w.y && z.spool.live == map[]
    ensures var r := RecordOf(w, capture, d);
            z.spool.livePending == {NameOf(r)} && z.spool.pc == Saving(r, capture.deadline, false)
  {
    assert Leads(w, [], w, accepted);
    Further(w, [], w, SaveStart(capture, d), accepted);
    acts, z := [] + [SaveStart(capture, d)], Do(w, SaveStart(capture, d));
  }

  lemma Writes(w: World, capture: Capture, d: Donation, accepted: EventId -> Time) returns (acts: seq<Act>, z: World)
    requires Ready(w, capture, d, accepted)
    ensures Leads(w, acts, z, accepted) && AtPublication(w, z, RecordOf(w, capture, d), capture.deadline)
  {
    var before, y := Starts(w, capture, d, accepted);
    Further(w, before, y, SaveWrite, accepted);
    acts, z := before + [SaveWrite], Do(y, SaveWrite);
  }

  lemma Publishes(w: World, capture: Capture, d: Donation, accepted: EventId -> Time)
    returns (acts: seq<Act>, z: World)
    requires Ready(w, capture, d, accepted)
    ensures Leads(w, acts, z, accepted) && AtSubmission(w, z, RecordOf(w, capture, d))
  {
    var r := RecordOf(w, capture, d);
    var before, y := Writes(w, capture, d, accepted);
    Further(w, before, y, SavePublish, accepted);
    var y1 := Do(y, SavePublish);
    assert y1.spool.live == map[NameOf(r) := r] && y1.spool.livePending == {};
    var sync := SaveSync([NameOf(r)]);
    Further(w, before + [SavePublish], y1, sync, accepted);
    acts, z := before + [SavePublish] + [sync], Do(y1, sync);
  }

  /** With the journal out of reach the save is acknowledged and its record stays on disk. */
  lemma SaveSurvivesOutage(w: World, capture: Capture, d: Donation, accepted: EventId -> Time)
    returns (acts: seq<Act>, z: World)
    requires Ready(w, capture, d, accepted)
    ensures Leads(w, acts, z, accepted)
    ensures var r := RecordOf(w, capture, d);
            && z.spool.pc.Idle? && r in z.spool.acked && NameOf(r) in z.spool.durable
            && z.spool.durable[NameOf(r)] == r
  {
    var before, y := Publishes(w, capture, d, accepted);
    var append := DrainAppend(0, 0, false);
    Further(w, before, y, append, accepted);
    acts, z := before + [append], Do(y, append);
  }

  /** The journal has the donation, the spool still its file. */
  ghost predicate AtRemoval(z: World, r: Record) {
    && z.spool.live == map[NameOf(r) := r] && z.spool.livePending == {}
    && z.spool.pc == Draining([NameOf(r)], 0, Appended, Some(r))
  }

  lemma Submits(w: World, y: World, r: Record, length: nat, size: nat, accepted: EventId -> Time)
    requires AtSubmission(w, y, r) && r.acceptedAt == w.y.s.clock
    requires Append(w.y.s, r.grant, r.donation, r.acceptedAt, length, size).1.Ok?
    ensures Can(y, DrainAppend(length, size, true), accepted)
    ensures var z := Do(y, DrainAppend(length, size, true));
            && AtRemoval(z, r) && z.y == Step(w.y, AppendOp(r, length, size))
  {
    assert Current(y.spool) == r;
    assert OpOf(y, DrainAppend(length, size, true)) == Some(AppendOp(r, length, size));
  }

  lemma Removes(w: World, before: seq<Act>, y: World, r: Record, accepted: EventId -> Time)
    returns (acts: seq<Act>, z: World)
    requires Leads(w, before, y, accepted) && AtRemoval(y, r)
    ensures Leads(w, acts, z, accepted) && z.y == y.y && z.spool.live == map[]
    ensures z.spool.pc == Draining([NameOf(r)], 0, Removed, Some(r))
  {
    Further(w, before, y, DrainRemove, accepted);
    acts, z := before + [DrainRemove], Do(y, DrainRemove);
    assert z.spool.live == map[];
  }

  lemma Clears(w: World, before: seq<Act>, y: World, r: Record, accepted: EventId -> Time)
    returns (acts: seq<Act>, z: World)
    requires Leads(w, before, y, accepted) && AtRemoval(y, r)
    ensures Leads(w, acts, z, accepted) && z.y == y.y
    ensures z.spool.pc.Idle? && r in z.spool.acked && z.spool.live == map[] == z.spool.durable
  {
    var more, y1 := Removes(w, before, y, r, accepted);
    Further(w, more, y1, DrainSync, accepted);
    var y2 := Do(y1, DrainSync);
    Further(w, more + [DrainSync], y2, DrainEnd, accepted);
    acts, z := more + [DrainSync] + [DrainEnd], Do(y2, DrainEnd);
  }

  lemma AppendedIsStored(s: Store, r: Record, length: nat, size: nat)
    requires Append(s, r.grant, r.donation, r.acceptedAt, length, size).1.Ok?
    ensures r.donation.eventId in Next(s, AppendOp(r, length, size)).donations
  {
  }

  /** With a journal that accepts it the donation is journaled, the save acknowledged, and the spool empty. */
  lemma SaveGoesThrough(w: World, capture: Capture, d: Donation, length: nat, size: nat, accepted: EventId -> Time)
    returns (acts: seq<Act>, z: World)
    requires Ready(w, capture, d, accepted)
    requires Append(w.y.s, capture.grant, d, w.y.s.clock, length, size).1.Ok?
    ensures Leads(w, acts, z, accepted)
    ensures var r := RecordOf(w, capture, d);
            && z.spool.pc.Idle? && r in z.spool.acked && z.spool.live == map[] == z.spool.durable
            && d.eventId in z.y.s.donations && z.y == Step(w.y, AppendOp(r, length, size))
  {
    var r := RecordOf(w, capture, d);
    var before, y := Publishes(w, capture, d, accepted);
    Submits(w, y, r, length, size, accepted);
    AppendedIsStored(w.y.s, r, length, size);
    var append := DrainAppend(length, size, true);
    Further(w, before, y, append, accepted);
    acts, z := Clears(w, before + [append], Do(y, append), r, accepted);
  }

  // ---- Sessions ----

  /** A session that acquires holds its grant for thirty seconds from when it asked, and a capture taken
      meanwhile carries that deadline. */
  lemma AcquiredSession(w: World, id: Name, ch: Channel, worker: Name, token: Token, accepted: EventId -> Time)
    requires Can(w, AcquireDone(id, ch, worker, token), accepted) && w.y.s.clock < w.sessions[id].started + 30 * SECOND
    ensures var z := Do(w, AcquireDone(id, ch, worker, token));
            && id in z.sessions && z.sessions[id].Active?
            && Acquire(w.y.s, ch, worker, token).1 == Ok(z.sessions[id].grant)
            && z.sessions[id].deadline == w.sessions[id].started + 30 * SECOND
            && Capture(z.sessions[id].grant, z.sessions[id].deadline) in Do(z, Observe(id)).captures
  {
    var z := Do(w, AcquireDone(id, ch, worker, token));
    assert z.sessions[id].Active?;
  }

  /** A confirmed renewal moves the deadline to thirty seconds after its own request, and nothing else. */
  lemma RenewedSession(w: World, id: Name, accepted: EventId -> Time)
    requires Can(w, RenewDone(id), accepted)
    ensures var z := Do(w, RenewDone(id));
            && id in z.sessions && z.sessions[id].Active? && z.sessions[id].grant == w.sessions[id].grant
            && z.sessions[id].deadline == w.sessions[id].renewal.started + 30 * SECOND
            && z.y == w.y && z.spool == w.spool && z.captures == w.captures
  {
  }
}
