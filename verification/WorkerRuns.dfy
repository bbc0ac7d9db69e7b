/** A worker over the journal: sessions that acquire and renew grants, a spool directory that may lose
    unsynced changes in a crash, and the journal itself, interleaved step by step with everything
    other parts of the system do. */
module WorkerRuns {
  import opened JournalTypes
  import opened JournalOps
  import opened JournalRuns

  /** A spool record and the file it is published under. */
  datatype Record = Record(grant: OwnerGrant, donation: Donation, acceptedAt: Time)
  datatype FileName = FileName(at: Time, event: EventId)

  function NameOf(r: Record): FileName { FileName(r.acceptedAt, r.donation.eventId) }

  // ---- Sessions ----

  datatype Renewal = NoRenewal | Requested(started: Time) | Confirmed(started: Time)
  datatype Session = Starting(started: Time) | Active(grant: OwnerGrant, deadline: Time, renewal: Renewal)

  /** What the donation sink has read of a session before it saves. */
  datatype Capture = Capture(grant: OwnerGrant, deadline: Time)

  // ---- The spool ----

  datatype Stage = AtFile | Appended | Removed
  datatype Pc =
    | Idle
    | Saving(record: Record, deadline: Time, written: bool)
    | Published(record: Record)
    | Draining(files: seq<FileName>, at: nat, stage: Stage, saved: Option<Record>)

  /** `live` is the directory as the process sees it, `durable` what its last sync has made certain.
      The other fields record what was ever saved, published and acknowledged. */
  datatype Spool = Spool(
    live: map<FileName, Record>, durable: map<FileName, Record>,
    livePending: set<FileName>, durablePending: set<FileName>, pc: Pc,
    saved: set<EventId>, published: set<Record>, acked: set<Record>)

  datatype World = World(y: Sys, sessions: map<Name, Session>, captures: set<Capture>, spool: Spool)

  datatype Act =
    | Elsewhere(op: Op)
    | AcquireStart(id: Name)
    | AcquireDone(id: Name, channel: Channel, worker: Name, token: Token)
    | RenewStart(id: Name)
    | RenewCommit(id: Name)
    | RenewDone(id: Name)
    | EndSession(id: Name)
    | Observe(id: Name)
    | SaveStart(capture: Capture, donation: Donation)
    | SaveWrite
    | SavePublish
    | SaveSync(files: seq<FileName>)
    | DrainStart(files: seq<FileName>)
    | DrainAppend(length: nat, size: nat, heard: bool)
    | DrainRemove
    | DrainSync
    | DrainEnd
    | Fail
    | Crash(json: map<FileName, Record>, pending: set<FileName>)
    | Inspect(pending: set<FileName>)

  /** The names of the published records, each once. Their order is the subject of the drain method. */
  predicate Lists(files: seq<FileName>, dir: map<FileName, Record>) {
    (forall i :: 0 <= i < |files| ==> files[i] in dir) && (forall n :: n in dir ==> n in files)
  }

  /** What a crash may leave: synced entries stay, unsynced changes may or may not have reached the disk. */
  predicate Survives(live: map<FileName, Record>, durable: map<FileName, Record>, after: map<FileName, Record>) {
    && (forall n :: n in after ==> (n in live && after[n] == live[n]) || (n in durable && after[n] == durable[n]))
    && (forall n :: n in live && n in durable ==> n in after)
  }

  predicate Definite(e: Error) {
    e.Owner? || e.Generation? || e.Disabled? || e.CursorExpired? || e.Conflict?
  }

  predicate CanDrain(p: Spool) {
    p.pc.Draining? && p.pc.at < |p.pc.files|
  }

  /** The record the drain is at. */
  function Current(p: Spool): Record
    requires CanDrain(p) && p.pc.files[p.pc.at] in p.live
  {
    p.live[p.pc.files[p.pc.at]]
  }

  function AppendOp(r: Record, length: nat, size: nat): Op {
    Appending(r.grant, r.donation, r.acceptedAt, length, size)
  }

  ghost predicate Can(w: World, a: Act, accepted: EventId -> Time) {
    var p := w.spool;
    var clock := w.y.s.clock;
    match a
    case Elsewhere(op) => Enabled(w.y, op, accepted)
    case AcquireStart(id) => id !in w.sessions
    case AcquireDone(id, ch, worker, token) =>
      id in w.sessions && w.sessions[id].Starting? && token !in w.y.h.grants
      && Acquire(w.y.s, ch, worker, token).1.Ok?
    case RenewStart(id) => id in w.sessions && w.sessions[id].Active? && w.sessions[id].renewal.NoRenewal?
    case RenewCommit(id) =>
      id in w.sessions && w.sessions[id].Active? && w.sessions[id].renewal.Requested?
      && Renew(w.y.s, w.sessions[id].grant).1.Ok?
    case RenewDone(id) => id in w.sessions && w.sessions[id].Active? && w.sessions[id].renewal.Confirmed?
    case EndSession(id) => id in w.sessions
    case Observe(id) => id in w.sessions && w.sessions[id].Active? && clock < w.sessions[id].deadline
    case SaveStart(capture, d) =>
      && p.pc.Idle? && capture in w.captures && d.Acceptable() && clock < capture.deadline
      && p.livePending == {} && d.eventId !in p.saved && accepted(d.eventId) == clock
    case SaveWrite => p.pc.Saving? && !p.pc.written
    case SavePublish => p.pc.Saving? && p.pc.written && clock < p.pc.deadline
    case SaveSync(files) => p.pc.Published? && Lists(files, p.live)
    case DrainStart(files) => p.pc.Idle? && p.livePending == {} && Lists(files, p.live)
    case DrainAppend(length, size, heard) =>
      && CanDrain(p) && p.pc.stage.AtFile? && p.pc.files[p.pc.at] in p.live
      && clock - Current(p).acceptedAt <= 30 * DAY
    case DrainRemove => CanDrain(p) && p.pc.stage.Appended?
    case DrainSync => CanDrain(p) && p.pc.stage.Removed?
    case DrainEnd => p.pc.Draining? && p.pc.at == |p.pc.files|
    case Fail => true
    case Crash(json, pending) =>
      Survives(p.live, p.durable, json) && pending <= p.livePending + p.durablePending
    case Inspect(pending) => p.pc.Idle? && pending <= p.livePending
  }

  /** The spool call returns without error, or finds the journal unavailable: a save is acknowledged. */
  function Returned(p: Spool): Spool {
    p.(pc := Idle,
       acked := if p.pc.Draining? && p.pc.saved.Some? then p.acked + {p.pc.saved.value} else p.acked)
  }

  ghost function AfterAppend(w: World, length: nat, size: nat, heard: bool): Spool
    requires CanDrain(w.spool) && w.spool.pc.files[w.spool.pc.at] in w.spool.live
  {
    var p, r := w.spool, Current(w.spool);
    var result := Append(w.y.s, r.grant, r.donation, r.acceptedAt, length, size).1;
    if !heard then Returned(p)
    else if result.Ok? then p.(pc := p.pc.(stage := Appended))
    else if Definite(result.error) then p.(pc := Idle)
    else Returned(p)
  }

  /** The spool's own steps. */
  ghost function NextSpool(w: World, a: Act): Spool {
    var p := w.spool;
    match a
    case SaveStart(capture, d) =>
      var r := Record(capture.grant, d, w.y.s.clock);
      p.(pc := Saving(r, capture.deadline, false), saved := p.saved + {d.eventId},
         livePending := p.livePending + {NameOf(r)})
    case SaveWrite => if p.pc.Saving? then p.(pc := p.pc.(written := true)) else p
    case SavePublish =>
      if !p.pc.Saving? then p
      else
        var r := p.pc.record;
        p.(pc := Published(r), published := p.published + {r},
           live := p.live[NameOf(r) := r], livePending := p.livePending - {NameOf(r)})
    case SaveSync(files) =>
      if !p.pc.Published? then p
      else p.(pc := Draining(files, 0, AtFile, Some(p.pc.record)), durable := p.live, durablePending := p.livePending)
    case DrainStart(files) => p.(pc := Draining(files, 0, AtFile, None))
    case DrainAppend(length, size, heard) =>
      if CanDrain(p) && p.pc.files[p.pc.at] in p.live then AfterAppend(w, length, size, heard) else p
    case DrainRemove =>
      if CanDrain(p) then p.(pc := p.pc.(stage := Removed), live := p.live - {p.pc.files[p.pc.at]}) else p
    case DrainSync =>
      if CanDrain(p)
      then p.(pc := p.pc.(stage := AtFile, at := p.pc.at + 1), durable := p.live, durablePending := p.livePending)
      else p
    case DrainEnd => Returned(p)
    case Fail => p.(pc := Idle)
    case Crash(json, pending) =>
      p.(pc := Idle, live := json, durable := json, livePending := pending, durablePending := pending)
    case Inspect(pending) => p.(livePending := pending)
    case _ => p
  }

  function NextSession(w: World, a: Act): map<Name, Session> {
    var clock := w.y.s.clock;
    match a
    case AcquireStart(id) => w.sessions[id := Starting(clock)]
    case AcquireDone(id, ch, worker, token) =>
      if id in w.sessions && w.sessions[id].Starting? && ch in w.y.s.channels
      then w.sessions[id := Active(OwnerGrant(token, ch, w.y.s.channels[ch].generation),
                                   w.sessions[id].started + 30 * SECOND, NoRenewal)]
      else w.sessions
    case RenewStart(id) =>
      if id in w.sessions && w.sessions[id].Active?
      then w.sessions[id := w.sessions[id].(renewal := Requested(clock))] else w.sessions
    case RenewCommit(id) =>
      if id in w.sessions && w.sessions[id].Active? && w.sessions[id].renewal.Requested?
      then w.sessions[id := w.sessions[id].(renewal := Confirmed(w.sessions[id].renewal.started))] else w.sessions
    case RenewDone(id) =>
      if id in w.sessions && w.sessions[id].Active? && w.sessions[id].renewal.Confirmed?
      then w.sessions[id := Active(w.sessions[id].grant, w.sessions[id].renewal.started + 30 * SECOND, NoRenewal)]
      else w.sessions
    case EndSession(id) => w.sessions - {id}
    case Crash(json, pending) => map[]
    case _ => w.sessions
  }

  function NextCaptures(w: World, a: Act): set<Capture> {
    if a.Crash? then {}
    else if a.Observe? && a.id in w.sessions && w.sessions[a.id].Active?
    then w.captures + {Capture(w.sessions[a.id].grant, w.sessions[a.id].deadline)}
    else w.captures
  }

  /** The journal transaction a step performs, if any. */
  function OpOf(w: World, a: Act): Option<Op> {
    match a
    case Elsewhere(op) => Some(op)
    case AcquireDone(id, ch, worker, token) => Some(Acquiring(ch, worker, token))
    case RenewCommit(id) => if id in w.sessions && w.sessions[id].Active? then Some(Renewing(w.sessions[id].grant)) else
          None
    case DrainAppend(length, size, heard) =>
      if CanDrain(w.spool) && w.spool.pc.files[w.spool.pc.at] in w.spool.live
      then Some(AppendOp(Current(w.spool), length, size)) else None
    case _ => None
  }

  ghost function NextSys(w: World, a: Act): Sys {
    match OpOf(w, a)
    case Some(op) => Step(w.y, op)
    case None => w.y
  }

  ghost function Do(w: World, a: Act): World {
    World(NextSys(w, a), NextSession(w, a), NextCaptures(w, a), NextSpool(w, a))
  }

  ghost function Run(w: World, acts: seq<Act>): World
    decreases |acts|
  {
    if acts == [] then w else Do(Run(w, acts[..|acts| - 1]), acts[|acts| - 1])
  }

  ghost predicate Legitimate(w: World, acts: seq<Act>, accepted: EventId -> Time)
    decreases |acts|
  {
    acts == [] ||
    (Legitimate(w, acts[..|acts| - 1], accepted) && Can(Run(w, acts[..|acts| - 1]), acts[|acts| - 1], accepted))
  }

  function Fresh(y: Sys): World {
    World(y, map[], {}, Spool(map[], map[], {}, {}, Idle, {}, {}, {}))
  }
}
