/** A batching writer that retries: rows wait in a buffer, are in flight while one flush runs, and come
    back to the front of the buffer if it fails. */
module BatchWriters {
  import opened JournalTypes

  const MAX_DELAY: Time := 30 * SECOND
  const DRAIN_TIME: Time := 60 * SECOND

  /** `flight` are the rows of the running flush. `accepted`, `flushed` and `failures` (failed flushes in
      a row) only record what happened; `attempted` says when the last attempt ended. */
  datatype Writer<T> = Writer(buffer: seq<T>, flight: seq<T>, flushing: bool, closed: bool,
                              retryDelay: Time, nextRetryAt: Time,
                              accepted: seq<T>, flushed: seq<T>, failures: nat, attempted: Time)

  function Empty<T>(): Writer<T> { Writer([], [], false, false, 0, 0, [], [], 0, 0) }

  // ---- Steps ----

  predicate Refuses<T>(w: Writer<T>, maxPending: nat) {
    w.closed || (maxPending > 0 && |w.buffer| + |w.flight| >= maxPending)
  }

  function Enqueued<T>(w: Writer<T>, maxPending: nat, row: T): Writer<T> {
    if Refuses(w, maxPending) then w else w.(buffer := w.buffer + [row], accepted := w.accepted + [row])
  }

  /** Takes the whole buffer, unless an unforced flush comes before the retry time. */
  function Started<T>(w: Writer<T>, force: bool, now: Time): Writer<T> {
    if w.flushing || (!force && now < w.nextRetryAt) || w.buffer == [] then w
    else w.(buffer := [], flight := w.buffer, flushing := true)
  }

  function NextDelay(delay: Time): Time {
    if delay == 0 then SECOND else if 2 * delay > MAX_DELAY then MAX_DELAY else 2 * delay
  }

  function Finished<T>(w: Writer<T>, ok: bool, now: Time): Writer<T> {
    if !w.flushing then w
    else if ok then
      w.(flight := [], flushing := false, retryDelay := 0, nextRetryAt := 0,
         flushed := w.flushed + w.flight, failures := 0, attempted := now)
    else
      var delay := NextDelay(w.retryDelay);
      w.(buffer := w.flight + w.buffer, flight := [], flushing := false,
         retryDelay := delay, nextRetryAt := now + delay,
         failures := w.failures + 1, attempted := now)
  }

  datatype Step<T> = Enqueue(row: T) | StartFlush(force: bool, now: Time) | FinishFlush(ok: bool, now: Time) | Shut

  function Next<T>(w: Writer<T>, maxPending: nat, a: Step<T>): Writer<T> {
    match a
    case Enqueue(row) => Enqueued(w, maxPending, row)
    case StartFlush(force, now) => Started(w, force, now)
    case FinishFlush(ok, now) => Finished(w, ok, now)
    case Shut => w.(closed := true)
  }

  function Run<T>(w: Writer<T>, maxPending: nat, steps: seq<Step<T>>): Writer<T>
    decreases |steps|
  {
    if steps == [] then w else Run(Next(w, maxPending, steps[0]), maxPending, steps[1..])
  }

  // ---- Conservation ----

  function Min(a: int, b: int): int { if a < b then a else b }

  function Pow2(n: nat): (p: nat)
    ensures p > 0
  {
    if n == 0 then 1 else 2 * Pow2(n - 1)
  }

  /** The wait after a number of failures in a row: one second, doubled each time, at most thirty. */
  function Backoff(failures: nat): Time {
    if failures == 0 then 0 else Min(Pow2(failures - 1) * SECOND, MAX_DELAY)
  }

  lemma {:induction false} DelayDoubles(failures: nat)
    ensures NextDelay(Backoff(failures)) == Backoff(failures + 1)
  {
    if failures > 0 { assert Pow2(failures) == 2 * Pow2(failures - 1); }
  }

  ghost predicate Conserves<T>(w: Writer<T>, maxPending: nat) {
    && w.flushed + w.flight + w.buffer == w.accepted && (w.flushing <==> w.flight != [])
    && (maxPending > 0 ==> |w.buffer| + |w.flight| <= maxPending)
    && w.retryDelay == Backoff(w.failures)
    && w.nextRetryAt == (if w.failures > 0 then w.attempted + w.retryDelay else 0)
  }

  lemma StepConserves<T>(w: Writer<T>, maxPending: nat, a: Step<T>)
    requires Conserves(w, maxPending)
    ensures Conserves(Next(w, maxPending, a), maxPending)
    ensures w.accepted <= Next(w, maxPending, a).accepted && w.flushed <= Next(w, maxPending, a).flushed
  {
    match a
    case Enqueue(row) => assert w.flushed + w.flight + (w.buffer + [row]) == w.flushed + w.flight + w.buffer + [row];
    case StartFlush(force, now) =>
      assert w.flight == [] ==> w.flushed + w.flight + w.buffer == w.flushed + w.buffer + [];
    case FinishFlush(ok, now) =>
      DelayDoubles(w.failures);
      assert w.flushed + [] + (w.flight + w.buffer) == w.flushed + w.flight + w.buffer;
      assert w.flushed + w.flight + [] + w.buffer == w.flushed + w.flight + w.buffer;
    case Shut =>
  }

  /** Under any interleaving of enqueues, flush starts, failures and successes, the rows flushed, in
      flight and buffered are the accepted rows in order, and the memory bound holds. */
  lemma {:induction false} RunConserves<T>(w: Writer<T>, maxPending: nat, steps: seq<Step<T>>)
    requires Conserves(w, maxPending)
    ensures Conserves(Run(w, maxPending, steps), maxPending) && w.accepted <= Run(w, maxPending, steps).accepted
    decreases |steps|
  {
    if steps != [] {
      StepConserves(w, maxPending, steps[0]);
      RunConserves(Next(w, maxPending, steps[0]), maxPending, steps[1..]);
    }
  }

  /** In every run an unforced flush of waiting rows starts exactly if no failure precedes it or its
      backoff is over. It then takes all rows. */
  lemma RetriesWait<T>(maxPending: nat, steps: seq<Step<T>>, now: nat)
    ensures var w := Run(Empty<T>(), maxPending, steps);
            var v := Started(w, false, now);
            !w.flushing && w.buffer != [] ==>
              && (v.flushing <==> w.failures == 0 || now >= w.attempted + Backoff(w.failures))
              && (v.flushing ==> v.flight == w.buffer && v.buffer == [])
              && (!v.flushing ==> v == w)
  {
    RunConserves(Empty<T>(), maxPending, steps);
  }

  /** In every run a row is accepted exactly if the writer is open and has room for it, and then waits
      behind all others. */
  lemma AcceptsWhatFits<T>(maxPending: nat, steps: seq<Step<T>>, row: T)
    ensures var w := Run(Empty<T>(), maxPending, steps);
            var v := Enqueued(w, maxPending, row);
            if !w.closed && (maxPending == 0 || |w.flight| + |w.buffer| < maxPending)
            then v.accepted == w.accepted + [row] && v.buffer == w.buffer + [row] && v.flight == w.flight
            else v == w
  {
  }

  /** In every run a forced flush that succeeds writes everything accepted so far, in order, and one that
      fails leaves every row where it was. */
  lemma ForcedFlushWritesAll<T>(maxPending: nat, steps: seq<Step<T>>, now: Time, endedAt: Time)
    ensures var w := Run(Empty<T>(), maxPending, steps);
            !w.flushing && w.buffer != [] ==>
              && Finished(Started(w, true, now), true, endedAt).flushed == w.accepted
              && Finished(Started(w, true, now), true, endedAt).buffer == []
              && Finished(Started(w, true, now), true, endedAt).failures == 0
              && Finished(Started(w, true, now), false, endedAt).flushed == w.flushed
              && Finished(Started(w, true, now), false, endedAt).buffer == w.buffer
              && Finished(Started(w, true, now), false, endedAt).failures == w.failures + 1
  {
    var w := Run(Empty<T>(), maxPending, steps);
    RunConserves(Empty<T>(), maxPending, steps);
    assert w.flight == [] && w.flushed + [] + w.buffer == w.flushed + w.buffer ==> w.flushed + w.buffer == w.accepted;
    assert w.buffer + [] == w.buffer;
  }

  // ---- The writer ----

  /** What happens while a close drains: its own forced flush, or a flush of another caller that starts
      or ends. A flush waits for the one that is running. */
  datatype Happening = OwnFlush(ok: bool, endedAt: Time) | OtherStarts(now: Time) | OtherEnds(ok: bool, endedAt: Time)
  datatype Drain = Drained | TimedOut | Draining

  /** Rows can be left behind by a drained close: another caller's flush took them, and failed later. */
  lemma DrainedMayLeaveRows<T>(row: T)
    ensures var w := Run(Empty<T>(), 0, [Enqueue(row), StartFlush(true, 0), Shut]);
            && w.buffer == [] && w.closed && w.flight == [row]
            && Finished(w, false, 1).buffer == [row] && Finished(w, false, 1).flushed == []
  {
    var steps := [Enqueue(row), StartFlush(true, 0), Shut];
    var w := Empty<T>();
    var v := Next(Next(w, 0, steps[0]), 0, steps[1]);
    var rest, last := steps[1..], steps[2..];
    assert rest[1..] == last && last[1..] == [];
    assert Run(v, 0, last) == Next(v, 0, last[0]);
    assert Run(Next(w, 0, steps[0]), 0, rest) == Run(v, 0, last);
    assert [] + [row] == [row] && [row] + [] == [row];
  }

  class BatchWriter<T> {
    const maxPending: nat
    var buffer: seq<T>
    var inFlight: nat
    var closed: bool
    var retryDelay: Time
    var nextRetryAt: Time
    var flight: seq<T> // the rows a running flush holds
    var flushing: bool // whether the flush lock is held
    ghost var accepted: seq<T>
    ghost var flushed: seq<T>
    ghost var failures: nat
    ghost var attempted: Time

    ghost function View(): Writer<T>
      reads this
    {
      Writer(buffer, flight, flushing, closed, retryDelay, nextRetryAt, accepted, flushed, failures, attempted)
    }

    ghost predicate Valid()
      reads this
    {
      Conserves(View(), maxPending) && inFlight == |flight|
    }

    constructor (limit: nat)
      ensures Valid() && View() == Empty<T>() && maxPending == limit
    {
      maxPending := limit;
      buffer, inFlight, closed, retryDelay, nextRetryAt := [], 0, false, 0, 0;
      flight, flushing, accepted, flushed, failures, attempted := [], false, [], [], 0, 0;
    }

    method Enqueue(row: T)
      requires Valid()
      modifies this
      ensures Valid() && View() == Enqueued(old(View()), maxPending, row)
    {
      StepConserves(View(), maxPending, Step.Enqueue(row));
      if closed { return; }
      if maxPending > 0 && |buffer| + inFlight >= maxPending { return; }
      buffer := buffer + [row];
      accepted := accepted + [row];
    }

    /** The locked first part of a flush. No rows means that there is nothing to do now. */
    method StartFlush(force: bool, now: Time) returns (rows: seq<T>)
      requires Valid() && !flushing
      modifies this
      ensures Valid() && View() == Started(old(View()), force, now) && rows == flight
    {
      StepConserves(View(), maxPending, Step.StartFlush(force, now));
      rows := [];
      if !force && now < nextRetryAt { return; }
      rows := buffer;
      buffer := [];
      inFlight := |rows|;
      flight, flushing := rows, |rows| > 0;
    }

    /** The part of a flush after the rows were written, or not. */
    method FinishFlush(rows: seq<T>, ok: bool, now: Time)
      requires Valid() && flushing && rows == flight
      modifies this
      ensures Valid() && View() == Finished(old(View()), ok, now)
    {
      StepConserves(View(), maxPending, Step.FinishFlush(ok, now));
      if !ok {
        buffer := rows + buffer;
        inFlight := 0;
        var delay := SECOND;
        if retryDelay != 0 {
          delay := 2 * retryDelay;
          if delay > MAX_DELAY { delay := MAX_DELAY; }
        }
        retryDelay, nextRetryAt := delay, now + delay;
        failures := failures + 1;
      } else {
        retryDelay := 0;
        nextRetryAt := 0;
        inFlight := 0;
        flushed, failures := flushed + rows, 0;
      }
      flight, flushing, attempted := [], false, now;
    }

    /** Closing drains the buffer with forced flushes until it is empty or the time is up. When drained,
        all accepted rows but those another caller has in flight were flushed, in order. If no other
        caller starts a flush during the close, these are all rows exactly unless the close found an
        empty buffer and a running flush. */
    method Close(now: Time, happenings: seq<Happening>) returns (drain: Drain)
      requires Valid()
      modifies this
      ensures Valid() && closed && accepted == old(accepted)
      ensures old(closed) ==> View() == old(View())
      ensures !old(closed) ==> (drain == Drained <==> buffer == [])
      ensures !old(closed) && drain == Drained ==> flushed + flight == accepted
      ensures !old(closed) && drain == Drained && NoneStarts(happenings) ==>
                (flushed == accepted <==> old(buffer) != [] || !old(flushing))
      ensures !old(closed) && old(buffer) == [] ==> drain == Drained && (flushed == accepted <==> !old(flushing))
      ensures drain == TimedOut ==> exists i :: 0 <= i < |happenings| && Late(happenings[i], now + DRAIN_TIME)
    {
      drain := Draining;
      if closed { return; }
      closed := true;
      var deadline := now + DRAIN_TIME;
      var i := 0;
      while i < |happenings| && |buffer| > 0 && drain == Draining
        invariant 0 <= i <= |happenings| && Valid() && closed && accepted == old(accepted)
        invariant drain == Draining || (drain == TimedOut && buffer != [])
        invariant drain == TimedOut ==> exists j :: 0 <= j < |happenings| && Late(happenings[j], deadline)
        invariant i == 0 ==> buffer == old(buffer) && flushing == old(flushing)
        invariant i > 0 ==> old(buffer) != [] && (NoneStarts(happenings) && buffer == [] ==> !flushing)
      {
        var late := Happen(happenings[i], deadline);
        drain := if late && |buffer| > 0 then TimedOut else Draining;
        i := i + 1;
      }
      if |buffer| == 0 {
        drain := Drained;
        assert flushed + flight + [] == flushed + flight && |flushed + flight| == |flushed| + |flight|;
      }
    }

    /** Lets one thing happen; a flush that cannot start yet is none. Late is a failed own flush that
        ended after the deadline. */
    method Happen(h: Happening, deadline: Time) returns (late: bool)
      requires Valid() && closed
      modifies this
      ensures Valid() && closed && accepted == old(accepted)
      ensures late ==> Late(h, deadline) && buffer != []
      ensures old(buffer) != [] && buffer == [] && !h.OtherStarts? ==> !flushing
    {
      late := false;
      match h {
        case OwnFlush(ok, endedAt) =>
          if !flushing && |buffer| > 0 {
            var rows := StartFlush(true, endedAt);
            FinishFlush(rows, ok, endedAt);
            late := !ok && endedAt > deadline;
          }
        case OtherStarts(at) =>
          if !flushing { var _ := StartFlush(false, at); }
        case OtherEnds(ok, endedAt) =>
          if flushing { FinishFlush(flight, ok, endedAt); }
      }
    }
  }

  predicate NoneStarts(happenings: seq<Happening>) {
    forall i :: 0 <= i < |happenings| ==> !happenings[i].OtherStarts?
  }

  predicate Late(h: Happening, deadline: Time) { h.OwnFlush? && !h.ok && h.endedAt > deadline }
}
