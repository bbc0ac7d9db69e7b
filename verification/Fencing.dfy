/** Leader leases with fencing tokens: the lease scripts, the instances that hold and renew leases, and
    the discovery cycles that check theirs before every write. */
module Fencing {
  import opened JournalTypes

  // ---- The lease keys and their scripts ----

  datatype Key<T> = Key(value: T, expires: Time)

  /** The leader, fence and counter keys. Only the counter never expires. */
  datatype Keys = Keys(clock: Time, leader: Option<Key<Name>>, fence: Option<Key<nat>>, counter: nat)

  datatype Lease = Lease(held: bool, token: nat)

  predicate Present<T>(k: Option<Key<T>>, clock: Time) { k.Some? && clock < k.value.expires }

  predicate LedBy(s: Keys, id: Name) { Present(s.leader, s.clock) && s.leader.value.value == id }

  function Acquire(s: Keys, id: Name, ttl: nat): (Keys, Lease) {
    if !Present(s.leader, s.clock) then
      var token := s.counter + 1;
      (s.(leader := Some(Key(id, s.clock + ttl)), fence := Some(Key(token, s.clock + ttl)), counter := token),
            Lease(true, token))
    else (s, Lease(false, if Present(s.fence, s.clock) then s.fence.value.value else 0))
  }

  function Renew(s: Keys, id: Name, ttl: nat): (Keys, Lease) {
    if !LedBy(s, id) then (s, Lease(false, 0))
    else
      var t := s.(leader := Some(Key(id, s.clock + ttl)));
      if Present(s.fence, s.clock) then
        (t.(fence := Some(Key(s.fence.value.value, s.clock + ttl))), Lease(true, s.fence.value.value))
      else
        (t.(fence := Some(Key(s.counter + 1, s.clock + ttl)), counter := s.counter + 1), Lease(true, s.counter + 1))
  }

  function Release(s: Keys, id: Name): (Keys, bool) {
    if LedBy(s, id) then (s.(leader := None, fence := None), true) else (s, false)
  }

  predicate Validate(s: Keys, token: nat) { Present(s.fence, s.clock) && s.fence.value.value == token }

  /** The scripts over the stored keys. */
  class LeaseStore {
    var clock: Time
    var leader: Option<Key<Name>>
    var fence: Option<Key<nat>>
    var counter: nat

    function View(): Keys
      reads this
    {
      Keys(clock, leader, fence, counter)
    }

    method TryAcquireLeaderLease(id: Name, ttl: nat) returns (lease: Lease)
      modifies this
      ensures (View(), lease) == Acquire(old(View()), id, ttl)
    {
      var current := if Present(fence, clock) then fence.value.value else 0;
      if !Present(leader, clock) {
        counter := counter + 1;
        leader := Some(Key(id, clock + ttl));
        fence := Some(Key(counter, clock + ttl));
        return Lease(true, counter);
      }
      return Lease(false, current);
    }

    method RenewLeaderLease(id: Name, ttl: nat) returns (lease: Lease)
      modifies this
      ensures (View(), lease) == Renew(old(View()), id, ttl)
    {
      if !(Present(leader, clock) && leader.value.value == id) { return Lease(false, 0); }
      var token;
      if !Present(fence, clock) {
        counter := counter + 1;
        token := counter;
        fence := Some(Key(token, clock + ttl));
      } else {
        token := fence.value.value;
        fence := Some(Key(token, clock + ttl));
      }
      leader := Some(Key(leader.value.value, clock + ttl));
      return Lease(true, token);
    }

    method ReleaseLeaderLease(id: Name) returns (released: bool)
      modifies this
      ensures (View(), released) == Release(old(View()), id)
    {
      released := Present(leader, clock) && leader.value.value == id;
      if released { leader, fence := None, None; }
    }
  }

  // ---- Instances ----

  datatype Config =
    Config(ttl: nat, operationTimeout: nat, expiryGuard: nat, retryInterval: nat, maxRenewErrors: nat)

  const DEFAULTS := Config(15 * SECOND, 2 * SECOND, 2 * SECOND, SECOND, 3)

  function OrDefault(value: nat, default: nat): nat { if value == 0 then default else value }

  /** The configuration an instance works with; 0 stands for every value that is not positive. */
  function Normalized(c: Config): Config {
    var n := Config(OrDefault(c.ttl, DEFAULTS.ttl), OrDefault(c.operationTimeout, DEFAULTS.operationTimeout),
                    OrDefault(c.expiryGuard, DEFAULTS.expiryGuard), OrDefault(c.retryInterval, DEFAULTS.retryInterval),
                    OrDefault(c.maxRenewErrors, DEFAULTS.maxRenewErrors));
    if n.expiryGuard < n.ttl then n
    else n.(expiryGuard := if n.ttl / 5 < SECOND then SECOND else n.ttl / 5)
  }

  datatype Instance = Instance(isLeader: bool, token: nat, validUntil: Time, errors: nat)

  const STANDBY := Instance(false, 0, 0, 0)

  function FencingToken(n: Instance): nat { if n.isLeader then n.token else 0 }

  predicate KeepsLeadership(c: Config, errors: nat, remaining: int) {
    && remaining > c.expiryGuard
    && (errors <= c.maxRenewErrors || remaining > c.expiryGuard + c.retryInterval)
  }

  /** What the instance hears of a request: its answer, or an error although or because it did not run. */
  datatype Reply = Answered(lease: Lease) | Error

  function Acquired(c: Config, n: Instance, reply: Reply, now: Time): Instance {
    if reply.Answered? && reply.lease.held then Instance(true, reply.lease.token, now + c.ttl, 0) else n
  }

  function Renewed(c: Config, n: Instance, reply: Reply, startedAt: Time, now: Time): Instance {
    match reply
    case Error =>
      if KeepsLeadership(c, n.errors + 1, n.validUntil - now) then n.(errors := n.errors + 1) else STANDBY
    case Answered(lease) =>
      if lease.held then n.(token := lease.token, validUntil := startedAt + c.ttl, errors := 0) else STANDBY
  }

  /** The election loop's state and how answers change it. */
  class LeaderElection {
    const config: Config
    var isLeader: bool
    var leaseToken: nat
    var leaseValidUntil: Time
    var consecutiveRenewErrors: nat

    function View(): Instance
      reads this
    {
      Instance(isLeader, leaseToken, leaseValidUntil, consecutiveRenewErrors)
    }

    constructor (c: Config)
      ensures View() == STANDBY && config == Normalized(c)
    {
      config := Normalized(c);
      isLeader, leaseToken, leaseValidUntil, consecutiveRenewErrors := false, 0, 0, 0;
    }

    method TryAcquire(reply: Reply, now: Time)
      modifies this
      ensures View() == Acquired(config, old(View()), reply, now)
    {
      if reply.Error? { return; }
      if reply.lease.held {
        isLeader := true;
        leaseToken := reply.lease.token;
        leaseValidUntil := now + config.ttl;
        consecutiveRenewErrors := 0;
      }
    }

    method TryRenew(reply: Reply, startedAt: Time, now: Time)
      modifies this
      ensures View() == Renewed(config, old(View()), reply, startedAt, now)
    {
      if reply.Error? {
        consecutiveRenewErrors := consecutiveRenewErrors + 1;
        var remaining := leaseValidUntil - now;
        if !ShouldKeepLeadership(remaining) { LoseLeadership(); }
        return;
      }
      if !reply.lease.held {
        LoseLeadership();
        return;
      }
      leaseToken := reply.lease.token;
      leaseValidUntil := startedAt + config.ttl;
      consecutiveRenewErrors := 0;
    }

    function ShouldKeepLeadership(remaining: int): (keep: bool)
      reads this
      ensures keep <==> KeepsLeadership(config, consecutiveRenewErrors, remaining)
    {
      if remaining <= config.expiryGuard then false
      else if consecutiveRenewErrors <= config.maxRenewErrors then true
      else remaining > config.expiryGuard + config.retryInterval
    }

    method LoseLeadership()
      modifies this
      ensures View() == STANDBY
    {
      isLeader := false;
      consecutiveRenewErrors := 0;
      leaseValidUntil := 0;
      leaseToken := 0;
    }
  }

  // ---- Runs ----

  datatype Event = Issued(token: nat, id: Name) | Passed(cycle: Name, token: nat)

  /** `heard` says when each instance heard its last answer, `cycles` the token each running cycle
      captured, and `trace` all that happened, oldest first. */
  datatype System = System(keys: Keys, instances: map<Name, Instance>, heard: map<Name, Time>,
                           cycles: map<Name, nat>, trace: seq<Event>)

  /** A request may fail to run, or run with its answer lost. */
  datatype Fate = Arrives | Vanishes | Unanswered

  datatype Step =
    | Wait(time: nat)
    | TryAcquire(id: Name, fate: Fate, startedAt: Time, heardAt: Time)
    | TryRenew(id: Name, fate: Fate, startedAt: Time, heardAt: Time)
    | Shutdown(id: Name, fate: Fate)
    | Restart(id: Name)
    | StartCycle(id: Name, cycle: Name)
    | RequireLease(cycle: Name)
    | LoseLeaderKey
    | LoseFenceKey

  function InstanceOf(y: System, id: Name): Instance { if id in y.instances then y.instances[id] else STANDBY }

  /** A request is made after the answer to the last one, and its script runs before its own answer. */
  predicate Asks(y: System, id: Name, startedAt: Time, heardAt: Time) {
    startedAt <= y.keys.clock <= heardAt && (id in y.heard ==> y.heard[id] <= startedAt)
  }

  predicate Can(y: System, a: Step) {
    match a
    case TryAcquire(id, fate, startedAt, heardAt) => !InstanceOf(y, id).isLeader && Asks(y, id, startedAt, heardAt)
    case TryRenew(id, fate, startedAt, heardAt) => InstanceOf(y, id).isLeader && Asks(y, id, startedAt, heardAt)
    case Shutdown(id, fate) => InstanceOf(y, id).isLeader
    case StartCycle(id, cycle) => cycle !in y.cycles
    case RequireLease(cycle) => cycle in y.cycles
    case _ => true
  }

  function IssuedBy(before: Keys, after: Keys, id: Name): seq<Event> {
    if after.counter > before.counter then [Issued(after.counter, id)] else []
  }

  function ReplyOf(fate: Fate, lease: Lease): Reply { if fate == Arrives then Answered(lease) else Error }

  function Next(c: Config, y: System, a: Step): System
    requires Can(y, a)
  {
    match a
    case Wait(time) => y.(keys := y.keys.(clock := y.keys.clock + time))
    case TryAcquire(id, fate, startedAt, heardAt) =>
      var (keys, lease) := if fate == Vanishes then (y.keys, Lease(false, 0)) else Acquire(y.keys, id, c.ttl);
      y.(keys := keys, heard := y.heard[id := heardAt], trace := y.trace + IssuedBy(y.keys, keys, id),
         instances := y.instances[id := Acquired(c, InstanceOf(y, id), ReplyOf(fate, lease), heardAt)])
    case TryRenew(id, fate, startedAt, heardAt) =>
      var (keys, lease) := if fate == Vanishes then (y.keys, Lease(false, 0)) else Renew(y.keys, id, c.ttl);
      y.(keys := keys, heard := y.heard[id := heardAt], trace := y.trace + IssuedBy(y.keys, keys, id),
         instances := y.instances[id := Renewed(c, InstanceOf(y, id), ReplyOf(fate, lease), startedAt, heardAt)])
    case Shutdown(id, fate) =>
      y.(keys := if fate == Vanishes then y.keys else Release(y.keys, id).0,
         instances := y.instances[id := STANDBY], heard := y.heard - {id})
    case Restart(id) => y.(instances := y.instances[id := STANDBY], heard := y.heard - {id})
    case StartCycle(id, cycle) =>
      var token := FencingToken(InstanceOf(y, id));
      if token == 0 then y else y.(cycles := y.cycles[cycle := token])
    case RequireLease(cycle) =>
      if Validate(y.keys, y.cycles[cycle]) then y.(trace := y.trace + [Passed(cycle, y.cycles[cycle])])
      else y.(cycles := y.cycles - {cycle})
    case LoseLeaderKey => y.(keys := y.keys.(leader := None))
    case LoseFenceKey => y.(keys := y.keys.(fence := None))
  }

  ghost predicate Legal(c: Config, y: System, steps: seq<Step>)
    decreases |steps|
  {
    steps == [] || (Can(y, steps[0]) && Legal(c, Next(c, y, steps[0]), steps[1..]))
  }

  ghost function Run(c: Config, y: System, steps: seq<Step>): System
    requires Legal(c, y, steps)
    decreases |steps|
  {
    if steps == [] then y else Run(c, Next(c, y, steps[0]), steps[1..])
  }

  function Start(clock: Time): System { System(Keys(clock, None, None, 0), map[], map[], map[], []) }

  // ---- Safety ----

  /** The last token issued in a trace. */
  function LastIssued(trace: seq<Event>): nat
    decreases |trace|
  {
    if trace == [] then 0
    else if trace[|trace| - 1].Issued? then trace[|trace| - 1].token
    else LastIssued(trace[..|trace| - 1])
  }

  /** Each token issued is the next one, and each passed check held the last token issued before it. */
  predicate Fenced(trace: seq<Event>) {
    forall i :: 0 <= i < |trace| ==>
      if trace[i].Issued? then trace[i].token == LastIssued(trace[..i]) + 1
      else trace[i].token == LastIssued(trace[..i]) && trace[i].token > 0
  }

  /** The counter is the last token issued, a fence key holds it, and nobody holds a larger one. */
  ghost predicate Inv(y: System) {
    && Fenced(y.trace) && y.keys.counter == LastIssued(y.trace)
    && (y.keys.fence.Some? ==> y.keys.fence.value.value == y.keys.counter > 0)
    && (forall id :: id in y.instances ==> y.instances[id].token <= y.keys.counter)
    && (forall cycle :: cycle in y.cycles ==> 0 < y.cycles[cycle] <= y.keys.counter)
  }

  lemma TraceGrows(trace: seq<Event>, e: Event)
    requires Fenced(trace)
    requires e.token == (if e.Issued? then LastIssued(trace) + 1 else LastIssued(trace)) > 0
    ensures Fenced(trace + [e]) && LastIssued(trace + [e]) == e.token
  {
    var more := trace + [e];
    assert more[..|trace|] == trace;
    forall i | 0 <= i < |trace| ensures more[..i] == trace[..i] && more[i] == trace[i] { }
  }

  /** New keys from a script, and an instance that learned at most the current token, keep the invariant. */
  lemma ScriptKeepsInv(y: System, keys: Keys, id: Name, n: Instance, heard: map<Name, Time>)
    requires Inv(y) && y.keys.counter <= keys.counter <= y.keys.counter + 1 && n.token <= keys.counter
    requires keys.fence.Some? ==> keys.fence.value.value == keys.counter > 0
    ensures Inv(y.(keys := keys, heard := heard, trace := y.trace + IssuedBy(y.keys, keys, id),
                   instances := y.instances[id := n]))
  {
    var trace := y.trace + IssuedBy(y.keys, keys, id);
    if keys.counter > y.keys.counter {
      TraceGrows(y.trace, Issued(keys.counter, id));
    } else {
      assert trace == y.trace;
    }
    assert Fenced(trace) && keys.counter == LastIssued(trace);
  }

  lemma AcquireKeepsInv(c: Config, y: System, id: Name, fate: Fate, startedAt: Time, heardAt: Time)
    requires Inv(y) && Can(y, TryAcquire(id, fate, startedAt, heardAt))
    ensures Inv(Next(c, y, TryAcquire(id, fate, startedAt, heardAt)))
  {
    var (keys, lease) := if fate == Vanishes then (y.keys, Lease(false, 0)) else Acquire(y.keys, id, c.ttl);
    ScriptKeepsInv(y, keys, id, Acquired(c, InstanceOf(y, id), ReplyOf(fate, lease), heardAt), y.heard[id := heardAt]);
  }

  lemma RenewKeepsInv(c: Config, y: System, id: Name, fate: Fate, startedAt: Time, heardAt: Time)
    requires Inv(y) && Can(y, TryRenew(id, fate, startedAt, heardAt))
    ensures Inv(Next(c, y, TryRenew(id, fate, startedAt, heardAt)))
  {
    var (keys, lease) := if fate == Vanishes then (y.keys, Lease(false, 0)) else Renew(y.keys, id, c.ttl);
    ScriptKeepsInv(y, keys, id, Renewed(c, InstanceOf(y, id), ReplyOf(fate, lease), startedAt, heardAt),
                   y.heard[id := heardAt]);
  }

  lemma StandbyKeepsInv(y: System, keys: Keys, id: Name)
    requires Inv(y) && keys.counter == y.keys.counter && (keys.fence.Some? ==> keys.fence == y.keys.fence)
    ensures Inv(y.(keys := keys))
    ensures Inv(y.(keys := keys, instances := y.instances[id := STANDBY], heard := y.heard - {id}))
  {
  }

  lemma CycleKeepsInv(c: Config, y: System, a: Step)
    requires Inv(y) && Can(y, a) && (a.StartCycle? || a.RequireLease?)
    ensures Inv(Next(c, y, a))
  {
    match a
    case RequireLease(cycle) =>
      if Validate(y.keys, y.cycles[cycle]) { TraceGrows(y.trace, Passed(cycle, y.cycles[cycle])); }
    case _ =>
  }

  lemma StepKeepsInv(c: Config, y: System, a: Step)
    requires Inv(y) && Can(y, a)
    ensures Inv(Next(c, y, a))
  {
    match a
    case TryAcquire(id, fate, startedAt, heardAt) => AcquireKeepsInv(c, y, id, fate, startedAt, heardAt);
    case TryRenew(id, fate, startedAt, heardAt) => RenewKeepsInv(c, y, id, fate, startedAt, heardAt);
    case Shutdown(id, fate) => StandbyKeepsInv(y, Next(c, y, a).keys, id);
    case Restart(id) => StandbyKeepsInv(y, y.keys, id);
    case Wait(_) => StandbyKeepsInv(y, Next(c, y, a).keys, Name(""));
    case LoseLeaderKey => StandbyKeepsInv(y, Next(c, y, a).keys, Name(""));
    case LoseFenceKey => StandbyKeepsInv(y, Next(c, y, a).keys, Name(""));
    case StartCycle(_, _) => CycleKeepsInv(c, y, a);
    case RequireLease(_) => CycleKeepsInv(c, y, a);
  }

  lemma {:induction false} RunKeepsInv(c: Config, y: System, steps: seq<Step>)
    requires Inv(y) && Legal(c, y, steps)
    ensures Inv(Run(c, y, steps))
    decreases |steps|
  {
    if steps != [] {
      StepKeepsInv(c, y, steps[0]);
      RunKeepsInv(c, Next(c, y, steps[0]), steps[1..]);
    }
  }

  lemma {:induction false} IssuedSoFar(trace: seq<Event>, i: nat, j: nat)
    requires Fenced(trace) && i < j <= |trace| && trace[i].Issued?
    ensures trace[i].token <= LastIssued(trace[..j])
    decreases j
  {
    var some := trace[..j];
    assert some[j - 1] == trace[j - 1] && some[..j - 1] == trace[..j - 1];
    if i < j - 1 { IssuedSoFar(trace, i, j - 1); }
  }

  /** Over every run the tokens issued strictly increase, whoever gets them. */
  lemma TokensIncrease(c: Config, clock: Time, steps: seq<Step>, i: nat, j: nat)
    requires Legal(c, Start(clock), steps)
    requires i < j < |Run(c, Start(clock), steps).trace|
    requires Run(c, Start(clock), steps).trace[i].Issued? && Run(c, Start(clock), steps).trace[j].Issued?
    ensures Run(c, Start(clock), steps).trace[i].token < Run(c, Start(clock), steps).trace[j].token
  {
    RunKeepsInv(c, Start(clock), steps);
    IssuedSoFar(Run(c, Start(clock), steps).trace, i, j);
  }

  /** No cycle passes a lease check after a newer token than its own was issued, to anyone, its own
      instance included; and a token it passes with was really issued. */
  lemma StaleCyclesAreFenced(c: Config, clock: Time, steps: seq<Step>, j: nat)
    requires Legal(c, Start(clock), steps) && j < |Run(c, Start(clock), steps).trace|
    requires Run(c, Start(clock), steps).trace[j].Passed?
    ensures var trace := Run(c, Start(clock), steps).trace;
            && (forall i :: 0 <= i < j && trace[i].Issued? ==> trace[i].token <= trace[j].token)
            && exists i :: 0 <= i < j && trace[i].Issued? && trace[i].token == trace[j].token
  {
    var trace := Run(c, Start(clock), steps).trace;
    RunKeepsInv(c, Start(clock), steps);
    forall i | 0 <= i < j && trace[i].Issued? ensures trace[i].token <= trace[j].token { IssuedSoFar(trace, i, j); }
    var i := WasIssued(trace, j);
  }

  lemma {:induction false} WasIssued(trace: seq<Event>, j: nat) returns (i: nat)
    requires j <= |trace| && LastIssued(trace[..j]) > 0
    ensures i < j && trace[i].Issued? && trace[i].token == LastIssued(trace[..j])
    decreases j
  {
    var some := trace[..j];
    if some[j - 1].Issued? {
      i := j - 1;
    } else {
      assert some[..j - 1] == trace[..j - 1];
      i := WasIssued(trace, j - 1);
    }
  }

  /** A present fence key always holds the last token issued. */
  lemma FenceIsLast(c: Config, clock: Time, steps: seq<Step>)
    requires Legal(c, Start(clock), steps)
    ensures var y := Run(c, Start(clock), steps);
            y.keys.fence.Some? ==> y.keys.fence.value.value == LastIssued(y.trace)
  {
    RunKeepsInv(c, Start(clock), steps);
  }

  /** In every run a token is valid exactly while a fence key is present and no newer one was issued. */
  lemma ValidTokenIsLast(c: Config, clock: Time, steps: seq<Step>, token: nat)
    requires Legal(c, Start(clock), steps)
    ensures var y := Run(c, Start(clock), steps);
            Validate(y.keys, token) <==> Present(y.keys.fence, y.keys.clock) && token == LastIssued(y.trace)
  {
    RunKeepsInv(c, Start(clock), steps);
  }

  /** The lease is free to take exactly while nobody holds it, for its holder to renew until it expires,
      and free again at once after its holder gave it back. */
  lemma LeaseChangesHands(s: Keys, id: Name, other: Name, ttl: nat)
    requires ttl > 0
    ensures Acquire(s, id, ttl).1.held <==> !Present(s.leader, s.clock)
    ensures Acquire(s, id, ttl).1.held ==>
              LedBy(Acquire(s, id, ttl).0, id) && Validate(Acquire(s, id, ttl).0, Acquire(s, id, ttl).1.token)
    ensures Renew(s, id, ttl).1.held <==> LedBy(s, id)
    ensures LedBy(s, id) ==> Validate(Renew(s, id, ttl).0, Renew(s, id, ttl).1.token)
    ensures LedBy(s, id) ==> Release(s, id).1 && Acquire(Release(s, id).0, other, ttl).1.held
    ensures !LedBy(s, id) ==> Release(s, id) == (s, false)
  {
  }

  /** Once renewals have failed more often than allowed, an instance goes on only if the next attempt, a
      retry interval later, still comes before its guard. */
  lemma RetryFitsBeforeGuard(c: Config, n: Instance, startedAt: Time, now: Time)
    requires n.isLeader && n.errors >= c.maxRenewErrors && Renewed(c, n, Error, startedAt, now).isLeader
    ensures now + c.retryInterval < n.validUntil - c.expiryGuard
    ensures Renewed(c, n, Error, startedAt, now).errors == n.errors + 1
  {
  }

  /** A held lease is trusted for its whole length: from the answer after an acquisition, from the request
      after a renewal. A refusal ends leadership at once, and without an answer nothing is acquired. */
  lemma TrustsOneLease(c: Config, n: Instance, lease: Lease, startedAt: Time, now: Time)
    ensures lease.held ==>
              && Acquired(c, n, Answered(lease), now) == Instance(true, lease.token, now + c.ttl, 0)
              && Renewed(c, n, Answered(lease), startedAt, now).token == lease.token
              && Renewed(c, n, Answered(lease), startedAt, now).validUntil == startedAt + c.ttl
              && Renewed(c, n, Answered(lease), startedAt, now).errors == 0
              && Renewed(c, n, Answered(lease), startedAt, now).isLeader == n.isLeader
    ensures !lease.held ==>
              && Acquired(c, n, Answered(lease), now) == n
              && !Renewed(c, n, Answered(lease), startedAt, now).isLeader
    ensures Acquired(c, n, Error, now) == n
  {
  }

  // ---- Local deadlines ----

  /** Until the deadline the instance leads, its token is the last one issued, and both keys last. */
  ghost predicate Backed(c: Config, y: System, id: Name, token: nat, deadline: Time) {
    && deadline <= y.keys.clock + c.ttl
    && (y.keys.clock < deadline ==>
          && y.keys.leader.Some? && y.keys.leader.value.value == id && y.keys.leader.value.expires >= deadline
          && y.keys.fence.Some? && y.keys.fence.value.value == token == y.keys.counter
          && y.keys.fence.value.expires >= deadline)
  }

  /** Steps that neither lose a key nor shut the instance down. */
  predicate Harmless(a: Step, id: Name) {
    !a.LoseLeaderKey? && !a.LoseFenceKey? && !(a.Shutdown? && a.id == id)
  }

  /** A renewal's answer gives a deadline that both keys outlast. */
  lemma RenewalIsBacked(c: Config, y: System, id: Name, startedAt: Time, heardAt: Time)
    requires Inv(y) && Can(y, TryRenew(id, Arrives, startedAt, heardAt)) && Renew(y.keys, id, c.ttl).1.held
    ensures var z := Next(c, y, TryRenew(id, Arrives, startedAt, heardAt));
            Backed(c, z, id, z.instances[id].token, z.instances[id].validUntil)
  {
  }

  /** An acquisition's answer gives a deadline that both keys outlast but for the time the answer took. */
  lemma AcquisitionIsBacked(c: Config, y: System, id: Name, startedAt: Time, heardAt: Time)
    requires Inv(y) && Can(y, TryAcquire(id, Arrives, startedAt, heardAt)) && Acquire(y.keys, id, c.ttl).1.held
    ensures var z := Next(c, y, TryAcquire(id, Arrives, startedAt, heardAt));
            Backed(c, z, id, z.instances[id].token, z.instances[id].validUntil - (heardAt - y.keys.clock))
  {
  }

  lemma StepKeepsBacked(c: Config, y: System, a: Step, id: Name, token: nat, deadline: Time)
    requires Can(y, a) && Harmless(a, id) && Backed(c, y, id, token, deadline)
    ensures Backed(c, Next(c, y, a), id, token, deadline)
  {
    match a
    case TryAcquire(other, fate, startedAt, heardAt) =>
      var keys := if fate == Vanishes then y.keys else Acquire(y.keys, other, c.ttl).0;
      assert Next(c, y, a).keys == keys;
    case TryRenew(other, fate, startedAt, heardAt) =>
      var keys := if fate == Vanishes then y.keys else Renew(y.keys, other, c.ttl).0;
      assert Next(c, y, a).keys == keys;
    case _ =>
  }

  lemma {:induction false} RunKeepsBacked(c: Config, y: System, steps: seq<Step>, id: Name, token: nat, deadline: Time)
    requires Legal(c, y, steps) && Backed(c, y, id, token, deadline)
    requires forall i :: 0 <= i < |steps| ==> Harmless(steps[i], id)
    ensures Backed(c, Run(c, y, steps), id, token, deadline)
    decreases |steps|
  {
    if steps != [] {
      assert Harmless(steps[0], id);
      StepKeepsBacked(c, y, steps[0], id, token, deadline);
      RunKeepsBacked(c, Next(c, y, steps[0]), steps[1..], id, token, deadline);
    }
  }

  /** In every run, from a renewal on and until the local deadline it set, the instance holds the lease
      and no newer token is issued, unless a key is lost or the instance itself shuts down. */
  lemma RenewalHolds(c: Config, clock: Time, before: seq<Step>, id: Name, startedAt: Time, heardAt: Time,
                     steps: seq<Step>)
    requires Legal(c, Start(clock), before)
    requires var y := Run(c, Start(clock), before);
             && Can(y, TryRenew(id, Arrives, startedAt, heardAt)) && Renew(y.keys, id, c.ttl).1.held
             && Legal(c, Next(c, y, TryRenew(id, Arrives, startedAt, heardAt)), steps)
    requires forall i :: 0 <= i < |steps| ==> Harmless(steps[i], id)
    ensures var y := Next(c, Run(c, Start(clock), before), TryRenew(id, Arrives, startedAt, heardAt));
            var z := Run(c, y, steps);
            z.keys.clock < y.instances[id].validUntil ==>
              LedBy(z.keys, id) && Validate(z.keys, y.instances[id].token) && z.keys.counter == y.instances[id].token
  {
    var y := Run(c, Start(clock), before);
    RunKeepsInv(c, Start(clock), before);
    RenewalIsBacked(c, y, id, startedAt, heardAt);
    var z := Next(c, y, TryRenew(id, Arrives, startedAt, heardAt));
    RunKeepsBacked(c, z, steps, id, z.instances[id].token, z.instances[id].validUntil);
  }

  // ---- The expiry guard ----

  /** Steps that lose no key and hear no acquisition later than the operation timeout. */
  predicate Calm(c: Config, a: Step) {
    && !a.LoseLeaderKey? && !a.LoseFenceKey?
    && (a.TryAcquire? && a.fate == Arrives ==> a.heardAt <= a.startedAt + c.operationTimeout)
  }

  ghost predicate CalmRun(c: Config, clock: Time, steps: seq<Step>) {
    Legal(c, Start(clock), steps) && forall i :: 0 <= i < |steps| ==> Calm(c, steps[i])
  }

  /** Every leader's deadline is backed but for the guard. */
  ghost predicate Guarded(c: Config, y: System) {
    forall id :: id in y.instances && y.instances[id].isLeader ==>
      Backed(c, y, id, y.instances[id].token, y.instances[id].validUntil - c.expiryGuard)
  }

  lemma AskingKeepsGuarded(c: Config, y: System, a: Step)
    requires Inv(y) && Guarded(c, y) && Can(y, a) && Calm(c, a) && (a.TryAcquire? || a.TryRenew?)
    requires c.operationTimeout <= c.expiryGuard
    ensures var z := Next(c, y, a);
            z.instances[a.id].isLeader ==>
              Backed(c, z, a.id, z.instances[a.id].token, z.instances[a.id].validUntil - c.expiryGuard)
  {
    match a
    case TryAcquire(id, fate, startedAt, heardAt) =>
      if fate == Arrives && Acquire(y.keys, id, c.ttl).1.held { AcquisitionIsBacked(c, y, id, startedAt, heardAt); }
    case TryRenew(id, fate, startedAt, heardAt) =>
      if fate != Arrives {
        var n := y.instances[id];
        StepKeepsBacked(c, y, a, id, n.token, n.validUntil - c.expiryGuard);
      } else if Renew(y.keys, id, c.ttl).1.held {
        RenewalIsBacked(c, y, id, startedAt, heardAt);
      }
  }

  /** Whose state a step changes. */
  predicate Moves(a: Step, id: Name) { (a.TryAcquire? || a.TryRenew? || a.Shutdown? || a.Restart?) && a.id == id }

  lemma StepKeepsGuarded(c: Config, y: System, a: Step)
    requires Inv(y) && Guarded(c, y) && Can(y, a) && Calm(c, a) && c.operationTimeout <= c.expiryGuard
    ensures Guarded(c, Next(c, y, a))
  {
    var z := Next(c, y, a);
    forall id | id in z.instances && z.instances[id].isLeader
      ensures Backed(c, z, id, z.instances[id].token, z.instances[id].validUntil - c.expiryGuard)
    {
      if Moves(a, id) {
        AskingKeepsGuarded(c, y, a);
      } else {
        StepKeepsBacked(c, y, a, id, y.instances[id].token, y.instances[id].validUntil - c.expiryGuard);
      }
    }
  }

  lemma {:induction false} RunKeepsGuarded(c: Config, y: System, steps: seq<Step>)
    requires Inv(y) && Guarded(c, y) && Legal(c, y, steps) && c.operationTimeout <= c.expiryGuard
    requires forall i :: 0 <= i < |steps| ==> Calm(c, steps[i])
    ensures Guarded(c, Run(c, y, steps))
    decreases |steps|
  {
    if steps != [] {
      assert Calm(c, steps[0]);
      StepKeepsInv(c, y, steps[0]);
      StepKeepsGuarded(c, y, steps[0]);
      RunKeepsGuarded(c, Next(c, y, steps[0]), steps[1..]);
    }
  }

  /** The instance holds the lease, and its token is valid, at some time if nobody changes the keys until then. */
  predicate HeldAt(y: System, id: Name, at: Time) {
    LedBy(y.keys.(clock := at), id) && Validate(y.keys.(clock := at), InstanceOf(y, id).token)
  }

  /** The instance leads, as far as it knows, and has more than the guard left. */
  predicate LeadsInTime(c: Config, y: System, id: Name) {
    InstanceOf(y, id).isLeader && y.keys.clock + c.expiryGuard < InstanceOf(y, id).validUntil
  }

  /** If answers come within the guard, then in every run without lost keys no two instances at once
      lead with more than the guard left, and the one that does holds the lease. */
  lemma OneLeaderWithinGuard(c: Config, clock: Time, steps: seq<Step>, a: Name, b: Name)
    requires CalmRun(c, clock, steps) && c.operationTimeout <= c.expiryGuard
    ensures var y := Run(c, Start(clock), steps);
            && (LeadsInTime(c, y, a) ==> HeldAt(y, a, y.keys.clock))
            && (LeadsInTime(c, y, a) && LeadsInTime(c, y, b) ==> a == b)
  {
    RunKeepsGuarded(c, Start(clock), steps);
  }

  /** If a failed renewal ends a run and the instance goes on leading, it still holds the lease. */
  ghost predicate KeptIsHeld(c: Config, clock: Time, steps: seq<Step>, a: Step) {
    CalmRun(c, clock, steps) && a.TryRenew? && a.fate != Arrives && Can(Run(c, Start(clock), steps), a) ==>
      var z := Next(c, Run(c, Start(clock), steps), a);
      z.instances[a.id].isLeader ==> HeldAt(z, a.id, a.heardAt)
  }

  ghost predicate GuardSuffices(c: Config) {
    forall clock: Time, steps: seq<Step>, a: Step :: KeptIsHeld(c, clock, steps, a)
  }

  lemma AnswersWithinGuard(c: Config, clock: Time, steps: seq<Step>, a: Step)
    requires c.operationTimeout <= c.expiryGuard
    ensures KeptIsHeld(c, clock, steps, a)
  {
    if CalmRun(c, clock, steps) && a.TryRenew? && a.fate != Arrives && Can(Run(c, Start(clock), steps), a) {
      var y := Run(c, Start(clock), steps);
      RunKeepsInv(c, Start(clock), steps);
      RunKeepsGuarded(c, Start(clock), steps);
      StepKeepsBacked(c, y, a, a.id, y.instances[a.id].token, y.instances[a.id].validUntil - c.expiryGuard);
    }
  }

  /** Every leader's deadline is no more than a lease away from what it heard last. */
  ghost predicate Recent(c: Config, y: System) {
    forall id :: id in y.instances && y.instances[id].isLeader ==>
      id in y.heard && y.instances[id].validUntil <= y.heard[id] + c.ttl
  }

  lemma {:induction false} RunKeepsRecent(c: Config, y: System, steps: seq<Step>)
    requires Recent(c, y) && Legal(c, y, steps)
    ensures Recent(c, Run(c, y, steps))
    decreases |steps|
  {
    if steps != [] { RunKeepsRecent(c, Next(c, y, steps[0]), steps[1..]); }
  }

  /** With a guard as long as the lease no leader outlives a failed renewal. */
  lemma GuardBeyondLease(c: Config, clock: Time, steps: seq<Step>, a: Step)
    requires c.ttl <= c.expiryGuard
    ensures KeptIsHeld(c, clock, steps, a)
  {
    if CalmRun(c, clock, steps) { RunKeepsRecent(c, Start(clock), steps); }
  }

  /** An acquisition heard later than the guard: at the first failed renewal after the keys have expired
      the instance goes on leading, without a lease. */
  lemma LateAnswerOutlastsLease(c: Config, id: Name) returns (steps: seq<Step>, a: Step)
    requires c.operationTimeout > c.expiryGuard && c.ttl > c.expiryGuard && c.maxRenewErrors > 0
    ensures CalmRun(c, 0, steps) && a.TryRenew? && a.id == id && a.fate == Vanishes
    ensures Can(Run(c, Start(0), steps), a)
    ensures var z := Next(c, Run(c, Start(0), steps), a);
            && z.instances[id].isLeader && !Present(z.keys.leader, z.keys.clock) && !Present(z.keys.fence, z.keys.clock)
            && a.heardAt == z.keys.clock && !HeldAt(z, id, a.heardAt)
  {
    var late := c.operationTimeout;
    var end := if late > c.ttl then late else c.ttl;
    var acquire, wait := TryAcquire(id, Arrives, 0, late), Wait(end);
    steps, a := [acquire, wait], TryRenew(id, Vanishes, end, end);
    var y := Next(c, Start(0), acquire);
    var rest := steps[1..];
    assert rest == [wait] && rest[1..] == [];
    assert Legal(c, Next(c, y, wait), rest[1..]) && Run(c, Next(c, y, wait), rest[1..]) == Next(c, y, wait);
    assert Legal(c, y, rest) && Run(c, y, rest) == Next(c, y, wait);
  }

  /** The guard suffices exactly if no answer can take longer than it, or it is as long as the lease. */
  lemma GuardIsExact(c: Config)
    requires c.maxRenewErrors > 0
    ensures GuardSuffices(c) <==> c.operationTimeout <= c.expiryGuard || c.ttl <= c.expiryGuard
  {
    if c.operationTimeout <= c.expiryGuard {
      forall clock, steps, a ensures KeptIsHeld(c, clock, steps, a) { AnswersWithinGuard(c, clock, steps, a); }
    } else if c.ttl <= c.expiryGuard {
      forall clock, steps, a ensures KeptIsHeld(c, clock, steps, a) { GuardBeyondLease(c, clock, steps, a); }
    } else {
      var steps, a := LateAnswerOutlastsLease(c, Name(""));
      assert !KeptIsHeld(c, 0, steps, a);
    }
  }

  /** Of any configuration, once normalized; the defaults lie on the safe side of the bound. A guard as
      long as the lease is left only to leases of at most a second. */
  lemma GuardOfElection(c: Config)
    ensures var n := Normalized(c);
            && (GuardSuffices(n) <==> n.operationTimeout <= n.expiryGuard || n.ttl <= n.expiryGuard)
            && (n.ttl <= n.expiryGuard ==> n.ttl <= SECOND)
    ensures GuardSuffices(DEFAULTS)
  {
    GuardIsExact(Normalized(c));
    GuardIsExact(DEFAULTS);
  }
}
