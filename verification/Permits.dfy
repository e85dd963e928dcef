/**
  Any number of logical calls going through the attempt loop of the fetcher: the
  per-origin registry, the per-origin permit, the global permit, the two in-flight
  gauges, the retry sleep, and cancellation wherever a call awaits. Each access to
  shared memory is a step of its own.
*/
module Permits {
  import opened Wrappers
  import Retry

  datatype Origin = Origin(scheme: string, host: string, port: nat)

  /** `registryCapacity` is `PER_HOST_REGISTRY_CAPACITY`, 1024 as deployed. */
  datatype Config = Config(fetcher: Retry.FetcherConfig, registryCapacity: nat)
  {
    predicate Valid() { fetcher.Valid() && registryCapacity >= 1 }
    function GlobalLimit(): nat { fetcher.concurrencyLimit }
    function HostLimit(): nat { if fetcher.perHostLimit.Some? then fetcher.perHostLimit.value else 0 }
  }

  /** What a call does once it has given its permits back. */
  datatype After = ToSleep | ToEnd

  datatype Pc =
    | Begin
    | Lookup
    | CheckLength
    | ClaimEntry
    | WaitHost
    | RaiseOriginGauge
    | WaitGlobal
    | RaiseGauge
    | Running
    | LowerGauge(after: After)
    | DropGlobal(after: After)
    | LowerOriginGauge(after: After)
    | DropHost(after: After)
    | Sleeping
    | Ended
  {
    predicate InRegistry() { Begin? || Lookup? || CheckLength? || ClaimEntry? }
    predicate Taking() { WaitHost? || RaiseOriginGauge? || WaitGlobal? || RaiseGauge? || Running? }
  }

  /** `semaphore` indexes the semaphore this attempt goes through; `None` when ungated. */
  datatype Call = Call(origin: Origin, pc: Pc, attempt: nat, semaphore: Option<nat>)
  {
    predicate HoldsHost() { semaphore.Some? && !pc.WaitHost? }
    predicate HoldsGuard() { HoldsHost() && !pc.RaiseOriginGauge? && !pc.DropHost? }
    predicate HoldsGlobal() { pc.RaiseGauge? || pc.Running? || pc.LowerGauge? || pc.DropGlobal? }
    predicate InGauge() { pc.Running? || pc.LowerGauge? }
    predicate Registering() { pc.ClaimEntry? }
    predicate Cancellable() { pc.Begin? || pc.WaitHost? || pc.WaitGlobal? || pc.Running? || pc.Sleeping? }
  }

  /**
    `registry` maps an origin to its semaphore; `hostFree[id]` and `globalFree` are free
    permits. `leaked` counts attempts dropped while the in-flight gauge counted them.
  */
  datatype State = State(
    calls: seq<Call>,
    registry: map<Origin, nat>,
    hostFree: seq<nat>,
    globalFree: nat,
    gauge: int,
    originGauge: map<Origin, int>,
    leaked: nat)

  function OriginGauge(s: State, o: Origin): int { if o in s.originGauge then s.originGauge[o] else 0 }

  type Reply = Retry.AttemptResult<()>

  /** `reply` is the upstream's answer, used by the step that ends an attempt. */
  datatype Action = Advance(call: nat, reply: Reply) | Cancel(call: nat)

  predicate Init(c: Config, s: State) {
    && (forall i | 0 <= i < |s.calls| ::
          s.calls[i].pc == Begin && s.calls[i].attempt == 0 && s.calls[i].semaphore == None)
    && s.registry == map[] && s.hostFree == [] && s.globalFree == c.GlobalLimit()
    && s.gauge == 0 && s.originGauge == map[] && s.leaked == 0
  }

  predicate Enabled(s: State, a: Action) {
    && a.call < |s.calls|
    && var call := s.calls[a.call];
       match a
       case Cancel(_) => call.Cancellable()
       case Advance(_, _) =>
         && !call.pc.Ended?
         && (call.pc.WaitHost? ==> call.semaphore.Some? && call.semaphore.value < |s.hostFree|
                                   && s.hostFree[call.semaphore.value] > 0)
         && (call.pc.WaitGlobal? ==> s.globalFree > 0)
         && (call.HoldsHost() ==> call.semaphore.value < |s.hostFree|)
  }

  function Put(s: State, i: nat, call: Call): State
    requires i < |s.calls|
  {
    s.(calls := s.calls[i := call])
  }

  function Goto(s: State, i: nat, pc: Pc): State
    requires i < |s.calls|
  {
    Put(s, i, s.calls[i].(pc := pc))
  }

  function AfterAttempt(c: Config, call: Call, reply: Reply): (after: After)
    ensures after.ToEnd? <==> Retry.Stops(c.fetcher, reply, call.attempt)
  {
    match reply
    case AttemptOk(_) => ToEnd
    case AttemptErr(error, _) =>
      if call.attempt <= Retry.RetryLimit(error) && call.attempt < c.fetcher.maxAttempts then ToSleep else ToEnd
  }

  /** Dropping the future: locals go in reverse order, and no gauge is lowered on the way. */
  function NextOnCancel(s: State, i: nat): State
    requires i < |s.calls|
  {
    var call := s.calls[i];
    match call.pc
    case Running => Goto(s, i, DropGlobal(ToEnd)).(leaked := s.leaked + 1)
    case WaitGlobal => Goto(s, i, LowerOriginGauge(ToEnd))
    case _ => Put(s, i, call.(pc := Ended, semaphore := None))
  }

  /** The top of the loop body and `per_host_semaphore`. */
  function NextInRegistry(c: Config, s: State, i: nat): State
    requires i < |s.calls|
  {
    var call := s.calls[i];
    match call.pc
    case Begin => Put(s, i, call.(pc := Lookup, attempt := call.attempt + 1))
    case Lookup =>
      if c.fetcher.perHostLimit.None? then Goto(s, i, WaitGlobal)
      else if call.origin in s.registry
      then Put(s, i, call.(pc := WaitHost, semaphore := Some(s.registry[call.origin])))
      else Goto(s, i, CheckLength)
    case CheckLength =>
      if |s.registry| >= c.registryCapacity then Goto(s, i, WaitGlobal) else Goto(s, i, ClaimEntry)
    case ClaimEntry =>
      if call.origin in s.registry
      then Put(s, i, call.(pc := WaitHost, semaphore := Some(s.registry[call.origin])))
      else
        var id := |s.hostFree|;
        Put(s, i, call.(pc := WaitHost, semaphore := Some(id)))
          .(registry := s.registry[call.origin := id], hostFree := s.hostFree + [c.HostLimit()])
    case _ => s
  }

  /** Taking the permits, raising the gauges, and the attempt itself. */
  function NextTaking(c: Config, s: State, i: nat, reply: Reply): State
    requires i < |s.calls| && Enabled(s, Advance(i, reply))
  {
    var call := s.calls[i];
    match call.pc
    case WaitHost =>
      var id := call.semaphore.value;
      Goto(s, i, RaiseOriginGauge).(hostFree := s.hostFree[id := s.hostFree[id] - 1])
    case RaiseOriginGauge =>
      Goto(s, i, WaitGlobal).(originGauge := s.originGauge[call.origin := OriginGauge(s, call.origin) + 1])
    case WaitGlobal => Goto(s, i, RaiseGauge).(globalFree := s.globalFree - 1)
    case RaiseGauge => Goto(s, i, Running).(gauge := s.gauge + 1)
    case Running => Goto(s, i, LowerGauge(AfterAttempt(c, call, reply)))
    case _ => s
  }

  /** Giving gauges and permits back, the retry sleep, and the way round the loop. */
  function NextReleasing(s: State, i: nat): State
    requires i < |s.calls|
    requires s.calls[i].HoldsHost() ==> s.calls[i].semaphore.value < |s.hostFree|
  {
    var call := s.calls[i];
    match call.pc
    case LowerGauge(after) => Goto(s, i, DropGlobal(after)).(gauge := s.gauge - 1)
    case DropGlobal(after) => Goto(s, i, LowerOriginGauge(after)).(globalFree := s.globalFree + 1)
    case LowerOriginGauge(after) =>
      if call.semaphore.None? then Goto(s, i, DropHost(after))
      else Goto(s, i, DropHost(after)).(originGauge := s.originGauge[call.origin := OriginGauge(s, call.origin) - 1])
    case DropHost(after) =>
      var done := Put(s, i, call.(pc := if after.ToSleep? then Sleeping else Ended, semaphore := None));
      if call.semaphore.None? then done
      else
        var id := call.semaphore.value;
        done.(hostFree := s.hostFree[id := s.hostFree[id] + 1])
    case Sleeping => Goto(s, i, Begin)
    case _ => s
  }

  function Next(c: Config, s: State, a: Action): State
    requires Enabled(s, a)
  {
    match a
    case Cancel(i) => NextOnCancel(s, i)
    case Advance(i, reply) =>
      if s.calls[i].pc.InRegistry() then NextInRegistry(c, s, i)
      else if s.calls[i].pc.Taking() then NextTaking(c, s, i, reply)
      else NextReleasing(s, i)
  }

  /** `states[k + 1]` follows `states[k]` by `acts[k]`. */
  predicate Run(c: Config, states: seq<State>, acts: seq<Action>) {
    && |states| == |acts| + 1
    && forall k | 0 <= k < |acts| :: Enabled(states[k], acts[k]) && states[k + 1] == Next(c, states[k], acts[k])
  }

  // ── Counting calls ────────────────────────────────────────────────────────────

  datatype Tally =
    | GlobalHolders
    | HostHolders(id: nat)
    | GuardHolders(origin: Origin)
    | GaugeHolders
    | Registrants
    | GatedGlobalHolders(id: nat)
    | GlobalHoldersOf(origin: Origin)
    | UngatedGlobalHoldersOf(origin: Origin)
    | CallsTo(origin: Origin)

  predicate Counts(t: Tally, call: Call) {
    match t
    case GlobalHolders => call.HoldsGlobal()
    case HostHolders(id) => call.HoldsHost() && call.semaphore.value == id
    case GuardHolders(origin) => call.HoldsGuard() && call.origin == origin
    case GaugeHolders => call.InGauge()
    case Registrants => call.Registering()
    case GatedGlobalHolders(id) => call.HoldsGlobal() && call.semaphore == Some(id)
    case GlobalHoldersOf(o) => call.HoldsGlobal() && call.origin == o
    case UngatedGlobalHoldersOf(o) => call.HoldsGlobal() && call.origin == o && call.semaphore.None?
    case CallsTo(o) => call.origin == o
  }

  function One(t: Tally, call: Call): nat { if Counts(t, call) then 1 else 0 }

  function Count(calls: seq<Call>, t: Tally): (n: nat)
    ensures n <= |calls|
  {
    if calls == [] then 0 else Count(calls[..|calls| - 1], t) + One(t, calls[|calls| - 1])
  }

  lemma {:induction false} CountUpdate(calls: seq<Call>, i: nat, call: Call, t: Tally)
    requires i < |calls|
    ensures Count(calls[i := call], t) == Count(calls, t) - One(t, calls[i]) + One(t, call)
  {
    var n := |calls| - 1;
    var updated := calls[i := call];
    if i == n {
      assert updated[..n] == calls[..n];
    } else {
      assert updated[..n] == calls[..n][i := call];
      CountUpdate(calls[..n], i, call, t);
    }
  }

  lemma {:induction false} CountNone(calls: seq<Call>, t: Tally)
    requires forall i | 0 <= i < |calls| :: !Counts(t, calls[i])
    ensures Count(calls, t) == 0
  {
    if calls != [] { CountNone(calls[..|calls| - 1], t); }
  }

  lemma {:induction false} CountSome(calls: seq<Call>, t: Tally) returns (i: nat)
    requires Count(calls, t) > 0
    ensures i < |calls| && Counts(t, calls[i])
  {
    i := |calls| - 1;
    if !Counts(t, calls[i]) { i := CountSome(calls[..i], t); }
  }

  lemma {:induction false} CountWithin(calls: seq<Call>, small: Tally, large: Tally)
    requires forall i | 0 <= i < |calls| :: Counts(small, calls[i]) ==> Counts(large, calls[i])
    ensures Count(calls, small) <= Count(calls, large)
  {
    if calls != [] { CountWithin(calls[..|calls| - 1], small, large); }
  }
}
