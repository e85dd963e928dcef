/**
  Any number of queries going through `fetch_with_cache` on one shared cache, with the
  background refreshes they spawn. Each access to shared memory is a step of its own:
  the store's read, the classification, the length check, the claim, the clone of a
  waiter's notify, its registration, the upstream fetch, the store's write, and the two
  halves of dropping a guard. Any entry may vanish at any time, and a task may be dropped
  wherever it awaits.
*/
module SingleFlight {
  import opened Wrappers
  import opened Cache

  /** What the fetcher returned for a query. */
  datatype Outcome = Fetched(value: Payload) | NotFound | Failed

  datatype Fetch = Fetch(key: string, outcome: Outcome, at: nat)

  /** An insertion into the store, with the fetch it stores. */
  datatype Write = Write(query: Query, entry: Entry, fetch: nat, background: bool)

  /** Why a slot is wanted: to refresh a stale answer, or to lead a miss for the first or second time. */
  datatype Goal = Refresh(served: Payload, at: nat) | FirstClaim | SecondClaim

  /** How a task ended; `at` is when the cache was consulted. */
  datatype Answer =
    | Cached(value: Payload, at: nat)
    | ShortCircuited(at: nat)
    | Upstream(outcome: Outcome, fetch: nat)
    | RateLimited
    | Refreshed
    | Dropped

  datatype Pc =
    | Lookup(second: bool)
    | Classify(second: bool, seen: Option<Entry>, from: nat)
    | CheckLength(goal: Goal)
    | ClaimEntry(goal: Goal)
    | SpawnRefresh(served: Payload, at: nat)
    | CloneNotify
    | Register(notify: nat)
    | Blocked(notify: nat, ticket: nat)
    | RateLimit
    | Fetching
    | Storing(fetch: nat)
    | RemoveSlot(answer: Answer)
    | NotifyWaiters(answer: Answer)
    | Returned(answer: Answer)
  {
    predicate Reading() { Lookup? || Classify? }
    predicate Claiming() { CheckLength? || ClaimEntry? || SpawnRefresh? }
    predicate Awaiting() { CloneNotify? || Register? || Blocked? }
    predicate Leading() { RateLimit? || Fetching? || Storing? }
    predicate Dropping() { RemoveSlot? || NotifyWaiters? }
    predicate Cancellable() { (Lookup? && !second) || Blocked? || RateLimit? || Fetching? }
  }

  /** A task's own history: what its lookups said and what became of its claims. */
  datatype Observation = Saw(status: Status) | Granted | Denied

  datatype Task = Task(query: Query, background: bool, pc: Pc, guard: Option<nat>, path: seq<Observation>)
  {
    function Key(): string { query.Key() }

    /** The guard's slot has not been removed yet. */
    predicate HoldsSlot() { guard.Some? && !pc.NotifyWaiters? }
  }

  /**
    `owners[n]` is the task holding notify `n`'s guard and `wakeups[n]` counts the
    `notify_waiters` calls on it. `fetches` and `log` are histories.
  */
  datatype State = State(
    now: nat,
    store: map<string, Entry>,
    inFlight: map<string, nat>,
    owners: seq<nat>,
    wakeups: seq<nat>,
    tasks: seq<Task>,
    fetches: seq<Fetch>,
    log: seq<Write>,
    counters: Counters)

  datatype Counters = Counters(hits: nat, stale: nat, negative: nat, misses: nat)

  function Counted(c: Counters, status: Status): Counters {
    match status
    case FreshHit(_) => c.(hits := c.hits + 1)
    case StaleHit(_) => c.(stale := c.stale + 1)
    case NegativeHit => c.(negative := c.negative + 1)
    case Miss => c.(misses := c.misses + 1)
  }

  /** The environment's part in a step: the limiter's verdict, the fetch's outcome, the entry's timestamp. */
  datatype Choice = Choice(permitted: bool, outcome: Outcome, stamp: nat)

  datatype Action =
    | Tick(to: nat)
    | Evict(key: string)
    | Advance(task: nat, choice: Choice)
    | Cancel(task: nat)

  predicate Init(s: State) {
    && s.store == map[] && s.inFlight == map[] && s.owners == [] && s.wakeups == []
    && s.fetches == [] && s.log == [] && s.counters == Counters(0, 0, 0, 0)
    && forall i | 0 <= i < |s.tasks| ::
         s.tasks[i] == Task(s.tasks[i].query, false, Lookup(false), None, [])
  }

  predicate CanAdvance(s: State, i: nat, choice: Choice)
    requires i < |s.tasks|
  {
    match s.tasks[i].pc
    case Blocked(n, ticket) => n < |s.wakeups| && s.wakeups[n] > ticket
    case Register(n) => n < |s.wakeups|
    case SpawnRefresh(_, _) => s.tasks[i].guard.Some? && s.tasks[i].guard.value < |s.owners|
    case NotifyWaiters(_) => s.tasks[i].guard.Some? && s.tasks[i].guard.value < |s.wakeups|
    case Storing(f) => f < |s.fetches| && s.fetches[f].at <= choice.stamp <= s.now
    case Returned(_) => false
    case _ => true
  }

  predicate Enabled(s: State, a: Action) {
    match a
    case Tick(to) => to >= s.now
    case Evict(_) => true
    case Advance(i, choice) => i < |s.tasks| && CanAdvance(s, i, choice)
    case Cancel(i) => i < |s.tasks| && s.tasks[i].pc.Cancellable()
  }

  function Put(s: State, i: nat, task: Task): State
    requires i < |s.tasks|
  {
    s.(tasks := s.tasks[i := task])
  }

  function Goto(s: State, i: nat, pc: Pc): State
    requires i < |s.tasks|
  {
    Put(s, i, s.tasks[i].(pc := pc))
  }

  /** Leaving with a result: by way of the guard's drop if there is a guard. */
  function Exit(task: Task, answer: Answer): Pc {
    if task.guard.Some? then RemoveSlot(answer) else Returned(answer)
  }

  function AfterStatus(second: bool, status: Status, now: nat): Pc {
    match status
    case FreshHit(value) => Returned(Cached(value, now))
    case StaleHit(value) => if second then Returned(Cached(value, now)) else CheckLength(Refresh(value, now))
    case NegativeHit => Returned(ShortCircuited(now))
    case Miss => CheckLength(if second then SecondClaim else FirstClaim)
  }

  /** `get_status`, then what each status leads to. */
  function NextReading(s: State, i: nat): State
    requires i < |s.tasks|
  {
    var task := s.tasks[i];
    match task.pc
    case Lookup(second) =>
      var seen := if task.Key() in s.store then Some(s.store[task.Key()]) else None;
      Goto(s, i, Classify(second, seen, |s.log|))
    case Classify(second, seen, _) =>
      var status := StatusAt(seen, s.now);
      Put(s, i, task.(pc := AfterStatus(second, status, s.now), path := task.path + [Saw(status)]))
        .(counters := Counted(s.counters, status),
          store := if status == Miss && seen.Some? then s.store - {task.Key()} else s.store)
    case _ => s
  }

  function Deny(task: Task, goal: Goal): Task {
    var pc := match goal
      case Refresh(served, at) => Returned(Cached(served, at))
      case FirstClaim => CloneNotify
      case SecondClaim => RateLimit;
    task.(pc := pc, path := task.path + [Denied])
  }

  /** `try_acquire_refresh`: the length check, then the atomic claim of the entry. */
  function NextClaiming(s: State, i: nat, choice: Choice): State
    requires i < |s.tasks| && CanAdvance(s, i, choice)
  {
    var task := s.tasks[i];
    match task.pc
    case CheckLength(goal) =>
      if |s.inFlight| >= MAX_INFLIGHT_REFRESHES then Put(s, i, Deny(task, goal)) else Goto(s, i, ClaimEntry(goal))
    case ClaimEntry(goal) =>
      if task.Key() in s.inFlight then Put(s, i, Deny(task, goal))
      else
        var n := |s.owners|;
        var pc := match goal case Refresh(served, at) => SpawnRefresh(served, at) case _ => RateLimit;
        Put(s, i, task.(pc := pc, guard := Some(n), path := task.path + [Granted]))
          .(inFlight := s.inFlight[task.Key() := n], owners := s.owners + [i], wakeups := s.wakeups + [0])
    case SpawnRefresh(served, at) =>
      var done := task.(pc := Returned(Cached(served, at)), guard := None);
      var refresh := Task(task.query, true, RateLimit, task.guard, []);
      s.(tasks := s.tasks[i := done] + [refresh], owners := s.owners[task.guard.value := |s.tasks|])
    case _ => s
  }

  /** `await_refresh`: clone the notify, create the waiter, sleep until it is notified. */
  function NextAwaiting(s: State, i: nat, choice: Choice): State
    requires i < |s.tasks| && CanAdvance(s, i, choice)
  {
    var task := s.tasks[i];
    match task.pc
    case CloneNotify =>
      if task.Key() in s.inFlight then Goto(s, i, Register(s.inFlight[task.Key()])) else Goto(s, i, Lookup(true))
    case Register(n) => Goto(s, i, Blocked(n, s.wakeups[n]))
    case Blocked(_, _) => Goto(s, i, Lookup(true))
    case _ => s
  }

  function EntryFor(task: Task, outcome: Outcome, stamp: nat): Option<Entry> {
    match outcome
    case Fetched(value) => Some(PositiveEntry(value, task.query.kind.Ttl(), stamp))
    case NotFound => if task.background then None else Some(NegativeEntry(NEGATIVE_TTL, stamp))
    case Failed => None
  }

  /** Rate limit, live fetch and cache population; a background task stores successes only. */
  function NextLeading(s: State, i: nat, choice: Choice): State
    requires i < |s.tasks| && CanAdvance(s, i, choice)
  {
    var task := s.tasks[i];
    match task.pc
    case RateLimit =>
      if choice.permitted then Goto(s, i, Fetching)
      else Goto(s, i, Exit(task, if task.background then Refreshed else RateLimited))
    case Fetching =>
      Goto(s, i, Storing(|s.fetches|)).(fetches := s.fetches + [Fetch(task.Key(), choice.outcome, s.now)])
    case Storing(f) =>
      var outcome := s.fetches[f].outcome;
      var left := Goto(s, i, Exit(task, if task.background then Refreshed else Upstream(outcome, f)));
      (match EntryFor(task, outcome, choice.stamp)
       case None => left
       case Some(entry) =>
         left.(store := s.store[task.Key() := entry], log := s.log + [Write(task.query, entry, f, task.background)]))
    case _ => s
  }

  /** `RefreshGuard::drop`: remove the key, then notify. */
  function NextDropping(s: State, i: nat, choice: Choice): State
    requires i < |s.tasks| && CanAdvance(s, i, choice)
  {
    var task := s.tasks[i];
    match task.pc
    case RemoveSlot(answer) => Goto(s, i, NotifyWaiters(answer)).(inFlight := s.inFlight - {task.Key()})
    case NotifyWaiters(answer) =>
      var n := task.guard.value;
      Put(s, i, task.(pc := Returned(answer), guard := None)).(wakeups := s.wakeups[n := s.wakeups[n] + 1])
    case _ => s
  }

  function Next(s: State, a: Action): State
    requires Enabled(s, a)
  {
    match a
    case Tick(to) => s.(now := to)
    case Evict(key) => s.(store := s.store - {key})
    case Cancel(i) => Goto(s, i, Exit(s.tasks[i], Dropped))
    case Advance(i, choice) =>
      var pc := s.tasks[i].pc;
      if pc.Reading() then NextReading(s, i)
      else if pc.Claiming() then NextClaiming(s, i, choice)
      else if pc.Awaiting() then NextAwaiting(s, i, choice)
      else if pc.Leading() then NextLeading(s, i, choice)
      else NextDropping(s, i, choice)
  }

  /** `states[k + 1]` follows `states[k]` by `acts[k]`. */
  predicate Run(states: seq<State>, acts: seq<Action>) {
    && |states| == |acts| + 1
    && forall k | 0 <= k < |acts| :: Enabled(states[k], acts[k]) && states[k + 1] == Next(states[k], acts[k])
  }

  /** The simple last-write map that the store may only lose entries from. */
  function LastWrite(log: seq<Write>, key: string): Option<Entry> {
    if log == [] then None
    else
      var w := log[|log| - 1];
      if w.query.Key() == key then Some(w.entry) else LastWrite(log[..|log| - 1], key)
  }
}
