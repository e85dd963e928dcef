/** Whole-run results for the shared cache: slots, followers, contents, counters, settling. */
module SingleFlightTheorems {
  import opened Wrappers
  import opened Cache
  import opened SingleFlight
  import opened SlotInvariants
  import opened CoherenceInvariants
  import opened CounterInvariants

  // ── Single flight ─────────────────────────────────────────────────────────────

  /** In-flight keys and live guards correspond one to one in every state of every run. */
  lemma SlotsMatchGuards(states: seq<State>, acts: seq<Action>, k: nat)
    requires Run(states, acts) && Init(states[0]) && k < |states|
    ensures var s := states[k];
            && (forall key | key in s.inFlight ::
                  exists i :: 0 <= i < |s.tasks| && s.tasks[i].HoldsSlot() && s.tasks[i].Key() == key
                              && s.tasks[i].guard == Some(s.inFlight[key]))
            && (forall i | 0 <= i < |s.tasks| && s.tasks[i].HoldsSlot() :: s.tasks[i].Key() in s.inFlight)
            && (forall i, j | 0 <= i < |s.tasks| && 0 <= j < |s.tasks| && s.tasks[i].HoldsSlot()
                 && s.tasks[j].HoldsSlot()
                  && s.tasks[i].Key() == s.tasks[j].Key() :: i == j)
  {
    InitEstablishes(states[0]);
    InvAlong(states, acts, k);
    var s := states[k];
    forall key | key in s.inFlight
      ensures exists i :: 0 <= i < |s.tasks| && s.tasks[i].HoldsSlot() && s.tasks[i].Key() == key
                          && s.tasks[i].guard == Some(s.inFlight[key])
    {
      var o := s.owners[s.inFlight[key]];
      assert s.tasks[o].HoldsSlot();
    }
    forall i | 0 <= i < |s.tasks| && s.tasks[i].HoldsSlot()
      ensures s.tasks[i].Key() in s.inFlight && i == s.owners[s.inFlight[s.tasks[i].Key()]]
    {
      assert TaskSlotOk(s, i, s.tasks[i]);
    }
  }

  /** A guard's drop removes its own slot: the key still maps to that guard's notify. */
  lemma DropRemovesOwnSlot(states: seq<State>, acts: seq<Action>, k: nat)
    requires Run(states, acts) && Init(states[0]) && k < |acts| && acts[k].Advance?
    requires states[k].tasks[acts[k].task].pc.RemoveSlot?
    ensures var s, task := states[k], states[k].tasks[acts[k].task];
            && task.Key() in s.inFlight && task.guard == Some(s.inFlight[task.Key()])
            && task.Key() !in states[k + 1].inFlight
            && forall key | key != task.Key() ::
                 key in s.inFlight <==> key in states[k + 1].inFlight && states[k + 1].inFlight[key] == s.inFlight[key]
  {
    hide DataInv, PathsOk, CountersOk;
    InitEstablishes(states[0]);
    InvAlong(states, acts, k);
    RemoveKeepsSlots(states[k], acts[k].task, acts[k].choice);
  }

  /**
    Guarded fetches of one query never overlap, and a foreground fetch without a guard
    belongs to a call that missed twice and was refused the slot both times.
  */
  lemma FetchesSingleFlighted(states: seq<State>, acts: seq<Action>, k: nat, i: nat, j: nat)
    requires Run(states, acts) && Init(states[0]) && k < |states|
    requires i < |states[k].tasks| && j < |states[k].tasks|
    requires states[k].tasks[i].pc == Fetching && states[k].tasks[j].pc == Fetching
    ensures (states[k].tasks[i].query == states[k].tasks[j].query && states[k].tasks[i].guard.Some?
             && states[k].tasks[j].guard.Some?) ==> i == j
    ensures states[k].tasks[i].guard.None? ==>
              !states[k].tasks[i].background && states[k].tasks[i].path == [Saw(Miss), Denied, Saw(Miss), Denied]
  {
    InitEstablishes(states[0]);
    InvAlong(states, acts, k);
    assert TaskSlotOk(states[k], i, states[k].tasks[i]) && TaskSlotOk(states[k], j, states[k].tasks[j]);
    assert PathOk(states[k].tasks[i]);
  }

  // ── Upstream fetches ──────────────────────────────────────────────────────────

  lemma ClaimingAndFetches(s: State, i: nat, choice: Choice)
    requires i < |s.tasks| && CanAdvance(s, i, choice) && s.tasks[i].pc.Claiming()
    ensures var u := NextClaiming(s, i, choice);
            && |u.tasks| > i && u.fetches == s.fetches
            && Budget(u.tasks[i].pc) + (if s.tasks[i].pc.SpawnRefresh? then 1 else 0) <= Budget(s.tasks[i].pc)
  {
  }

  lemma LeadingAndFetches(s: State, i: nat, choice: Choice)
    requires i < |s.tasks| && CanAdvance(s, i, choice) && s.tasks[i].pc.Leading()
    ensures var u := NextLeading(s, i, choice);
            && |u.tasks| > i
            && |u.fetches| + Budget(u.tasks[i].pc) <= |s.fetches| + Budget(s.tasks[i].pc)
  {
    hide EntryFor;
  }

  lemma OthersAndFetches(s: State, i: nat, choice: Choice)
    requires i < |s.tasks| && CanAdvance(s, i, choice) && !s.tasks[i].pc.Claiming() && !s.tasks[i].pc.Leading()
    ensures var u := Next(s, Advance(i, choice));
            |u.tasks| > i && u.fetches == s.fetches && Budget(u.tasks[i].pc) <= Budget(s.tasks[i].pc)
  {
  }

  lemma FetchesSpent(s: State, i: nat, choice: Choice)
    requires Enabled(s, Advance(i, choice))
    ensures var u := Next(s, Advance(i, choice));
            && |u.tasks| > i
            && |u.fetches| + Budget(u.tasks[i].pc) + (if s.tasks[i].pc.SpawnRefresh? then 1 else 0)
               <= |s.fetches| + Budget(s.tasks[i].pc)
  {
    hide NextReading, NextClaiming, NextAwaiting, NextLeading, NextDropping, Budget;
    if s.tasks[i].pc.Claiming() { ClaimingAndFetches(s, i, choice); }
    else if s.tasks[i].pc.Leading() { LeadingAndFetches(s, i, choice); }
    else { OthersAndFetches(s, i, choice); }
  }

  lemma BudgetStep(s: State, a: Action)
    requires Enabled(s, a)
    ensures |Next(s, a).fetches| + Total(FetchesLeft, Next(s, a).tasks) <= |s.fetches| + Total(FetchesLeft, s.tasks)
  {
    match a
    case Tick(_) =>
    case Evict(_) =>
    case Cancel(i) =>
      CancelShape(s, i);
      assert Next(s, a).fetches == s.fetches;
      hide Next, Total;
      TotalStep(FetchesLeft, s.tasks, Next(s, a).tasks, i);
    case Advance(i, choice) =>
      hide Next, Total;
      AdvanceShape(s, i, choice);
      FetchesSpent(s, i, choice);
      TotalStep(FetchesLeft, s.tasks, Next(s, a).tasks, i);
  }

  lemma {:induction false} InitialBudget(tasks: seq<Task>)
    requires forall i | 0 <= i < |tasks| :: tasks[i].pc == Lookup(false)
    ensures Total(FetchesLeft, tasks) == |tasks|
  {
    if tasks != [] { InitialBudget(tasks[..|tasks| - 1]); }
  }

  lemma {:induction false} BudgetAlong(states: seq<State>, acts: seq<Action>, k: nat)
    requires Run(states, acts) && Init(states[0]) && k <= |acts|
    ensures |states[k].fetches| + Total(FetchesLeft, states[k].tasks) <= |states[0].tasks|
  {
    if k == 0 {
      InitialBudget(states[0].tasks);
    } else {
      BudgetAlong(states, acts, k - 1);
      BudgetStep(states[k - 1], acts[k - 1]);
    }
  }

  /** N queries make at most N upstream fetches in all, the background refreshes they spawn included. */
  lemma FetchesAtMostQueries(states: seq<State>, acts: seq<Action>, k: nat)
    requires Run(states, acts) && Init(states[0]) && k <= |acts|
    ensures |states[k].fetches| <= |states[0].tasks|
  {
    BudgetAlong(states, acts, k);
  }

  // ── Followers ─────────────────────────────────────────────────────────────────

  /** Waiting on a notify that will never be notified again. */
  predicate Lost(s: State, task: Task) {
    task.pc.Blocked? && task.pc.notify < |s.wakeups| && task.pc.ticket == s.wakeups[task.pc.notify] == 1
  }

  /** Some task still holds the guard that will notify `n`. */
  predicate GuardLives(s: State, n: nat) {
    n < |s.owners| && s.owners[n] < |s.tasks| && s.tasks[s.owners[n]].guard == Some(n)
  }

  /**
    A follower that cannot wake now either has a live guard still to notify it, or it
    registered after the notification; in the second case no guard is left.
  */
  lemma FollowerWakeup(s: State, i: nat)
    requires Reachable(s) && i < |s.tasks| && s.tasks[i].pc.Blocked?
    ensures var n := s.tasks[i].pc.notify;
            && n < |s.wakeups|
            && (s.wakeups[n] <= s.tasks[i].pc.ticket <==> GuardLives(s, n) || Lost(s, s.tasks[i]))
            && !(GuardLives(s, n) && Lost(s, s.tasks[i]))
  {
    ReachableInv(s);
    assert TaskSlotOk(s, i, s.tasks[i]);
    var n := s.tasks[i].pc.notify;
    if GuardLives(s, n) { assert TaskSlotOk(s, s.owners[n], s.tasks[s.owners[n]]); }
  }

  lemma WakeupsGrow(s: State, a: Action)
    requires Enabled(s, a)
    ensures |s.wakeups| <= |Next(s, a).wakeups|
    ensures forall n | 0 <= n < |s.wakeups| :: s.wakeups[n] <= Next(s, a).wakeups[n]
  {
    WakeupsStep(s, a);
  }

  lemma LostStep(s: State, a: Action, i: nat)
    requires Enabled(s, a) && Inv(s) && i < |s.tasks| && Lost(s, s.tasks[i]) && a != Cancel(i)
    ensures i < |Next(s, a).tasks| && Next(s, a).tasks[i] == s.tasks[i] && Lost(Next(s, a), s.tasks[i])
  {
    var u, n := Next(s, a), s.tasks[i].pc.notify;
    match a
    case Tick(_) =>
    case Evict(_) =>
    case Cancel(_) =>
    case Advance(j, choice) =>
      assert TaskSlotOk(s, j, s.tasks[j]);
      hide Next, DataInv, PathsOk, CountersOk;
      AdvanceShape(s, j, choice);
      WakeupsGrow(s, a);
      SlotStep(s, a);
  }

  /** A lost follower stays blocked in every continuation that does not drop it. */
  lemma {:induction false} LostForever(states: seq<State>, acts: seq<Action>, i: nat, k: nat)
    requires Run(states, acts) && Reachable(states[0]) && k < |states|
    requires i < |states[0].tasks| && Lost(states[0], states[0].tasks[i])
    requires forall m | 0 <= m < |acts| :: acts[m] != Cancel(i)
    ensures i < |states[k].tasks| && states[k].tasks[i] == states[0].tasks[i] && Lost(states[k], states[k].tasks[i])
  {
    if k > 0 {
      LostForever(states, acts, i, k - 1);
      ReachableInv(states[0]);
      InvAlong(states, acts, k - 1);
      LostStep(states[k - 1], acts[k - 1], i);
    }
  }

  // ── Contents ──────────────────────────────────────────────────────────────────

  /** A lookup misses, or says what the last write under its key (as of its read) says at that time. */
  lemma LookupIsLastWriteOrMiss(states: seq<State>, acts: seq<Action>, k: nat, i: nat)
    requires Run(states, acts) && Init(states[0]) && k < |states| && i < |states[k].tasks|
    requires states[k].tasks[i].pc.Classify?
    ensures var s, pc := states[k], states[k].tasks[i].pc;
            && pc.from <= |s.log|
            && (pc.seen == None || pc.seen == LastWrite(s.log[..pc.from], states[k].tasks[i].Key()))
            && (StatusAt(pc.seen, s.now) == Miss
                || StatusAt(pc.seen, s.now) == StatusAt(LastWrite(s.log[..pc.from], states[k].tasks[i].Key()), s.now))
  {
    InitEstablishes(states[0]);
    InvAlong(states, acts, k);
    assert TaskDataOk(states[k], states[k].tasks[i]);
  }

  /** Write `w` stored a successful fetch of `query` that justifies answering `value` at `at`. */
  predicate Justifies(s: State, w: nat, query: Query, value: Payload, at: nat) {
    && w < |s.log| && s.log[w].query == query && s.log[w].fetch < |s.fetches|
    && s.fetches[s.log[w].fetch].key == query.Key()
    && s.fetches[s.log[w].fetch].outcome == Fetched(value)
    && s.fetches[s.log[w].fetch].at <= s.log[w].entry.insertedAt <= at <= s.now
    && at <= s.log[w].entry.insertedAt + query.kind.Ttl() + StaleWindow(query.kind.Ttl())
  }

  lemma ServedIsJustified(s: State, query: Query, value: Payload, at: nat) returns (w: nat)
    requires LogOk(s) && Served(s, query.Key(), value, at)
    ensures Justifies(s, w, query, value, at)
  {
    var status := if Backed(s.log, query.Key(), FreshHit(value), at) then FreshHit(value) else StaleHit(value);
    assert Backed(s.log, query.Key(), status, at);
    w :| 0 <= w < |s.log| && s.log[w].query.Key() == query.Key() && s.log[w].entry.insertedAt <= at
         && StatusAt(Some(s.log[w].entry), at) == status;
    KeysAreInjective(s.log[w].query, query);
    assert WriteOk(s.fetches, s.now, s.log[w]);
  }

  /**
    Every cached answer came from a successful fetch of the same query, stored no longer
    before it than the kind's time to live and its stale window.
  */
  lemma CachedAnswersAreFetched(states: seq<State>, acts: seq<Action>, k: nat, i: nat)
    requires Run(states, acts) && Init(states[0]) && k < |states| && i < |states[k].tasks|
    requires states[k].tasks[i].pc.Returned? && states[k].tasks[i].pc.answer.Cached?
    ensures var task := states[k].tasks[i];
            exists w :: Justifies(states[k], w, task.query, task.pc.answer.value, task.pc.answer.at)
  {
    InitEstablishes(states[0]);
    InvAlong(states, acts, k);
    var task := states[k].tasks[i];
    assert TaskDataOk(states[k], task);
    var w := ServedIsJustified(states[k], task.query, task.pc.answer.value, task.pc.answer.at);
  }

  /** A foreground fetch that succeeded or got a 404 is returned only after that very fetch was written to the cache. */
  lemma FetchedAnswersAreStored(states: seq<State>, acts: seq<Action>, k: nat, i: nat)
    requires Run(states, acts) && Init(states[0]) && k < |states| && i < |states[k].tasks|
    requires states[k].tasks[i].pc.Returned? && states[k].tasks[i].pc.answer.Upstream?
    ensures var answer := states[k].tasks[i].pc.answer;
            OutcomeStored(states[k], states[k].tasks[i].Key(), answer.outcome, answer.fetch)
  {
    InitEstablishes(states[0]);
    InvAlong(states, acts, k);
    assert TaskDataOk(states[k], states[k].tasks[i]);
  }

  /** A foreground call's write `w` stored an upstream 404 for `query` at most ten minutes before `at`. */
  predicate JustifiesMissing(s: State, w: nat, query: Query, at: nat) {
    && w < |s.log| && s.log[w].query == query && s.log[w].fetch < |s.fetches|
    && s.fetches[s.log[w].fetch].key == query.Key() && s.fetches[s.log[w].fetch].outcome == NotFound
         && !s.log[w].background
    && s.log[w].entry.insertedAt <= at <= s.log[w].entry.insertedAt + 600 * SECOND
  }

  lemma ShortCircuitIsJustified(s: State, query: Query, at: nat) returns (w: nat)
    requires LogOk(s) && Backed(s.log, query.Key(), NegativeHit, at)
    ensures JustifiesMissing(s, w, query, at)
  {
    w :| 0 <= w < |s.log| && s.log[w].query.Key() == query.Key() && s.log[w].entry.insertedAt <= at
         && StatusAt(Some(s.log[w].entry), at) == NegativeHit;
    KeysAreInjective(s.log[w].query, query);
    assert WriteOk(s.fetches, s.now, s.log[w]);
  }

  /** Every 404 answered from the cache came from an upstream 404 stored within ten minutes. */
  lemma ShortCircuitsAreFetched(states: seq<State>, acts: seq<Action>, k: nat, i: nat)
    requires Run(states, acts) && Init(states[0]) && k < |states| && i < |states[k].tasks|
    requires states[k].tasks[i].pc.Returned? && states[k].tasks[i].pc.answer.ShortCircuited?
    ensures var task := states[k].tasks[i];
            exists w :: JustifiesMissing(states[k], w, task.query, task.pc.answer.at)
  {
    InitEstablishes(states[0]);
    InvAlong(states, acts, k);
    var task := states[k].tasks[i];
    assert TaskDataOk(states[k], task);
    var w := ShortCircuitIsJustified(states[k], task.query, task.pc.answer.at);
  }

  /** The four counters are the lookups made, each under its own answer. */
  lemma CountersSumToLookups(states: seq<State>, acts: seq<Action>, k: nat)
    requires Run(states, acts) && Init(states[0]) && k < |states|
    ensures var c, tasks := states[k].counters, states[k].tasks;
            && c.hits == Total(FreshSeen, tasks) && c.stale == Total(StaleSeen, tasks)
            && c.negative == Total(NegativeSeen, tasks) && c.misses == Total(MissSeen, tasks)
            && c.hits + c.stale + c.negative + c.misses == Total(LookupsMade, tasks)
  {
    InitEstablishes(states[0]);
    InvAlong(states, acts, k);
  }

  // ── Capacity ──────────────────────────────────────────────────────────────────

  lemma ClaimingAndSlots(s: State, i: nat, choice: Choice)
    requires i < |s.tasks| && CanAdvance(s, i, choice) && s.tasks[i].pc.Claiming()
    ensures var u := NextClaiming(s, i, choice);
            && |u.tasks| > i
            && |u.inFlight| <= |s.inFlight| + (if s.tasks[i].pc.ClaimEntry? then 1 else 0)
            && (u.tasks[i].pc.ClaimEntry? ==> s.tasks[i].pc.CheckLength? && |u.inFlight| < MAX_INFLIGHT_REFRESHES)
  {
  }

  lemma ReadingAndSlots(s: State, i: nat)
    requires i < |s.tasks| && s.tasks[i].pc.Reading()
    ensures var u := NextReading(s, i); |u.tasks| > i && u.inFlight == s.inFlight && !u.tasks[i].pc.ClaimEntry?
  {
  }

  lemma AwaitingAndSlots(s: State, i: nat, choice: Choice)
    requires i < |s.tasks| && CanAdvance(s, i, choice) && s.tasks[i].pc.Awaiting()
    ensures var u := NextAwaiting(s, i, choice); |u.tasks| > i && u.inFlight == s.inFlight && !u.tasks[i].pc.ClaimEntry?
  {
  }

  lemma LeadingAndSlots(s: State, i: nat, choice: Choice)
    requires i < |s.tasks| && CanAdvance(s, i, choice) && s.tasks[i].pc.Leading()
    ensures var u := NextLeading(s, i, choice); |u.tasks| > i && u.inFlight == s.inFlight && !u.tasks[i].pc.ClaimEntry?
  {
    hide EntryFor;
  }

  lemma DroppingAndSlots(s: State, i: nat, choice: Choice)
    requires i < |s.tasks| && CanAdvance(s, i, choice) && s.tasks[i].pc.Dropping()
    ensures var u := NextDropping(s, i, choice);
            |u.tasks| > i && |u.inFlight| <= |s.inFlight| && !u.tasks[i].pc.ClaimEntry?
  {
    assert (s.inFlight - {s.tasks[i].Key()}).Keys <= s.inFlight.Keys;
  }

  /** Only a claim adds a slot, and only a length below the cap leads to a claim. */
  lemma AdvanceAndSlots(s: State, i: nat, choice: Choice)
    requires Enabled(s, Advance(i, choice))
    ensures var u := Next(s, Advance(i, choice));
            && |u.tasks| > i
            && |u.inFlight| <= |s.inFlight| + (if s.tasks[i].pc.ClaimEntry? then 1 else 0)
            && (u.tasks[i].pc.ClaimEntry? ==> s.tasks[i].pc.CheckLength? && |u.inFlight| < MAX_INFLIGHT_REFRESHES)
  {
    hide NextReading, NextClaiming, NextAwaiting, NextLeading, NextDropping;
    var pc := s.tasks[i].pc;
    if pc.Claiming() { ClaimingAndSlots(s, i, choice); }
    else if pc.Dropping() { DroppingAndSlots(s, i, choice); }
    else if pc.Reading() { ReadingAndSlots(s, i); }
    else if pc.Awaiting() { AwaitingAndSlots(s, i, choice); }
    else { LeadingAndSlots(s, i, choice); }
  }

  lemma ClaimRaceShape(s: State, u: State, i: nat)
    requires i < |s.tasks| && i < |u.tasks| && (OwnStep(s, u, i) || SpawnStep(s, u, i))
    requires |u.inFlight| <= |s.inFlight| + (if s.tasks[i].pc.ClaimEntry? then 1 else 0)
    requires u.tasks[i].pc.ClaimEntry? ==> |u.inFlight| < MAX_INFLIGHT_REFRESHES
    ensures || |u.inFlight| + Total(Claimants, u.tasks) <= |s.inFlight| + Total(Claimants, s.tasks)
            || |u.inFlight| < MAX_INFLIGHT_REFRESHES
  {
    TotalStep(Claimants, s.tasks, u.tasks, i);
  }

  lemma ClaimRaceStep(s: State, a: Action)
    requires Enabled(s, a)
    ensures var u := Next(s, a);
            || |u.inFlight| + Total(Claimants, u.tasks) <= |s.inFlight| + Total(Claimants, s.tasks)
            || |u.inFlight| < MAX_INFLIGHT_REFRESHES
  {
    var u := Next(s, a);
    match a
    case Tick(_) =>
    case Evict(_) =>
    case Cancel(i) =>
      CancelShape(s, i);
      TotalStep(Claimants, s.tasks, u.tasks, i);
    case Advance(i, choice) =>
      AdvanceShape(s, i, choice);
      AdvanceAndSlots(s, i, choice);
      ClaimRaceShape(s, u, i);
  }

  lemma {:induction false} NoClaimants(tasks: seq<Task>)
    requires forall i | 0 <= i < |tasks| :: !tasks[i].pc.ClaimEntry?
    ensures Total(Claimants, tasks) == 0
  {
    if tasks != [] { NoClaimants(tasks[..|tasks| - 1]); }
  }

  /** The in-flight registry passes its cap by less than the tasks ever between check and claim at once. */
  lemma {:induction false} InFlightSoftCap(states: seq<State>, acts: seq<Action>, racers: nat, k: nat)
    requires Run(states, acts) && Init(states[0]) && k < |states|
    requires forall j | 0 <= j < |states| :: Total(Claimants, states[j].tasks) <= racers
    ensures |states[k].inFlight| + Total(Claimants, states[k].tasks) <= MAX_INFLIGHT_REFRESHES - 1 + racers
  {
    if k == 0 {
      NoClaimants(states[0].tasks);
    } else {
      InFlightSoftCap(states, acts, racers, k - 1);
      ClaimRaceStep(states[k - 1], acts[k - 1]);
      assert Total(Claimants, states[k].tasks) <= racers;
    }
  }

  /** Only the queries of the initial state are foreground tasks. */
  lemma {:induction false} LaterTasksAreBackground(states: seq<State>, acts: seq<Action>, k: nat)
    requires Run(states, acts) && Init(states[0]) && k < |states|
    ensures |states[0].tasks| <= |states[k].tasks|
    ensures forall j | |states[0].tasks| <= j < |states[k].tasks| :: states[k].tasks[j].background
  {
    if k > 0 {
      LaterTasksAreBackground(states, acts, k - 1);
      match acts[k - 1]
      case Tick(_) =>
      case Evict(_) =>
      case Cancel(i) => CancelShape(states[k - 1], i);
      case Advance(i, choice) => AdvanceShape(states[k - 1], i, choice);
    }
  }

  lemma {:induction false} ClaimantsAmong(tasks: seq<Task>, n: nat)
    requires n <= |tasks| && forall j | n <= j < |tasks| :: !tasks[j].pc.ClaimEntry?
    ensures Total(Claimants, tasks) <= n
  {
    if tasks != [] { ClaimantsAmong(tasks[..|tasks| - 1], if n < |tasks| then n else n - 1); }
  }

  /** With N queries the in-flight registry never holds more than its cap and N - 1 slots. */
  lemma InFlightNeverFarOver(states: seq<State>, acts: seq<Action>, k: nat)
    requires Run(states, acts) && Init(states[0]) && k < |states|
    ensures |states[k].inFlight| <= MAX_INFLIGHT_REFRESHES - 1 + |states[0].tasks|
  {
    InitEstablishes(states[0]);
    forall j | 0 <= j < |states| ensures Total(Claimants, states[j].tasks) <= |states[0].tasks| {
      InvAlong(states, acts, j);
      LaterTasksAreBackground(states, acts, j);
      forall m | |states[0].tasks| <= m < |states[j].tasks| ensures !states[j].tasks[m].pc.ClaimEntry? {
        assert PathOk(states[j].tasks[m]);
      }
      ClaimantsAmong(states[j].tasks, |states[0].tasks|);
    }
    InFlightSoftCap(states, acts, |states[0].tasks|, k);
  }

  // ── Settling ──────────────────────────────────────────────────────────────────

  /** The task can take a step once the limiter and the upstream have answered. */
  predicate CanMove(s: State, i: nat)
    requires i < |s.tasks|
  {
    CanAdvance(s, i, Choice(true, Failed, s.now))
  }

  /** A task that has neither returned nor been lost can move, or waits for a guard whose holder can. */
  lemma SomebodyMoves(s: State, i: nat)
    requires Reachable(s) && i < |s.tasks| && !s.tasks[i].pc.Returned? && !Lost(s, s.tasks[i])
    ensures exists j :: 0 <= j < |s.tasks| && CanMove(s, j)
  {
    ReachableInv(s);
    assert TaskSlotOk(s, i, s.tasks[i]) && TaskDataOk(s, s.tasks[i]);
    if !CanMove(s, i) {
      FollowerWakeup(s, i);
      var o := s.owners[s.tasks[i].pc.notify];
      assert TaskSlotOk(s, o, s.tasks[o]) && TaskDataOk(s, s.tasks[o]);
      assert CanMove(s, o);
    }
  }

  /** When nothing can move, every task has returned or is a lost follower, and no slot is taken. */
  lemma QuiescentMeansSettled(states: seq<State>, acts: seq<Action>, k: nat)
    requires Run(states, acts) && Init(states[0]) && k < |states|
    requires forall i | 0 <= i < |states[k].tasks| :: !CanMove(states[k], i)
    ensures forall i | 0 <= i < |states[k].tasks| ::
        states[k].tasks[i].pc.Returned? || Lost(states[k], states[k].tasks[i])
    ensures states[k].inFlight == map[]
  {
    hide DataInv, PathsOk, CountersOk;
    InitEstablishes(states[0]);
    InvAlong(states, acts, k);
    var s := states[k];
    assert Reachable(s) by {
      assert Run(states[..k + 1], acts[..k]) && states[..k + 1][|acts[..k]|] == s;
    }
    forall i | 0 <= i < |s.tasks| ensures s.tasks[i].pc.Returned? || Lost(s, s.tasks[i]) {
      if !s.tasks[i].pc.Returned? && !Lost(s, s.tasks[i]) { SomebodyMoves(s, i); }
    }
    forall i | 0 <= i < |s.tasks| ensures !s.tasks[i].HoldsSlot() { assert TaskSlotOk(s, i, s.tasks[i]); }
  }

  /** Steps taken by tasks, as opposed to the clock and evictions. */
  function TaskSteps(acts: seq<Action>): nat {
    if acts == [] then 0
    else TaskSteps(acts[..|acts| - 1]) + if acts[|acts| - 1].Advance? || acts[|acts| - 1].Cancel? then 1 else 0
  }

  lemma {:induction false} InitialSteps(tasks: seq<Task>)
    requires forall i | 0 <= i < |tasks| :: tasks[i].pc == Lookup(false)
    ensures Total(StepsLeft, tasks) == 20 * |tasks|
  {
    if tasks != [] { InitialSteps(tasks[..|tasks| - 1]); }
  }

  lemma LeadRankFalls(s: State, i: nat, choice: Choice)
    requires i < |s.tasks| && CanAdvance(s, i, choice) && s.tasks[i].pc.Leading()
    ensures var u := NextLeading(s, i, choice); |u.tasks| > i && Rank(u.tasks[i].pc) < Rank(s.tasks[i].pc)
  {
    var before, after := s.tasks[i].pc, NextLeading(s, i, choice).tasks[i].pc;
    match before
    case RateLimit => assert after == Fetching || after.RemoveSlot? || after.Returned?;
    case Fetching => assert after.Storing?;
    case Storing(_) => assert after.RemoveSlot? || after.Returned?;
    case _ =>
  }

  lemma ClaimRankFalls(s: State, i: nat, choice: Choice)
    requires i < |s.tasks| && CanAdvance(s, i, choice) && s.tasks[i].pc.Claiming()
    ensures var u := NextClaiming(s, i, choice);
            && |u.tasks| > i
            && Rank(u.tasks[i].pc) + (if s.tasks[i].pc.SpawnRefresh? then 7 else 0) < Rank(s.tasks[i].pc)
  {
  }

  lemma RankFalls(s: State, i: nat, choice: Choice)
    requires Enabled(s, Advance(i, choice))
    ensures var u := Next(s, Advance(i, choice));
            && |u.tasks| > i
            && Rank(u.tasks[i].pc) + (if s.tasks[i].pc.SpawnRefresh? then 7 else 0) < Rank(s.tasks[i].pc)
  {
    var pc := s.tasks[i].pc;
    if pc.Claiming() { ClaimRankFalls(s, i, choice); }
    else if pc.Leading() { LeadRankFalls(s, i, choice); }
  }

  lemma StepsFallOnCancel(s: State, i: nat)
    requires Enabled(s, Cancel(i))
    ensures Total(StepsLeft, Next(s, Cancel(i)).tasks) < Total(StepsLeft, s.tasks)
  {
    var u := Next(s, Cancel(i));
    CancelShape(s, i);
    hide Next, Total;
    TotalStep(StepsLeft, s.tasks, u.tasks, i);
  }

  lemma StepsFallOnAdvance(s: State, i: nat, choice: Choice)
    requires Enabled(s, Advance(i, choice))
    ensures Total(StepsLeft, Next(s, Advance(i, choice)).tasks) < Total(StepsLeft, s.tasks)
  {
    hide Next, Total;
    var u := Next(s, Advance(i, choice));
    AdvanceShape(s, i, choice);
    RankFalls(s, i, choice);
    TotalStep(StepsLeft, s.tasks, u.tasks, i);
  }

  lemma StepsFall(s: State, a: Action)
    requires Enabled(s, a)
    ensures Total(StepsLeft, Next(s, a).tasks) + (if a.Advance? || a.Cancel? then 1 else 0) <= Total(StepsLeft, s.tasks)
  {
    match a
    case Tick(_) =>
    case Evict(_) =>
    case Cancel(i) => StepsFallOnCancel(s, i);
    case Advance(i, choice) => StepsFallOnAdvance(s, i, choice);
  }

  /** N queries and every refresh they spawn take at most 20 N steps of their own. */
  lemma {:induction false} TaskStepsBounded(states: seq<State>, acts: seq<Action>, k: nat)
    requires Run(states, acts) && Init(states[0]) && k <= |acts|
    ensures TaskSteps(acts[..k]) + Total(StepsLeft, states[k].tasks) <= 20 * |states[0].tasks|
  {
    if k == 0 {
      InitialSteps(states[0].tasks);
    } else {
      TaskStepsBounded(states, acts, k - 1);
      assert acts[..k][..k - 1] == acts[..k - 1];
      StepsFall(states[k - 1], acts[k - 1]);
    }
  }
}
