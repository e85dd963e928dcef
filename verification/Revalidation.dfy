/**
  Serving while revalidating: every stale answer asks for one refresh, what is fetched is
  written down, and what was written is what later lookups answer.
*/
module Revalidation {
  import opened Wrappers
  import opened Cache
  import opened SingleFlight
  import opened CoherenceInvariants
  import opened CounterInvariants
  import opened LostWakeup
  import opened FollowerMiss

  // ── One refresh for a stale answer ────────────────────────────────────────────

  /**
    A query whose first lookup was stale and that has returned was answered with that value,
    after it had been granted or refused the slot to refresh it.
  */
  lemma StaleHitAsksForRefresh(states: seq<State>, acts: seq<Action>, k: nat, i: nat, value: Payload)
    requires Run(states, acts) && Init(states[0]) && k < |states| && i < |states[k].tasks|
    requires states[k].tasks[i].pc.Returned? && states[k].tasks[i].path != []
    requires states[k].tasks[i].path[0] == Saw(StaleHit(value))
    ensures states[k].tasks[i].pc.answer.Cached? && states[k].tasks[i].pc.answer.value == value
    ensures states[k].tasks[i].path == [Saw(StaleHit(value)), Granted]
            || states[k].tasks[i].path == [Saw(StaleHit(value)), Denied]
  {
    hide Next, DataInv, CountersOk;
    InitEstablishes(states[0]);
    InvAlong(states, acts, k);
    assert PathOk(states[k].tasks[i]);
  }

  /** A slot is refused exactly at the cap or when the key's slot is taken, and granted otherwise. */
  lemma RefusedForAReason(s: State, i: nat, choice: Choice)
    requires Enabled(s, Advance(i, choice)) && i < |Next(s, Advance(i, choice)).tasks|
    requires s.tasks[i].pc.CheckLength? || s.tasks[i].pc.ClaimEntry?
    ensures var path, after := s.tasks[i].path, Next(s, Advance(i, choice)).tasks[i].path;
            && (after == path + [Denied] <==>
                  (s.tasks[i].pc.CheckLength? && |s.inFlight| >= MAX_INFLIGHT_REFRESHES)
                  || (s.tasks[i].pc.ClaimEntry? && s.tasks[i].Key() in s.inFlight))
            && (after == path + [Granted] <==> s.tasks[i].pc.ClaimEntry? && s.tasks[i].Key() !in s.inFlight)
  {
    AdvanceShape(s, i, choice);
    var path, after := s.tasks[i].path, Next(s, Advance(i, choice)).tasks[i].path;
    hide Next;
    assert after == path + Noted(s, i);
    assert (path + [Denied])[|path|] == Denied && (path + [Granted])[|path|] == Granted;
  }

  lemma SpawnCounts(s: State, u: State, i: nat)
    requires i < |s.tasks| && SpawnStep(s, u, i) && PathOk(s.tasks[i]) && PathOk(u.tasks[i])
    ensures Total(Spawners, u.tasks) == Total(Spawners, s.tasks) + 1
    ensures Total(Refreshers, u.tasks) == Total(Refreshers, s.tasks) + 1
  {
    hide Total;
    TotalStep(Spawners, s.tasks, u.tasks, i);
    TotalStep(Refreshers, s.tasks, u.tasks, i);
  }

  lemma ClaimNeverReturnsGranted(s: State, i: nat, choice: Choice)
    requires i < |s.tasks| && CanAdvance(s, i, choice) && s.tasks[i].pc.Claiming() && !s.tasks[i].pc.SpawnRefresh?
    ensures var u := NextClaiming(s, i, choice);
            |u.tasks| > i && (u.tasks[i].pc.Returned? ==> u.tasks[i].path == s.tasks[i].path + [Denied])
  {
  }

  /** Only the step that spawns a refresh ends a task as a spawner. */
  lemma NotSpawned(s: State, i: nat, choice: Choice)
    requires Enabled(s, Advance(i, choice)) && PathsOk(s) && !s.tasks[i].pc.SpawnRefresh?
    ensures i < |Next(s, Advance(i, choice)).tasks| && !Spawned(Next(s, Advance(i, choice)).tasks[i])
  {
    var u := Next(s, Advance(i, choice));
    AdvanceShape(s, i, choice);
    PathStep(s, Advance(i, choice));
    assert PathOk(s.tasks[i]) && PathOk(u.tasks[i]);
    if s.tasks[i].pc.Claiming() { ClaimNeverReturnsGranted(s, i, choice); }
    hide Next, NextReading, NextClaiming, NextAwaiting, NextLeading, NextDropping;
    var path := s.tasks[i].path;
    assert u.tasks[i].path == path + Noted(s, i);
    assert path + [] == path;
  }

  lemma RefreshersOnCancel(s: State, i: nat)
    requires Enabled(s, Cancel(i))
    ensures var u := Next(s, Cancel(i));
            && Total(Spawners, u.tasks) == Total(Spawners, s.tasks)
            && Total(Refreshers, u.tasks) == Total(Refreshers, s.tasks)
  {
    var u := Next(s, Cancel(i));
    CancelShape(s, i);
    assert !Spawned(s.tasks[i]) && !Spawned(u.tasks[i]);
    hide Next, Total, Spawned;
    TotalStep(Spawners, s.tasks, u.tasks, i);
    TotalStep(Refreshers, s.tasks, u.tasks, i);
  }

  lemma OwnStepCounts(s: State, u: State, i: nat)
    requires i < |s.tasks| && OwnStep(s, u, i) && !Spawned(s.tasks[i]) && !Spawned(u.tasks[i])
    ensures Total(Spawners, u.tasks) == Total(Spawners, s.tasks)
    ensures Total(Refreshers, u.tasks) == Total(Refreshers, s.tasks)
  {
    hide Total, Spawned;
    TotalStep(Spawners, s.tasks, u.tasks, i);
    TotalStep(Refreshers, s.tasks, u.tasks, i);
  }

  lemma SpawnOnly(s: State, i: nat, choice: Choice)
    requires Enabled(s, Advance(i, choice)) && s.tasks[i].pc.SpawnRefresh?
    ensures SpawnStep(s, Next(s, Advance(i, choice)), i)
  {
  }

  lemma RefreshersOnAdvance(s: State, i: nat, choice: Choice)
    requires Enabled(s, Advance(i, choice)) && PathsOk(s) && Total(Spawners, s.tasks) == Total(Refreshers, s.tasks)
    ensures var u := Next(s, Advance(i, choice)); Total(Spawners, u.tasks) == Total(Refreshers, u.tasks)
  {
    var u := Next(s, Advance(i, choice));
    AdvanceShape(s, i, choice);
    PathStep(s, Advance(i, choice));
    assert PathOk(s.tasks[i]) && PathOk(u.tasks[i]);
    if s.tasks[i].pc.SpawnRefresh? {
      SpawnOnly(s, i, choice);
      SpawnCounts(s, u, i);
    } else {
      NotSpawned(s, i, choice);
      hide Next;
      OwnStepCounts(s, u, i);
    }
  }

  lemma RefreshersStep(s: State, a: Action)
    requires Enabled(s, a) && PathsOk(s) && Total(Spawners, s.tasks) == Total(Refreshers, s.tasks)
    ensures Total(Spawners, Next(s, a).tasks) == Total(Refreshers, Next(s, a).tasks)
  {
    match a
    case Tick(_) =>
    case Evict(_) =>
    case Cancel(i) => RefreshersOnCancel(s, i);
    case Advance(i, choice) => RefreshersOnAdvance(s, i, choice);
  }

  lemma {:induction false} NobodyYet(tasks: seq<Task>)
    requires forall i | 0 <= i < |tasks| :: tasks[i].pc == Lookup(false) && !tasks[i].background
    ensures Total(Spawners, tasks) == Total(Refreshers, tasks) == 0
  {
    if tasks != [] { NobodyYet(tasks[..|tasks| - 1]); }
  }

  /** In every state of every run there is one background refresh for each stale answer granted the slot. */
  lemma {:induction false} OneRefreshPerGrant(states: seq<State>, acts: seq<Action>, k: nat)
    requires Run(states, acts) && Init(states[0]) && k <= |acts|
    ensures Total(Spawners, states[k].tasks) == Total(Refreshers, states[k].tasks)
  {
    if k == 0 {
      NobodyYet(states[0].tasks);
    } else {
      OneRefreshPerGrant(states, acts, k - 1);
      InitEstablishes(states[0]);
      InvAlong(states, acts, k - 1);
      RefreshersStep(states[k - 1], acts[k - 1]);
    }
  }

  // ── What is fetched is stored ─────────────────────────────────────────────────

  /** `w` is the write of fetch `f` of `query`, with the windows of its kind. */
  predicate WritesDown(w: Write, query: Query, f: nat, outcome: Outcome, stamp: nat) {
    && w.query == query && w.fetch == f && w.entry.insertedAt == stamp
    && match outcome
       case Fetched(value) =>
         && w.entry.content == Hit(value)
         && w.entry.ttl == query.kind.Ttl() && w.entry.staleTtl == StaleWindow(query.kind.Ttl())
       case NotFound => w.entry.content == Negative && w.entry.ttl == 600 * SECOND && w.entry.staleTtl == 0
       case Failed => false
  }

  /** Task `i` stores fetch `f` with this outcome in the step: any success, and in the foreground a 404. */
  predicate StoresFetch(s: State, a: Action, i: nat, f: nat, outcome: Outcome) {
    && a.Advance? && a.task == i && i < |s.tasks| && s.tasks[i].pc == Storing(f)
    && f < |s.fetches| && s.fetches[f].outcome == outcome
    && (outcome.Fetched? || (outcome.NotFound? && !s.tasks[i].background))
  }

  lemma StoreWrites(s: State, a: Action, i: nat, f: nat, outcome: Outcome)
    requires Enabled(s, a) && StoresFetch(s, a, i, f, outcome)
    ensures var t, key := Next(s, a), s.tasks[i].Key();
            && |t.log| == |s.log| + 1 && WritesDown(t.log[|s.log|], s.tasks[i].query, f, outcome, a.choice.stamp)
            && key in t.store && t.store[key] == t.log[|s.log|].entry
            && s.fetches[f].at <= a.choice.stamp <= s.now
  {
  }

  lemma LeadingLogs(s: State, i: nat, choice: Choice)
    requires i < |s.tasks| && CanAdvance(s, i, choice) && s.tasks[i].pc.Leading()
    ensures s.log <= NextLeading(s, i, choice).log && s.fetches <= NextLeading(s, i, choice).fetches
  {
    hide EntryFor;
  }

  lemma OthersLogNothing(s: State, i: nat, choice: Choice)
    requires Enabled(s, Advance(i, choice)) && !s.tasks[i].pc.Leading()
    ensures Next(s, Advance(i, choice)).log == s.log && Next(s, Advance(i, choice)).fetches == s.fetches
  {
  }

  lemma HistoryGrows(s: State, a: Action)
    requires Enabled(s, a)
    ensures s.log <= Next(s, a).log && s.fetches <= Next(s, a).fetches
  {
    if a.Advance? {
      hide NextReading, NextClaiming, NextAwaiting, NextLeading, NextDropping;
      if s.tasks[a.task].pc.Leading() { LeadingLogs(s, a.task, a.choice); }
      else { OthersLogNothing(s, a.task, a.choice); }
    }
  }

  lemma {:induction false} HistoryGrowsAlong(states: seq<State>, acts: seq<Action>, j: nat, k: nat)
    requires Run(states, acts) && j <= k <= |acts|
    ensures states[j].log <= states[k].log && states[j].fetches <= states[k].fetches
  {
    hide Next;
    if j < k {
      HistoryGrowsAlong(states, acts, j, k - 1);
      HistoryGrows(states[k - 1], acts[k - 1]);
    }
  }

  /** In some step from `j` on, before `k`, task `i` leaves `Storing(f)`. */
  lemma {:induction false} FindStore(states: seq<State>, acts: seq<Action>, j: nat, k: nat, i: nat, f: nat)
    returns (m: nat)
    requires Run(states, acts) && j < k <= |acts| && i < |states[j].tasks| && states[j].tasks[i].pc == Storing(f)
    requires i < |states[k].tasks| && states[k].tasks[i].pc != Storing(f)
    ensures j <= m < k && acts[m].Advance? && acts[m].task == i && i < |states[m].tasks|
    ensures states[m].tasks[i] == states[j].tasks[i]
    decreases k - j
  {
    if acts[j].Advance? && acts[j].task == i {
      m := j;
    } else {
      RankStep(states[j], acts[j], i);
      OthersUnmoved(states[j], acts[j], i);
      m := FindStore(states, acts, j + 1, k, i, f);
    }
  }

  lemma FetchIsLogged(s: State, a: Action, i: nat)
    requires Enabled(s, a) && a.Advance? && a.task == i && s.tasks[i].pc == Fetching
    ensures var t := Next(s, a);
            && i < |t.tasks| && t.tasks[i].pc == Storing(|s.fetches|) && t.tasks[i].query == s.tasks[i].query
            && t.tasks[i].background == s.tasks[i].background
            && t.fetches == s.fetches + [Fetch(s.tasks[i].Key(), a.choice.outcome, s.now)]
  {
  }

  /**
    In every run, once a task that fetched successfully (step `j`), in the background too, or that
    got a 404 in the foreground, has left the storing that follows, its fetch is written down under
    its query.
  */
  lemma WhatIsFetchedIsStored(states: seq<State>, acts: seq<Action>, j: nat, k: nat, i: nat)
    returns (w: nat, stamp: nat)
    requires Run(states, acts) && Init(states[0]) && j < k <= |acts|
    requires acts[j].Advance? && acts[j].task == i && i < |states[j].tasks| && states[j].tasks[i].pc == Fetching
    requires acts[j].choice.outcome.Fetched? || (acts[j].choice.outcome.NotFound? && !states[j].tasks[i].background)
    requires i < |states[k].tasks| && !states[k].tasks[i].pc.Storing?
    ensures w < |states[k].log|
    ensures WritesDown(states[k].log[w], states[j].tasks[i].query, |states[j].fetches|, acts[j].choice.outcome, stamp)
  {
    FetchIsLogged(states[j], acts[j], i);
    var f := |states[j].fetches|;
    var m := FindStore(states, acts, j + 1, k, i, f);
    HistoryGrowsAlong(states, acts, j + 1, m);
    StoreWrites(states[m], acts[m], i, f, acts[j].choice.outcome);
    w, stamp := |states[m].log|, acts[m].choice.stamp;
    HistoryGrowsAlong(states, acts, m + 1, k);
  }

  // ── What is stored is served ──────────────────────────────────────────────────

  lemma ReadingKeepsEntry(s: State, i: nat, choice: Choice, key: string)
    requires Enabled(s, Advance(i, choice)) && s.tasks[i].pc.Reading()
    requires key in s.store && !Invalidates(s, Advance(i, choice), key)
    ensures key in NextReading(s, i).store && NextReading(s, i).store[key] == s.store[key]
  {
  }

  lemma LeadingKeepsEntry(s: State, i: nat, choice: Choice, key: string)
    requires Enabled(s, Advance(i, choice)) && s.tasks[i].pc.Leading() && key in s.store
    requires !Stores(s, Advance(i, choice), key)
    ensures key in NextLeading(s, i, choice).store && NextLeading(s, i, choice).store[key] == s.store[key]
  {
  }

  lemma EntryStep(s: State, a: Action, key: string)
    requires Enabled(s, a) && key in s.store && !Removes(s, a, key) && !Stores(s, a, key)
    ensures key in Next(s, a).store && Next(s, a).store[key] == s.store[key]
  {
    if a.Advance? {
      var pc := s.tasks[a.task].pc;
      hide NextReading, NextClaiming, NextAwaiting, NextLeading, NextDropping, Invalidates, Stores;
      if pc.Reading() { ReadingKeepsEntry(s, a.task, a.choice, key); }
      else if pc.Leading() { LeadingKeepsEntry(s, a.task, a.choice, key); }
      else { OthersKeepStore(s, a.task, a.choice); }
    }
  }

  lemma {:induction false} EntryAlong(states: seq<State>, acts: seq<Action>, j: nat, k: nat, key: string)
    requires Run(states, acts) && j <= k <= |acts| && key in states[j].store
    requires forall x | j <= x < k :: !Removes(states[x], acts[x], key) && !Stores(states[x], acts[x], key)
    ensures key in states[k].store && states[k].store[key] == states[j].store[key]
  {
    hide Next, Removes, Stores;
    if j < k {
      EntryAlong(states, acts, j, k - 1, key);
      EntryStep(states[k - 1], acts[k - 1], key);
    }
  }

  lemma LookupSees(s: State, a: Action, i: nat)
    requires Enabled(s, a) && a.Advance? && a.task == i && s.tasks[i].pc.Lookup?
    ensures var t := Next(s, a);
            && i < |t.tasks| && t.tasks[i].pc.Classify? && t.tasks[i].pc.seen == Read(s, s.tasks[i].Key())
            && t.tasks[i].query == s.tasks[i].query
  {
  }

  /** What a reader answers from a fresh entry. */
  function ServedAs(outcome: Outcome, now: nat): Answer
    requires !outcome.Failed?
  {
    if outcome.Fetched? then Cached(outcome.value, now) else ShortCircuited(now)
  }

  lemma FreshEntryIsServed(s: State, a: Action, i: nat, w: Write, query: Query, f: nat, outcome: Outcome, stamp: nat)
    requires Enabled(s, a) && a.Advance? && a.task == i && s.tasks[i].pc.Classify? && !outcome.Failed?
    requires WritesDown(w, query, f, outcome, stamp) && s.tasks[i].pc.seen == Some(w.entry)
    requires stamp <= s.now <= stamp + (if outcome.Fetched? then query.kind.Ttl() else 600 * SECOND)
    ensures i < |Next(s, a).tasks| && Next(s, a).tasks[i].pc == Returned(ServedAs(outcome, s.now))
  {
  }

  lemma ClockStep(s: State, a: Action)
    requires Enabled(s, a)
    ensures s.now <= Next(s, a).now
  {
    hide EntryFor, StatusAt, AfterStatus, Deny, Exit;
  }

  lemma {:induction false} ClockAlong(states: seq<State>, acts: seq<Action>, j: nat, k: nat)
    requires Run(states, acts) && j <= k <= |acts|
    ensures states[j].now <= states[k].now
  {
    hide Next;
    if j < k {
      ClockAlong(states, acts, j, k - 1);
      ClockStep(states[k - 1], acts[k - 1]);
    }
  }

  /** A reader that has looked is not dropped before it classifies. */
  lemma {:induction false} StaysToClassify(states: seq<State>, acts: seq<Action>, j: nat, k: nat, i: nat)
    requires Run(states, acts) && j <= k <= |acts| && i < |states[j].tasks| && states[j].tasks[i].pc.Classify?
    requires forall x | j <= x < k :: !(acts[x].Advance? && acts[x].task == i)
    ensures i < |states[k].tasks| && states[k].tasks[i] == states[j].tasks[i]
  {
    if j < k {
      StaysToClassify(states, acts, j, k - 1, i);
      assert Enabled(states[k - 1], acts[k - 1]);
      hide Next;
      RankStep(states[k - 1], acts[k - 1], i);
      OthersUnmoved(states[k - 1], acts[k - 1], i);
    }
  }

  /**
    In every run, a lookup that reads after a fetch was stored (step `e`), with no removal or other
    write of the key before its read (step `r`), and that classifies (step `k`) within the entry's
    time to live, is answered with what was fetched.
  */
  lemma WhatIsStoredIsServed(states: seq<State>, acts: seq<Action>, e: nat, r: nat, k: nat, j: nat, i: nat, f: nat)
    requires Run(states, acts) && Init(states[0]) && e < r < k < |acts| && f < |states[e].fetches|
    requires StoresFetch(states[e], acts[e], j, f, states[e].fetches[f].outcome)
    requires acts[r].Advance? && acts[r].task == i && i < |states[r].tasks| && states[r].tasks[i].pc.Lookup?
    requires states[r].tasks[i].Key() == states[e].tasks[j].Key()
    requires forall x | e < x < r ::
               && !Removes(states[x], acts[x], states[e].tasks[j].Key())
               && !Stores(states[x], acts[x], states[e].tasks[j].Key())
    requires forall x | r < x < k :: !(acts[x].Advance? && acts[x].task == i)
    requires acts[k].Advance? && acts[k].task == i
    requires var query := states[e].tasks[j].query;
             states[k].now <= acts[e].choice.stamp
                              + if states[e].fetches[f].outcome.Fetched? then query.kind.Ttl() else 600 * SECOND
    ensures i < |states[k + 1].tasks|
    ensures states[k + 1].tasks[i].pc == Returned(ServedAs(states[e].fetches[f].outcome, states[k].now))
  {
    var key, query, outcome := states[e].tasks[j].Key(), states[e].tasks[j].query, states[e].fetches[f].outcome;
    StoreWrites(states[e], acts[e], j, f, outcome);
    var w := states[e + 1].log[|states[e].log|];
    EntryAlong(states, acts, e + 1, r, key);
    LookupSees(states[r], acts[r], i);
    StaysToClassify(states, acts, r + 1, k, i);
    ClockAlong(states, acts, e, k);
    FreshEntryIsServed(states[k], acts[k], i, w, query, f, outcome, acts[e].choice.stamp);
  }

  // ── What is removed is missed ─────────────────────────────────────────────────

  lemma LeadingBringsNothing(s: State, i: nat, choice: Choice, key: string)
    requires Enabled(s, Advance(i, choice)) && s.tasks[i].pc.Leading() && key !in s.store
    requires !Stores(s, Advance(i, choice), key)
    ensures key !in NextLeading(s, i, choice).store
  {
  }

  lemma AbsentStep(s: State, a: Action, key: string)
    requires Enabled(s, a) && key !in s.store && !Stores(s, a, key)
    ensures key !in Next(s, a).store
  {
    if a.Advance? {
      var pc := s.tasks[a.task].pc;
      hide NextClaiming, NextAwaiting, NextLeading, NextDropping, Stores;
      if pc.Leading() { LeadingBringsNothing(s, a.task, a.choice, key); }
      else if !pc.Reading() { OthersKeepStore(s, a.task, a.choice); }
    }
  }

  lemma {:induction false} AbsentAlong(states: seq<State>, acts: seq<Action>, j: nat, k: nat, key: string)
    requires Run(states, acts) && j <= k <= |acts| && key !in states[j].store
    requires forall x | j <= x < k :: !Stores(states[x], acts[x], key)
    ensures key !in states[k].store
  {
    hide Next, Stores;
    if j < k {
      AbsentAlong(states, acts, j, k - 1, key);
      AbsentStep(states[k - 1], acts[k - 1], key);
    }
  }

  lemma RemovalLands(s: State, a: Action, key: string)
    requires Enabled(s, a) && Removes(s, a, key)
    ensures key !in Next(s, a).store
  {
  }

  /**
    In every run, a lookup that reads after an entry was evicted, or invalidated by a reader that
    found it over (step `e`), with no write of the key before its read (step `r`), misses.
  */
  lemma WhatIsRemovedIsMissed(states: seq<State>, acts: seq<Action>, e: nat, r: nat, k: nat, i: nat)
    requires Run(states, acts) && e < r < k < |acts|
    requires acts[r].Advance? && acts[r].task == i && i < |states[r].tasks| && states[r].tasks[i].pc.Lookup?
    requires Removes(states[e], acts[e], states[r].tasks[i].Key())
    requires forall x | e < x < r :: !Stores(states[x], acts[x], states[r].tasks[i].Key())
    requires forall x | r < x < k :: !(acts[x].Advance? && acts[x].task == i)
    requires acts[k].Advance? && acts[k].task == i
    ensures i < |states[k].tasks| && i < |states[k + 1].tasks|
    ensures states[k + 1].tasks[i].path == states[k].tasks[i].path + [Saw(Miss)]
  {
    var key := states[r].tasks[i].Key();
    RemovalLands(states[e], acts[e], key);
    AbsentAlong(states, acts, e + 1, r, key);
    LookupSees(states[r], acts[r], i);
    StaysToClassify(states, acts, r + 1, k, i);
    assert Enabled(states[k], acts[k]);
    AdvanceShape(states[k], i, acts[k].choice);
  }
}
