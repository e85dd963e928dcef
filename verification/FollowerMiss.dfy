/**
  Why a woken follower can miss: what its leader wrote, if anything, was removed or has
  outlived its windows. One remover is another reader that looked before the write.
*/
module FollowerMiss {
  import opened Wrappers
  import opened Cache
  import opened SingleFlight
  import opened CounterInvariants
  import opened SingleFlightTheorems
  import opened LostWakeup

  /** In this step some task writes its fetch under `key`: a success, or in the foreground a 404. */
  predicate Stores(s: State, a: Action, key: string) {
    && a.Advance? && a.task < |s.tasks| && s.tasks[a.task].Key() == key
    && s.tasks[a.task].pc.Storing? && s.tasks[a.task].pc.fetch < |s.fetches|
    && var outcome := s.fetches[s.tasks[a.task].pc.fetch].outcome;
       outcome.Fetched? || (outcome.NotFound? && !s.tasks[a.task].background)
  }

  /** In this step the holder of notify `n` writes its fetch under `key`. */
  predicate WritesFor(s: State, a: Action, n: nat, key: string) {
    && a.Advance? && a.task < |s.tasks| && s.tasks[a.task].guard == Some(n) && s.tasks[a.task].Key() == key
    && Stores(s, a, key)
  }

  /** In this step a reader invalidates `key`, having found an entry that is over by now. */
  predicate Invalidates(s: State, a: Action, key: string) {
    && a.Advance? && a.task < |s.tasks| && s.tasks[a.task].Key() == key && s.tasks[a.task].pc.Classify?
    && s.tasks[a.task].pc.seen.Some? && StatusAt(s.tasks[a.task].pc.seen, s.now) == Miss
  }

  predicate Removes(s: State, a: Action, key: string) { a == Evict(key) || Invalidates(s, a, key) }

  predicate Rereads(s: State, a: Action, i: nat) {
    a.Advance? && a.task == i && i < |s.tasks| && s.tasks[i].pc == Lookup(true)
  }

  predicate Outlived(e: Entry, now: nat) { e.Age(now) > if e.content.Hit? then e.ttl + e.staleTtl else e.ttl }

  function Read(s: State, key: string): Option<Entry> { if key in s.store then Some(s.store[key]) else None }

  // ── From the reread back to the write ─────────────────────────────────────────

  lemma ReadingEntered(s: State, i: nat)
    requires i < |s.tasks| && s.tasks[i].pc.Reading() && NextReading(s, i).tasks[i].pc.Classify?
    ensures var task := NextReading(s, i).tasks[i];
            && s.tasks[i].pc == Lookup(task.pc.second) && task.query == s.tasks[i].query
            && task.pc.seen == Read(s, task.Key())
  {
  }

  lemma ClaimingElsewhere(s: State, i: nat, choice: Choice)
    requires Enabled(s, Advance(i, choice)) && s.tasks[i].pc.Claiming()
    ensures i < |NextClaiming(s, i, choice).tasks| && !NextClaiming(s, i, choice).tasks[i].pc.Classify?
  {
  }

  lemma AwaitingElsewhere(s: State, i: nat, choice: Choice)
    requires Enabled(s, Advance(i, choice)) && s.tasks[i].pc.Awaiting()
    ensures i < |NextAwaiting(s, i, choice).tasks| && !NextAwaiting(s, i, choice).tasks[i].pc.Classify?
  {
  }

  lemma LeadingElsewhere(s: State, i: nat, choice: Choice)
    requires Enabled(s, Advance(i, choice)) && s.tasks[i].pc.Leading()
    ensures i < |NextLeading(s, i, choice).tasks| && !NextLeading(s, i, choice).tasks[i].pc.Classify?
  {
  }

  lemma DroppingElsewhere(s: State, i: nat, choice: Choice)
    requires Enabled(s, Advance(i, choice)) && s.tasks[i].pc.Dropping()
    ensures i < |NextDropping(s, i, choice).tasks| && !NextDropping(s, i, choice).tasks[i].pc.Classify?
  {
  }

  lemma NotReadingEntered(s: State, i: nat, choice: Choice)
    requires Enabled(s, Advance(i, choice)) && !s.tasks[i].pc.Reading()
    ensures i < |Next(s, Advance(i, choice)).tasks| && !Next(s, Advance(i, choice)).tasks[i].pc.Classify?
  {
    var pc := s.tasks[i].pc;
    hide NextReading, NextClaiming, NextAwaiting, NextLeading, NextDropping;
    if pc.Claiming() { ClaimingElsewhere(s, i, choice); }
    else if pc.Awaiting() { AwaitingElsewhere(s, i, choice); }
    else if pc.Leading() { LeadingElsewhere(s, i, choice); }
    else { DroppingElsewhere(s, i, choice); }
  }

  lemma ClassifyEntered(s: State, a: Action, i: nat)
    requires Enabled(s, a) && i < |Next(s, a).tasks| && Next(s, a).tasks[i].pc.Classify?
        && Next(s, a).tasks[i].pc.second
    ensures i < |s.tasks|
    ensures var task := Next(s, a).tasks[i];
            s.tasks[i] == task
            || (Rereads(s, a, i) && task.query == s.tasks[i].query && task.pc.seen == Read(s, task.Key()))
  {
    if a.Advance? && a.task == i {
      if s.tasks[i].pc.Reading() { ReadingEntered(s, i); } else { NotReadingEntered(s, i, a.choice); }
    } else if a.Cancel? && a.task == i {
      CancelShape(s, i);
    } else {
      OthersUnmoved(s, a, i);
    }
  }

  lemma {:induction false} FindReread(states: seq<State>, acts: seq<Action>, k: nat, i: nat) returns (r: nat)
    requires Run(states, acts) && Init(states[0]) && k <= |acts|
    requires i < |states[k].tasks| && states[k].tasks[i].pc.Classify? && states[k].tasks[i].pc.second
    ensures r < k && Rereads(states[r], acts[r], i) && states[r].tasks[i].query == states[k].tasks[i].query
    ensures states[k].tasks[i].pc.seen == Read(states[r], states[k].tasks[i].Key())
  {
    ClassifyEntered(states[k - 1], acts[k - 1], i);
    r := k - 1;
    if states[r].tasks[i].pc.Classify? { r := FindReread(states, acts, r, i); }
  }

  lemma RankStep(s: State, a: Action, i: nat)
    requires Enabled(s, a) && i < |s.tasks|
    ensures i < |Next(s, a).tasks| && Rank(Next(s, a).tasks[i].pc) <= Rank(s.tasks[i].pc)
  {
    match a
    case Tick(_) =>
    case Evict(_) =>
    case Cancel(j) => CancelShape(s, j);
    case Advance(j, choice) =>
      hide Next;
      AdvanceShape(s, j, choice);
      RankFalls(s, j, choice);
  }

  /** A task only ever moves on. */
  lemma {:induction false} RankAlong(states: seq<State>, acts: seq<Action>, j: nat, k: nat, i: nat)
    requires Run(states, acts) && j <= k <= |acts| && i < |states[j].tasks|
    ensures i < |states[k].tasks| && Rank(states[k].tasks[i].pc) <= Rank(states[j].tasks[i].pc)
  {
    if j < k {
      RankAlong(states, acts, j, k - 1, i);
      RankStep(states[k - 1], acts[k - 1], i);
    }
  }

  lemma ReadingKeepsKey(s: State, i: nat, choice: Choice, key: string)
    requires Enabled(s, Advance(i, choice)) && s.tasks[i].pc.Reading()
    requires key in s.store && !Invalidates(s, Advance(i, choice), key)
    ensures key in NextReading(s, i).store
  {
  }

  lemma LeadingKeepsKey(s: State, i: nat, choice: Choice, key: string)
    requires Enabled(s, Advance(i, choice)) && s.tasks[i].pc.Leading() && key in s.store
    ensures key in NextLeading(s, i, choice).store
  {
    hide EntryFor;
  }

  lemma OthersKeepStore(s: State, i: nat, choice: Choice)
    requires Enabled(s, Advance(i, choice)) && !s.tasks[i].pc.Reading() && !s.tasks[i].pc.Leading()
    ensures Next(s, Advance(i, choice)).store == s.store
  {
  }

  lemma KeptStep(s: State, a: Action, key: string)
    requires Enabled(s, a) && key in s.store && !Removes(s, a, key)
    ensures key in Next(s, a).store
  {
    if a.Advance? {
      var pc := s.tasks[a.task].pc;
      hide NextReading, NextClaiming, NextAwaiting, NextLeading, NextDropping, Invalidates;
      if pc.Reading() { ReadingKeepsKey(s, a.task, a.choice, key); }
      else if pc.Leading() { LeadingKeepsKey(s, a.task, a.choice, key); }
      else { OthersKeepStore(s, a.task, a.choice); }
    }
  }

  lemma {:induction false} KeptAlong(states: seq<State>, acts: seq<Action>, j: nat, k: nat, key: string)
    requires Run(states, acts) && j <= k <= |acts| && key in states[j].store
    requires forall x | j <= x < k :: !Removes(states[x], acts[x], key)
    ensures key in states[k].store
  {
    hide Next, Removes;
    if j < k {
      KeptAlong(states, acts, j, k - 1, key);
      KeptStep(states[k - 1], acts[k - 1], key);
    }
  }

  lemma WriteLands(s: State, a: Action, n: nat, key: string)
    requires Enabled(s, a) && WritesFor(s, a, n, key)
    ensures key in Next(s, a).store
  {
  }

  /** Between its write at `e` and the reread at `r` the key was removed. */
  ghost predicate RemovedBetween(states: seq<State>, acts: seq<Action>, e: nat, r: nat, key: string)
    requires r <= |acts| <= |states|
  {
    exists x :: e < x < r && Removes(states[x], acts[x], key)
  }

  lemma UnremovedIsRead(states: seq<State>, acts: seq<Action>, e: nat, r: nat, n: nat, key: string)
    requires Run(states, acts) && e < r <= |acts| && WritesFor(states[e], acts[e], n, key)
    requires !RemovedBetween(states, acts, e, r, key)
    ensures Read(states[r], key).Some?
  {
    WriteLands(states[e], acts[e], n, key);
    KeptAlong(states, acts, e + 1, r, key);
  }

  /**
    A follower that notify `n` woke, in step `w`, and whose classification in step `k` is a miss:
    the guard had notified before, and either what it reread has outlived its windows, or every
    write that the guard's holder made under the key before the reread, if any, was removed by then.
  */
  lemma FollowerMissHasCause(states: seq<State>, acts: seq<Action>, w: nat, k: nat, i: nat)
    returns (notified: nat, reread: nat)
    requires Run(states, acts) && Init(states[0]) && w < k < |acts|
    requires acts[w].Advance? && acts[w].task == i && i < |states[w].tasks| && states[w].tasks[i].pc.Blocked?
    requires i < |states[k].tasks| && states[k].tasks[i].pc.Classify?
    requires StatusAt(states[k].tasks[i].pc.seen, states[k].now) == Miss
    ensures notified < w < reread < k
    ensures Notifies(states[notified], acts[notified], states[w].tasks[i].pc.notify)
    ensures Rereads(states[reread], acts[reread], i)
    ensures var n, task := states[w].tasks[i].pc.notify, states[k].tasks[i];
            || (task.pc.seen.Some? && Outlived(task.pc.seen.value, states[k].now))
            || (forall e | 0 <= e < reread && WritesFor(states[e], acts[e], n, task.Key()) ::
                  RemovedBetween(states, acts, e, reread, task.Key()))
  {
    RankAlong(states, acts, w, k, i);
    reread := FindReread(states, acts, k, i);
    if reread <= w { RankAlong(states, acts, reread, w, i); }
    var n, key := states[w].tasks[i].pc.notify, states[k].tasks[i].Key();
    var registered := FindRegistration(states, acts, w, i);
    WakeupsGrowAlong(states, acts, registered, w, n);
    notified := FindNotify(states, acts, registered, w, n);
    if states[k].tasks[i].pc.seen.None? {
      forall e | 0 <= e < reread && WritesFor(states[e], acts[e], n, key)
        ensures RemovedBetween(states, acts, e, reread, key)
      {
        if !RemovedBetween(states, acts, e, reread, key) { UnremovedIsRead(states, acts, e, reread, n, key); }
      }
    }
  }
}
