/** Sums over tasks, the lookup counters, and the invariant of the shared cache as a whole. */
module CounterInvariants {
  import opened Cache
  import opened SingleFlight
  import opened SlotInvariants
  import opened CoherenceInvariants

  // ── Sums over tasks ───────────────────────────────────────────────────────────

  datatype Tally =
    | FreshSeen | StaleSeen | NegativeSeen | MissSeen | LookupsMade
    | Claimants | StepsLeft | FetchesLeft | Spawners | Refreshers
  {
    /** The tally counts observations. */
    predicate Seen() { FreshSeen? || StaleSeen? || NegativeSeen? || MissSeen? || LookupsMade? }
  }

  predicate Matches(t: Tally, o: Observation) {
    o.Saw? && match t
      case FreshSeen => o.status.FreshHit?
      case StaleSeen => o.status.StaleHit?
      case NegativeSeen => o.status.NegativeHit?
      case MissSeen => o.status.Miss?
      case LookupsMade => true
      case _ => false
  }

  function Observed(t: Tally, path: seq<Observation>): nat {
    if path == [] then 0
    else Observed(t, path[..|path| - 1]) + if Matches(t, path[|path| - 1]) then 1 else 0
  }

  /** An upper bound on the steps a task, and the refresh it may spawn, can still take. */
  function Rank(pc: Pc): nat {
    match pc
    case Lookup(second) => if second then 13 else 20
    case Classify(second, _, _) => if second then 12 else 19
    case CheckLength(goal) => if goal.SecondClaim? then 11 else 18
    case ClaimEntry(goal) => if goal.SecondClaim? then 10 else 17
    case SpawnRefresh(_, _) => 8
    case CloneNotify => 16
    case Register(_) => 15
    case Blocked(_, _) => 14
    case RateLimit => 7
    case Fetching => 6
    case Storing(_) => 5
    case RemoveSlot(_) => 4
    case NotifyWaiters(_) => 3
    case Returned(_) => 0
  }

  /** How many upstream fetches a task, and the refresh it may spawn, can still make. */
  function Budget(pc: Pc): nat {
    if pc.Storing? || pc.Dropping() || pc.Returned? then 0 else 1
  }

  /** The query was answered with a stale value and granted the slot to refresh it. */
  predicate Spawned(task: Task) {
    !task.background && task.pc.Returned? && task.pc.answer.Cached? && |task.path| == 2 && task.path[1] == Granted
  }

  function Amount(t: Tally, task: Task): nat {
    match t
    case Claimants => if task.pc.ClaimEntry? then 1 else 0
    case StepsLeft => Rank(task.pc)
    case FetchesLeft => Budget(task.pc)
    case Spawners => if Spawned(task) then 1 else 0
    case Refreshers => if task.background then 1 else 0
    case _ => Observed(t, task.path)
  }

  function Total(t: Tally, tasks: seq<Task>): nat {
    if tasks == [] then 0 else Total(t, tasks[..|tasks| - 1]) + Amount(t, tasks[|tasks| - 1])
  }

  lemma {:induction false} TotalUpdate(t: Tally, tasks: seq<Task>, i: nat, task: Task)
    requires i < |tasks|
    ensures Total(t, tasks[i := task]) == Total(t, tasks) - Amount(t, tasks[i]) + Amount(t, task)
  {
    var n := |tasks| - 1;
    var updated := tasks[i := task];
    if i == n {
      assert updated[..n] == tasks[..n];
    } else {
      assert updated[..n] == tasks[..n][i := task];
      TotalUpdate(t, tasks[..n], i, task);
    }
  }

  /** The effect on a sum of rewriting task `i` and perhaps appending one more. */
  lemma TotalStep(t: Tally, before: seq<Task>, after: seq<Task>, i: nat)
    requires i < |before| <= |after|
    requires after == before[i := after[i]] || after == before[i := after[i]] + [after[|after| - 1]]
    ensures Total(t, after) == Total(t, before) - Amount(t, before[i]) + Amount(t, after[i])
              + if |after| > |before| then Amount(t, after[|after| - 1]) else 0
  {
    TotalUpdate(t, before, i, after[i]);
    if |after| > |before| {
      assert after[..|after| - 1] == before[i := after[i]];
    }
  }

  /** The observation a step adds to its task's history. */
  function Noted(s: State, i: nat): seq<Observation>
    requires i < |s.tasks|
  {
    var task := s.tasks[i];
    match task.pc
    case Classify(_, seen, _) => [Saw(StatusAt(seen, s.now))]
    case CheckLength(_) => if |s.inFlight| >= MAX_INFLIGHT_REFRESHES then [Denied] else []
    case ClaimEntry(_) => if task.Key() in s.inFlight then [Denied] else [Granted]
    case _ => []
  }

  /** The step rewrote task `i` only, adding `Noted` to its history and counting what it saw. */
  predicate OwnStep(s: State, u: State, i: nat)
    requires i < |s.tasks|
  {
    && |u.tasks| == |s.tasks| && u.tasks == s.tasks[i := u.tasks[i]]
    && u.tasks[i].path == s.tasks[i].path + Noted(s, i) && u.tasks[i].background == s.tasks[i].background
    && u.counters == if s.tasks[i].pc.Classify?
                     then Counted(s.counters, StatusAt(s.tasks[i].pc.seen, s.now))
                     else s.counters
  }

  /** Holding a cloned notify. */
  predicate Waits(pc: Pc) { pc.Register? || pc.Blocked? }

  /** The step also appended the background refresh that a stale hit spawned. */
  predicate SpawnStep(s: State, u: State, i: nat)
    requires i < |s.tasks|
  {
    && s.tasks[i].pc.SpawnRefresh?
    && |u.tasks| == |s.tasks| + 1 && u.tasks == s.tasks[i := u.tasks[i]] + [u.tasks[|s.tasks|]]
    && u.tasks[|s.tasks|] == Task(s.tasks[i].query, true, RateLimit, s.tasks[i].guard, [])
    && u.tasks[i].pc.Returned? && u.tasks[i].path == s.tasks[i].path && u.tasks[i].background == s.tasks[i].background
    && u.counters == s.counters
  }

  lemma ReadingShape(s: State, i: nat)
    requires i < |s.tasks| && s.tasks[i].pc.Reading()
    ensures OwnStep(s, NextReading(s, i), i)
    ensures |NextReading(s, i).tasks| > i && !Waits(NextReading(s, i).tasks[i].pc)
  {
  }

  lemma ClaimingShape(s: State, i: nat, choice: Choice)
    requires i < |s.tasks| && s.tasks[i].pc.Claiming() && CanAdvance(s, i, choice)
    ensures OwnStep(s, NextClaiming(s, i, choice), i) || SpawnStep(s, NextClaiming(s, i, choice), i)
    ensures |NextClaiming(s, i, choice).tasks| > i && !Waits(NextClaiming(s, i, choice).tasks[i].pc)
  {
  }

  lemma AwaitingShape(s: State, i: nat, choice: Choice)
    requires i < |s.tasks| && s.tasks[i].pc.Awaiting() && CanAdvance(s, i, choice)
    ensures OwnStep(s, NextAwaiting(s, i, choice), i)
  {
  }

  lemma LeadingShape(s: State, i: nat, choice: Choice)
    requires i < |s.tasks| && s.tasks[i].pc.Leading() && CanAdvance(s, i, choice)
    ensures OwnStep(s, NextLeading(s, i, choice), i)
    ensures |NextLeading(s, i, choice).tasks| > i && !Waits(NextLeading(s, i, choice).tasks[i].pc)
  {
  }

  lemma DroppingShape(s: State, i: nat, choice: Choice)
    requires i < |s.tasks| && s.tasks[i].pc.Dropping() && CanAdvance(s, i, choice)
    ensures OwnStep(s, NextDropping(s, i, choice), i)
    ensures |NextDropping(s, i, choice).tasks| > i && !Waits(NextDropping(s, i, choice).tasks[i].pc)
  {
  }

  lemma AdvanceShape(s: State, i: nat, choice: Choice)
    requires Enabled(s, Advance(i, choice))
    ensures OwnStep(s, Next(s, Advance(i, choice)), i) || SpawnStep(s, Next(s, Advance(i, choice)), i)
    ensures |Next(s, Advance(i, choice)).tasks| > i
    ensures Waits(Next(s, Advance(i, choice)).tasks[i].pc) ==> s.tasks[i].pc.Awaiting()
  {
    var pc := s.tasks[i].pc;
    if pc.Reading() { ReadingShape(s, i); }
    else if pc.Claiming() { ClaimingShape(s, i, choice); }
    else if pc.Awaiting() { AwaitingShape(s, i, choice); }
    else if pc.Leading() { LeadingShape(s, i, choice); }
    else { DroppingShape(s, i, choice); }
  }

  lemma CancelShape(s: State, i: nat)
    requires Enabled(s, Cancel(i))
    ensures var u := Next(s, Cancel(i));
            && |u.tasks| == |s.tasks| && u.tasks == s.tasks[i := u.tasks[i]]
            && u.tasks[i].path == s.tasks[i].path && u.tasks[i].background == s.tasks[i].background
            && u.counters == s.counters
            && (u.tasks[i].pc.RemoveSlot? || u.tasks[i].pc.Returned?)
  {
  }

  predicate CountersOk(s: State) {
    && s.counters.hits == Total(FreshSeen, s.tasks)
    && s.counters.stale == Total(StaleSeen, s.tasks)
    && s.counters.negative == Total(NegativeSeen, s.tasks)
    && s.counters.misses == Total(MissSeen, s.tasks)
    && s.counters.hits + s.counters.stale + s.counters.negative + s.counters.misses == Total(LookupsMade, s.tasks)
  }

  lemma ObservedExtend(t: Tally, path: seq<Observation>, o: Observation)
    ensures Observed(t, path + [o]) == Observed(t, path) + if Matches(t, o) then 1 else 0
  {
    assert (path + [o])[..|path|] == path;
  }

  /** What the step of task `i` adds to tally `t`. */
  function Classified(t: Tally, s: State, i: nat): nat
    requires i < |s.tasks|
  {
    if s.tasks[i].pc.Classify? && Matches(t, Saw(StatusAt(s.tasks[i].pc.seen, s.now))) then 1 else 0
  }

  lemma ObservedNoted(t: Tally, s: State, i: nat)
    requires i < |s.tasks|
    ensures Observed(t, s.tasks[i].path + Noted(s, i)) == Observed(t, s.tasks[i].path) + Classified(t, s, i)
  {
    var path, noted := s.tasks[i].path, Noted(s, i);
    if noted == [] {
      assert path + noted == path;
    } else {
      assert noted == [noted[0]];
      ObservedExtend(t, path, noted[0]);
    }
  }

  lemma ObservedShape(t: Tally, s: State, u: State, i: nat)
    requires i < |s.tasks| && (OwnStep(s, u, i) || SpawnStep(s, u, i)) && t.Seen()
    ensures Total(t, u.tasks) == Total(t, s.tasks) + Classified(t, s, i)
  {
    TotalStep(t, s.tasks, u.tasks, i);
    ObservedNoted(t, s, i);
  }

  lemma ObservedStep(t: Tally, s: State, i: nat, choice: Choice)
    requires Enabled(s, Advance(i, choice)) && t.Seen()
    ensures Total(t, Next(s, Advance(i, choice)).tasks) == Total(t, s.tasks) + Classified(t, s, i)
  {
    AdvanceShape(s, i, choice);
    ObservedShape(t, s, Next(s, Advance(i, choice)), i);
  }

  lemma CountersAdvance(s: State, i: nat, choice: Choice)
    requires Enabled(s, Advance(i, choice)) && CountersOk(s)
    ensures CountersOk(Next(s, Advance(i, choice)))
  {
    AdvanceShape(s, i, choice);
    ObservedStep(FreshSeen, s, i, choice);
    ObservedStep(StaleSeen, s, i, choice);
    ObservedStep(NegativeSeen, s, i, choice);
    ObservedStep(MissSeen, s, i, choice);
    ObservedStep(LookupsMade, s, i, choice);
  }

  lemma CountersCancel(s: State, i: nat)
    requires Enabled(s, Cancel(i)) && CountersOk(s)
    ensures CountersOk(Next(s, Cancel(i)))
  {
    CancelShape(s, i);
    forall t: Tally | t.Seen() ensures Total(t, Next(s, Cancel(i)).tasks) == Total(t, s.tasks) {
      TotalStep(t, s.tasks, Next(s, Cancel(i)).tasks, i);
    }
  }

  ghost predicate Inv(s: State) { SlotInv(s) && DataInv(s) && PathsOk(s) && CountersOk(s) }

  lemma {:induction false} NothingObserved(t: Tally, tasks: seq<Task>)
    requires t.Seen()
    requires forall i | 0 <= i < |tasks| :: tasks[i].path == []
    ensures Total(t, tasks) == 0
  {
    if tasks != [] { NothingObserved(t, tasks[..|tasks| - 1]); }
  }

  lemma InitEstablishes(s: State)
    requires Init(s)
    ensures Inv(s)
  {
    NothingObserved(FreshSeen, s.tasks);
    NothingObserved(StaleSeen, s.tasks);
    NothingObserved(NegativeSeen, s.tasks);
    NothingObserved(MissSeen, s.tasks);
    NothingObserved(LookupsMade, s.tasks);
  }

  lemma InvStep(s: State, a: Action)
    requires Enabled(s, a) && Inv(s)
    ensures Inv(Next(s, a))
  {
    SlotStep(s, a);
    DataInvStep(s, a);
    PathStep(s, a);
    match a
    case Tick(_) =>
    case Evict(_) =>
    case Cancel(i) => CountersCancel(s, i);
    case Advance(i, choice) => CountersAdvance(s, i, choice);
  }

  lemma {:induction false} InvAlong(states: seq<State>, acts: seq<Action>, k: nat)
    requires Run(states, acts) && Inv(states[0]) && k < |states|
    ensures Inv(states[k])
  {
    if k > 0 {
      InvAlong(states, acts, k - 1);
      InvStep(states[k - 1], acts[k - 1]);
    }
  }

  /** The state occurs in some run. */
  ghost predicate Reachable(s: State) {
    exists states: seq<State>, acts: seq<Action> :: Run(states, acts) && Init(states[0]) && states[|acts|] == s
  }

  lemma ReachableInv(s: State)
    requires Reachable(s)
    ensures Inv(s)
  {
    var states: seq<State>, acts: seq<Action> :| Run(states, acts) && Init(states[0]) && states[|acts|] == s;
    InitEstablishes(states[0]);
    InvAlong(states, acts, |acts|);
  }
}
