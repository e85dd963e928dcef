/** Contents, task histories and counters: what every step of the shared cache keeps. */
module CoherenceInvariants {
  import opened Wrappers
  import opened Cache
  import opened SingleFlight

  // ── Contents ──────────────────────────────────────────────────────────────────

  /** `w` stores a fetch made under its own key, with the windows of its kind. */
  predicate WriteOk(fetches: seq<Fetch>, now: nat, w: Write) {
    && w.fetch < |fetches| && fetches[w.fetch].key == w.query.Key()
    && fetches[w.fetch].at <= w.entry.insertedAt <= now
    && match w.entry.content
       case Hit(value) =>
         && fetches[w.fetch].outcome == Fetched(value)
         && w.entry.ttl == w.query.kind.Ttl() && w.entry.staleTtl == StaleWindow(w.entry.ttl)
       case Negative =>
         && fetches[w.fetch].outcome == NotFound && !w.background
         && w.entry.ttl == NEGATIVE_TTL && w.entry.staleTtl == 0
  }

  predicate LogOk(s: State) {
    forall j | 0 <= j < |s.log| :: WriteOk(s.fetches, s.now, s.log[j])
  }

  /** The store is the last-write map with some entries missing. */
  predicate StoreOk(s: State) {
    forall k | k in s.store :: LastWrite(s.log, k) == Some(s.store[k])
  }

  /** Some write under `key` made `status` the answer at `at`. */
  ghost predicate Backed(log: seq<Write>, key: string, status: Status, at: nat) {
    exists j :: 0 <= j < |log| && log[j].query.Key() == key && log[j].entry.insertedAt <= at
                && StatusAt(Some(log[j].entry), at) == status
  }

  ghost predicate Served(s: State, key: string, value: Payload, at: nat) {
    at <= s.now && (Backed(s.log, key, FreshHit(value), at) || Backed(s.log, key, StaleHit(value), at))
  }

  /** Some write under `key` stored `content` as the result of fetch `f`. */
  ghost predicate Stored(log: seq<Write>, key: string, f: nat, content: Content) {
    exists j :: 0 <= j < |log| && log[j].query.Key() == key && log[j].fetch == f && log[j].entry.content == content
  }

  /** Fetch `f` had this outcome, and it is in the cache's history if it belongs there. */
  ghost predicate OutcomeStored(s: State, key: string, outcome: Outcome, f: nat) {
    && f < |s.fetches| && s.fetches[f].key == key && s.fetches[f].outcome == outcome
    && match outcome
       case Fetched(value) => Stored(s.log, key, f, Hit(value))
       case NotFound => Stored(s.log, key, f, Negative)
       case Failed => true
  }

  ghost predicate AnswerOk(s: State, key: string, answer: Answer) {
    match answer
    case Cached(value, at) => Served(s, key, value, at)
    case ShortCircuited(at) => at <= s.now && Backed(s.log, key, NegativeHit, at)
    case Upstream(outcome, f) => OutcomeStored(s, key, outcome, f)
    case _ => true
  }

  ghost predicate TaskDataOk(s: State, task: Task) {
    match task.pc
    case Classify(_, seen, from) => from <= |s.log| && (seen.Some? ==> LastWrite(s.log[..from], task.Key()) == seen)
    case CheckLength(goal) => goal.Refresh? ==> Served(s, task.Key(), goal.served, goal.at)
    case ClaimEntry(goal) => goal.Refresh? ==> Served(s, task.Key(), goal.served, goal.at)
    case SpawnRefresh(served, at) => Served(s, task.Key(), served, at)
    case Storing(f) => f < |s.fetches| && s.fetches[f].key == task.Key() && s.fetches[f].at <= s.now
    case RemoveSlot(answer) => AnswerOk(s, task.Key(), answer)
    case NotifyWaiters(answer) => AnswerOk(s, task.Key(), answer)
    case Returned(answer) => AnswerOk(s, task.Key(), answer)
    case _ => true
  }

  ghost predicate DataInv(s: State) {
    LogOk(s) && StoreOk(s) && forall i | 0 <= i < |s.tasks| :: TaskDataOk(s, s.tasks[i])
  }

  lemma {:induction false} LastWriteWitness(log: seq<Write>, key: string) returns (j: nat)
    requires LastWrite(log, key).Some?
    ensures j < |log| && log[j].query.Key() == key && LastWrite(log, key) == Some(log[j].entry)
  {
    j := |log| - 1;
    if log[j].query.Key() != key { j := LastWriteWitness(log[..j], key); }
  }

  /** History grew and time passed; the log gained at most one write. */
  predicate Later(s: State, t: State) {
    && s.now <= t.now
    && |s.fetches| <= |t.fetches| && t.fetches[..|s.fetches|] == s.fetches
    && |s.log| <= |t.log| <= |s.log| + 1 && t.log[..|s.log|] == s.log
  }

  lemma LaterKeepsTask(s: State, t: State, task: Task)
    requires Later(s, t) && TaskDataOk(s, task)
    ensures TaskDataOk(t, task)
  {
    forall key, status, at | Backed(s.log, key, status, at) ensures Backed(t.log, key, status, at) {
      var j :| 0 <= j < |s.log| && s.log[j].query.Key() == key && s.log[j].entry.insertedAt <= at
               && StatusAt(Some(s.log[j].entry), at) == status;
      assert t.log[j] == s.log[j];
    }
    forall f: nat | f < |s.fetches| ensures t.fetches[f] == s.fetches[f] {}
    forall key, f, content | Stored(s.log, key, f, content) ensures Stored(t.log, key, f, content) {
      var j :| 0 <= j < |s.log| && s.log[j].query.Key() == key && s.log[j].fetch == f
          && s.log[j].entry.content == content;
      assert t.log[j] == s.log[j];
    }
    if task.pc.Classify? {
      assert t.log[..task.pc.from] == s.log[..task.pc.from];
    }
    if task.pc.Storing? {
      assert t.fetches[task.pc.fetch] == s.fetches[task.pc.fetch];
    }
  }

  lemma LaterKeepsLog(s: State, t: State)
    requires Later(s, t) && LogOk(s)
    requires |t.log| > |s.log| ==> WriteOk(t.fetches, t.now, t.log[|s.log|])
    ensures LogOk(t)
  {
    forall j | 0 <= j < |t.log| ensures WriteOk(t.fetches, t.now, t.log[j]) {
      if j < |s.log| {
        assert t.log[j] == s.log[j] && WriteOk(s.fetches, s.now, s.log[j]);
        assert t.fetches[s.log[j].fetch] == s.fetches[s.log[j].fetch];
      }
    }
  }

  /** The store lost entries, or took the one just written. */
  predicate StoreFollows(s: State, t: State) {
    if |t.log| == |s.log| then forall k | k in t.store :: k in s.store && t.store[k] == s.store[k]
    else |t.log| == |s.log| + 1
         && t.store == s.store[t.log[|s.log|].query.Key() := t.log[|s.log|].entry]
  }

  lemma StoreStep(s: State, t: State)
    requires Later(s, t) && StoreFollows(s, t) && StoreOk(s)
    ensures StoreOk(t)
  {
    if |t.log| == |s.log| {
      assert t.log == s.log;
    }
  }

  /** A step of task `i` keeps contents coherent once its own task is shown to be in order. */
  lemma DataStep(s: State, t: State, i: nat)
    requires DataInv(s) && Later(s, t) && StoreFollows(s, t) && i < |s.tasks| <= |t.tasks|
    requires |t.log| > |s.log| ==> WriteOk(t.fetches, t.now, t.log[|s.log|])
    requires forall j | 0 <= j < |s.tasks| && j != i :: t.tasks[j] == s.tasks[j]
    requires TaskDataOk(t, t.tasks[i])
    requires forall j | |s.tasks| <= j < |t.tasks| :: TaskDataOk(t, t.tasks[j])
    ensures DataInv(t)
  {
    LaterKeepsLog(s, t);
    StoreStep(s, t);
    forall j | 0 <= j < |t.tasks| ensures TaskDataOk(t, t.tasks[j]) {
      if j < |s.tasks| && j != i { LaterKeepsTask(s, t, s.tasks[j]); }
    }
  }

  lemma ClassifiedIsBacked(s: State, task: Task)
    requires DataInv(s) && TaskDataOk(s, task) && task.pc.Classify? && StatusAt(task.pc.seen, s.now) != Miss
    ensures Backed(s.log, task.Key(), StatusAt(task.pc.seen, s.now), s.now)
  {
    var from := task.pc.from;
    var j := LastWriteWitness(s.log[..from], task.Key());
    assert s.log[..from][j] == s.log[j];
    assert WriteOk(s.fetches, s.now, s.log[j]);
  }

  lemma ReadingKeepsData(s: State, i: nat)
    requires i < |s.tasks| && s.tasks[i].pc.Reading() && DataInv(s)
    ensures DataInv(NextReading(s, i))
  {
    var task, t := s.tasks[i], NextReading(s, i);
    assert TaskDataOk(s, task);
    match task.pc {
      case Lookup(_) => assert s.log[..|s.log|] == s.log;
      case Classify(_, seen, _) =>
        if StatusAt(seen, s.now) != Miss { ClassifiedIsBacked(s, task); }
      case _ =>
    }
    DataStep(s, t, i);
  }

  lemma ClaimingFrame(s: State, i: nat, choice: Choice)
    requires i < |s.tasks| && s.tasks[i].pc.Claiming() && CanAdvance(s, i, choice)
    ensures var t := NextClaiming(s, i, choice);
            && Later(s, t) && StoreFollows(s, t) && t.log == s.log
            && |s.tasks| <= |t.tasks| && forall j | 0 <= j < |s.tasks| && j != i :: t.tasks[j] == s.tasks[j]
  {
  }

  lemma ClaimingTaskData(s: State, i: nat, choice: Choice)
    requires i < |s.tasks| && s.tasks[i].pc.Claiming() && CanAdvance(s, i, choice) && TaskDataOk(s, s.tasks[i])
    ensures var t := NextClaiming(s, i, choice);
            && |t.tasks| > i && TaskDataOk(t, t.tasks[i])
            && forall j | |s.tasks| <= j < |t.tasks| :: TaskDataOk(t, t.tasks[j])
  {
    hide Backed;
    assert NextClaiming(s, i, choice).log == s.log && NextClaiming(s, i, choice).now == s.now;
  }

  lemma ClaimingKeepsData(s: State, i: nat, choice: Choice)
    requires i < |s.tasks| && s.tasks[i].pc.Claiming() && CanAdvance(s, i, choice) && DataInv(s)
    ensures DataInv(NextClaiming(s, i, choice))
  {
    ClaimingFrame(s, i, choice);
    ClaimingTaskData(s, i, choice);
    hide NextClaiming, Later, StoreFollows, TaskDataOk;
    DataStep(s, NextClaiming(s, i, choice), i);
  }

  lemma AwaitingKeepsData(s: State, i: nat, choice: Choice)
    requires i < |s.tasks| && s.tasks[i].pc.Awaiting() && CanAdvance(s, i, choice) && DataInv(s)
    ensures DataInv(NextAwaiting(s, i, choice))
  {
    DataStep(s, NextAwaiting(s, i, choice), i);
  }

  lemma LeadingFrame(s: State, i: nat, choice: Choice)
    requires i < |s.tasks| && s.tasks[i].pc.Leading() && CanAdvance(s, i, choice) && TaskDataOk(s, s.tasks[i])
    ensures var t := NextLeading(s, i, choice);
            && Later(s, t) && StoreFollows(s, t)
            && (|t.log| > |s.log| ==> WriteOk(t.fetches, t.now, t.log[|s.log|]))
            && |t.tasks| == |s.tasks| && forall j | 0 <= j < |s.tasks| && j != i :: t.tasks[j] == s.tasks[j]
  {
  }

  lemma StoringKeepsItsAnswer(s: State, i: nat, choice: Choice)
    requires i < |s.tasks| && s.tasks[i].pc.Storing? && CanAdvance(s, i, choice) && TaskDataOk(s, s.tasks[i])
    ensures var t := NextLeading(s, i, choice); |t.tasks| > i && TaskDataOk(t, t.tasks[i])
  {
    var task, t := s.tasks[i], NextLeading(s, i, choice);
    match EntryFor(task, s.fetches[task.pc.fetch].outcome, choice.stamp)
    case None =>
    case Some(entry) => assert t.log[|s.log|] == Write(task.query, entry, task.pc.fetch, task.background);
  }

  lemma LeadingTaskData(s: State, i: nat, choice: Choice)
    requires i < |s.tasks| && s.tasks[i].pc.Leading() && CanAdvance(s, i, choice) && TaskDataOk(s, s.tasks[i])
    ensures |NextLeading(s, i, choice).tasks| > i
        && TaskDataOk(NextLeading(s, i, choice), NextLeading(s, i, choice).tasks[i])
  {
    if s.tasks[i].pc.Storing? { StoringKeepsItsAnswer(s, i, choice); }
  }

  lemma LeadingKeepsData(s: State, i: nat, choice: Choice)
    requires i < |s.tasks| && s.tasks[i].pc.Leading() && CanAdvance(s, i, choice) && DataInv(s)
    ensures DataInv(NextLeading(s, i, choice))
  {
    assert TaskDataOk(s, s.tasks[i]);
    LeadingFrame(s, i, choice);
    LeadingTaskData(s, i, choice);
    hide NextLeading, Later, StoreFollows, TaskDataOk, WriteOk;
    DataStep(s, NextLeading(s, i, choice), i);
  }

  lemma DroppingKeepsData(s: State, i: nat, choice: Choice)
    requires i < |s.tasks| && s.tasks[i].pc.Dropping() && CanAdvance(s, i, choice) && DataInv(s)
    ensures DataInv(NextDropping(s, i, choice))
  {
    assert TaskDataOk(s, s.tasks[i]);
    DataStep(s, NextDropping(s, i, choice), i);
  }

  /** Time passing and entries vanishing. */
  lemma EnvironmentKeepsData(s: State, t: State)
    requires DataInv(s) && Later(s, t) && t.log == s.log && t.tasks == s.tasks && StoreFollows(s, t)
    ensures DataInv(t)
  {
    LaterKeepsLog(s, t);
    StoreStep(s, t);
    forall j | 0 <= j < |t.tasks| ensures TaskDataOk(t, t.tasks[j]) {
      LaterKeepsTask(s, t, s.tasks[j]);
    }
  }

  lemma DataInvStep(s: State, a: Action)
    requires Enabled(s, a) && DataInv(s)
    ensures DataInv(Next(s, a))
  {
    match a
    case Tick(_) => EnvironmentKeepsData(s, Next(s, a));
    case Evict(_) => EnvironmentKeepsData(s, Next(s, a));
    case Cancel(i) => DataStep(s, Next(s, a), i);
    case Advance(i, choice) =>
      var pc := s.tasks[i].pc;
      if pc.Reading() { ReadingKeepsData(s, i); }
      else if pc.Claiming() { ClaimingKeepsData(s, i, choice); }
      else if pc.Awaiting() { AwaitingKeepsData(s, i, choice); }
      else if pc.Leading() { LeadingKeepsData(s, i, choice); }
      else { DroppingKeepsData(s, i, choice); }
  }

  // ── Task histories ────────────────────────────────────────────────────────────

  function Before(second: bool): seq<Observation> { if second then [Saw(Miss), Denied] else [] }

  function Wanting(goal: Goal): seq<Observation> {
    match goal
    case Refresh(served, _) => [Saw(StaleHit(served))]
    case FirstClaim => [Saw(Miss)]
    case SecondClaim => [Saw(Miss), Denied, Saw(Miss)]
  }

  predicate LeaderPath(task: Task) {
    if task.guard.Some? then task.path == [Saw(Miss), Granted] || task.path == [Saw(Miss), Denied, Saw(Miss), Granted]
    else task.path == [Saw(Miss), Denied, Saw(Miss), Denied]
  }

  predicate Led(path: seq<Observation>) {
    || path == [Saw(Miss), Granted]
    || path == [Saw(Miss), Denied, Saw(Miss), Granted] || path == [Saw(Miss), Denied, Saw(Miss), Denied]
  }

  /** What a query that ends with this answer has seen and been told. */
  predicate EndPath(path: seq<Observation>, answer: Answer) {
    match answer
    case Cached(value, _) =>
      || path == [Saw(FreshHit(value))]
      || path == [Saw(StaleHit(value)), Granted] || path == [Saw(StaleHit(value)), Denied]
      || path == [Saw(Miss), Denied, Saw(FreshHit(value))] || path == [Saw(Miss), Denied, Saw(StaleHit(value))]
    case ShortCircuited(_) => path == [Saw(NegativeHit)] || path == [Saw(Miss), Denied, Saw(NegativeHit)]
    case Upstream(_, _) => Led(path)
    case RateLimited => Led(path)
    case Refreshed => false
    case Dropped => path == [] || path == [Saw(Miss), Denied] || Led(path)
  }

  /** A task's history is fixed by where it stands. */
  predicate PathOk(task: Task) {
    if task.background then task.path == [] && !task.pc.Reading() && !task.pc.Claiming() && !task.pc.Awaiting()
                            && (task.pc.Leading() ==> task.guard.Some?)
    else match task.pc
      case Lookup(second) => task.path == Before(second)
      case Classify(second, _, _) => task.path == Before(second)
      case CheckLength(goal) => task.path == Wanting(goal)
      case ClaimEntry(goal) => task.path == Wanting(goal)
      case SpawnRefresh(served, _) => task.path == [Saw(StaleHit(served)), Granted]
      case CloneNotify => task.path == Before(true)
      case Register(_) => task.path == Before(true)
      case Blocked(_, _) => task.path == Before(true)
      case RateLimit => LeaderPath(task)
      case Fetching => LeaderPath(task)
      case Storing(_) => LeaderPath(task)
      case RemoveSlot(answer) => EndPath(task.path, answer) && !answer.Cached?
      case NotifyWaiters(answer) => EndPath(task.path, answer) && !answer.Cached?
      case Returned(answer) => EndPath(task.path, answer)
  }

  predicate Unguarded(pc: Pc) { pc.Reading() || pc.CheckLength? || pc.ClaimEntry? || pc.Awaiting() }

  predicate PathsOk(s: State) {
    forall i | 0 <= i < |s.tasks| ::
      && PathOk(s.tasks[i])
      && (Unguarded(s.tasks[i].pc) ==> s.tasks[i].guard.None?)
      && (s.tasks[i].pc.SpawnRefresh? ==> s.tasks[i].guard.Some?)
  }

  lemma ReadingKeepsPaths(s: State, i: nat)
    requires i < |s.tasks| && s.tasks[i].pc.Reading() && PathsOk(s)
    ensures PathsOk(NextReading(s, i))
  {
    assert PathOk(s.tasks[i]);
  }

  lemma ClaimingKeepsPaths(s: State, i: nat, choice: Choice)
    requires i < |s.tasks| && s.tasks[i].pc.Claiming() && CanAdvance(s, i, choice) && PathsOk(s)
    ensures PathsOk(NextClaiming(s, i, choice))
  {
    assert PathOk(s.tasks[i]);
  }

  lemma AwaitingKeepsPaths(s: State, i: nat, choice: Choice)
    requires i < |s.tasks| && s.tasks[i].pc.Awaiting() && CanAdvance(s, i, choice) && PathsOk(s)
    ensures PathsOk(NextAwaiting(s, i, choice))
  {
    assert PathOk(s.tasks[i]);
  }

  lemma LeadingKeepsPaths(s: State, i: nat, choice: Choice)
    requires i < |s.tasks| && s.tasks[i].pc.Leading() && CanAdvance(s, i, choice) && PathsOk(s)
    ensures PathsOk(NextLeading(s, i, choice))
  {
    hide EntryFor;
    assert PathOk(s.tasks[i]);
  }

  lemma DroppingKeepsPaths(s: State, i: nat, choice: Choice)
    requires i < |s.tasks| && s.tasks[i].pc.Dropping() && CanAdvance(s, i, choice) && PathsOk(s)
    ensures PathsOk(NextDropping(s, i, choice))
  {
    assert PathOk(s.tasks[i]);
  }

  lemma PathStep(s: State, a: Action)
    requires Enabled(s, a) && PathsOk(s)
    ensures PathsOk(Next(s, a))
  {
    match a
    case Tick(_) =>
    case Evict(_) =>
    case Cancel(i) => assert PathOk(s.tasks[i]);
    case Advance(i, choice) =>
      assert PathOk(s.tasks[i]);
      if s.tasks[i].pc.Reading() { ReadingKeepsPaths(s, i); }
      else if s.tasks[i].pc.Claiming() { ClaimingKeepsPaths(s, i, choice); }
      else if s.tasks[i].pc.Awaiting() { AwaitingKeepsPaths(s, i, choice); }
      else if s.tasks[i].pc.Leading() { LeadingKeepsPaths(s, i, choice); }
      else { DroppingKeepsPaths(s, i, choice); }
  }
}
