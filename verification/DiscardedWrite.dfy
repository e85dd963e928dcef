/**
  A reader that looked before a write can throw the fresh entry away: the entry it found is
  over by the time it classifies it, and it invalidates the key after another query has stored
  a new answer under it.
*/
module DiscardedWrite {
  import opened Wrappers
  import opened Cache
  import opened SingleFlight
  import opened LostWakeup
  import opened FollowerMiss

  const ANSWER: Payload := "answer"

  /** The next step of task `i`, with the limiter's consent and a successful fetch. */
  function Go(s: State, i: nat): Action { Advance(i, Choice(true, Fetched(ANSWER), s.now)) }

  function Moved(s: State, i: nat): State
    requires Enabled(s, Go(s, i))
  {
    Next(s, Go(s, i))
  }

  lemma Goes(s0: State, s: State, i: nat)
    requires Reaches(s0, s) && Enabled(s, Go(s, i))
    ensures Reaches(s0, Moved(s, i))
  {
    hide Next;
    ReachesStep(s0, s, Go(s, i));
  }

  /** The step is task `i`'s alone, and it is still the same query's. */
  predicate Alone(s: State, t: State, i: nat)
    requires i < |s.tasks|
  {
    && |t.tasks| == |s.tasks| && t.now == s.now && |t.owners| == |t.wakeups|
    && t.tasks[i].query == s.tasks[i].query && !t.tasks[i].background
    && forall j | 0 <= j < |s.tasks| && j != i :: t.tasks[j] == s.tasks[j]
  }

  predicate Ready(s0: State, s: State, i: nat) {
    i < |s.tasks| && !s.tasks[i].background && |s.owners| == |s.wakeups|
  }

  /** A query that finds nothing usable comes to claim the slot. */
  lemma Misses(s0: State, s: State, i: nat) returns (t: State)
    requires Reaches(s0, s) && Ready(s0, s, i) && s.tasks[i].pc == Lookup(false) && s.tasks[i].guard == None
    requires StatusAt(Read(s, s.tasks[i].Key()), s.now) == Miss
    ensures Reaches(s0, t) && Alone(s, t, i)
    ensures t.tasks[i].pc == CheckLength(FirstClaim) && t.tasks[i].guard == None && t.inFlight == s.inFlight
  {
    Goes(s0, s, i);
    var u := Moved(s, i);
    Goes(s0, u, i);
    t := Moved(u, i);
  }

  /** The slot is free and it gets it. */
  lemma Claims(s0: State, s: State, i: nat) returns (t: State)
    requires Reaches(s0, s) && Ready(s0, s, i) && s.tasks[i].pc == CheckLength(FirstClaim) && s.inFlight == map[]
    ensures Reaches(s0, t) && Alone(s, t, i)
    ensures t.tasks[i].pc == RateLimit && t.tasks[i].guard == Some(|s.owners|) && |t.wakeups| > |s.owners|
    ensures t.inFlight == map[s.tasks[i].Key() := |s.owners|]
  {
    Goes(s0, s, i);
    var u := Moved(s, i);
    Goes(s0, u, i);
    t := Moved(u, i);
  }

  function Answer(q: Query, now: nat): Entry { PositiveEntry(ANSWER, q.kind.Ttl(), now) }

  /** It fetches and stores. */
  lemma Fetches(s0: State, s: State, i: nat) returns (t: State)
    requires Reaches(s0, s) && Ready(s0, s, i) && s.tasks[i].pc == RateLimit && s.tasks[i].guard.Some?
    ensures Reaches(s0, t) && Alone(s, t, i)
    ensures t.tasks[i].pc.RemoveSlot? && t.tasks[i].guard == s.tasks[i].guard && t.inFlight == s.inFlight
    ensures Read(t, s.tasks[i].Key()) == Some(Answer(s.tasks[i].query, s.now)) && |t.wakeups| == |s.wakeups|
  {
    Goes(s0, s, i);
    var u := Moved(s, i);
    Goes(s0, u, i);
    var v := Moved(u, i);
    Goes(s0, v, i);
    t := Moved(v, i);
  }

  /** It gives the slot back. */
  lemma Releases(s0: State, s: State, i: nat) returns (t: State)
    requires Reaches(s0, s) && Ready(s0, s, i) && s.tasks[i].pc.RemoveSlot?
    requires s.tasks[i].guard.Some? && s.tasks[i].guard.value < |s.wakeups|
    ensures Reaches(s0, t) && Alone(s, t, i)
    ensures t.inFlight == s.inFlight - {s.tasks[i].Key()} && t.store == s.store
  {
    Goes(s0, s, i);
    var u := Moved(s, i);
    Goes(s0, u, i);
    t := Moved(u, i);
  }

  lemma Populates(s0: State, s: State, i: nat) returns (t: State)
    requires Reaches(s0, s) && Ready(s0, s, i) && s.tasks[i].pc == Lookup(false) && s.tasks[i].guard == None
    requires StatusAt(Read(s, s.tasks[i].Key()), s.now) == Miss && s.inFlight == map[]
    ensures Reaches(s0, t) && Alone(s, t, i) && t.inFlight == map[]
    ensures Read(t, s.tasks[i].Key()) == Some(Answer(s.tasks[i].query, s.now))
  {
    hide Next, Reaches;
    var u := Misses(s0, s, i);
    var v := Claims(s0, u, i);
    var w := Fetches(s0, v, i);
    t := Releases(s0, w, i);
  }

  /** The step invalidates a key whose entry in the store is fresh. */
  predicate Discards(s: State, a: Action, key: string) {
    Invalidates(s, a, key) && key in s.store && StatusAt(Some(s.store[key]), s.now).FreshHit?
  }

  function Life(q: Query): nat { q.kind.Ttl() + StaleWindow(q.kind.Ttl()) }

  /** Time passes. */
  lemma Waits(s0: State, s: State, wait: nat) returns (t: State)
    requires Reaches(s0, s)
    ensures Reaches(s0, t) && t == s.(now := s.now + wait)
  {
    t := s.(now := s.now + wait);
    ReachesStep(s0, s, Tick(t.now));
  }

  /** A reader looks, and has not classified what it saw yet. */
  lemma Looks(s0: State, s: State, i: nat) returns (t: State)
    requires Reaches(s0, s) && Ready(s0, s, i) && s.tasks[i].pc == Lookup(false)
    ensures Reaches(s0, t) && Alone(s, t, i) && t.inFlight == s.inFlight && t.store == s.store
    ensures t.tasks[i].pc.Classify? && t.tasks[i].pc.seen == Read(s, s.tasks[i].Key())
  {
    Goes(s0, s, i);
    t := Moved(s, i);
  }

  lemma LateReaderDiscards(t: State, i: nat, q: Query, stored: nat)
    requires i < |t.tasks| && t.tasks[i].query == q && t.tasks[i].pc.Classify?
    requires t.tasks[i].pc.seen == Some(Answer(q, stored)) && t.now > stored + Life(q)
    requires Read(t, q.Key()) == Some(Answer(q, t.now))
    ensures Enabled(t, Go(t, i)) && Discards(t, Go(t, i), q.Key()) && q.Key() !in Next(t, Go(t, i)).store
  {
  }

  lemma ReaderSawOld(q: Query, now: nat)
    requires now > Life(q)
    ensures StatusAt(Some(Answer(q, 0)), now) == Miss
  {
  }

  function Fresh(q: Query): Task { Task(q, false, Lookup(false), None, []) }

  function Start(q: Query): State {
    State(0, map[], map[], [], [], [Fresh(q), Fresh(q), Fresh(q)], [], [], Counters(0, 0, 0, 0))
  }

  /** The first query stores its answer, and the answer comes to the last moment of its life. */
  lemma FirstFetch(q: Query) returns (t: State)
    ensures Init(Start(q)) && Reaches(Start(q), t)
    ensures |t.tasks| == 3 && t.tasks[1] == Fresh(q) && t.tasks[2] == Fresh(q) && |t.owners| == |t.wakeups|
    ensures t.inFlight == map[] && t.now == Life(q) && Read(t, q.Key()) == Some(Answer(q, 0))
  {
    var s := Start(q);
    assert Reaches(s, s) by { assert Run([s], []); }
    hide Next, Reaches, Life;
    var u := Populates(s, s, 0);
    t := Waits(s, u, Life(q));
  }

  /** The second query looks in time, the answer's life ends, and the third query stores a new one. */
  lemma SecondFetch(q: Query) returns (t: State)
    ensures Init(Start(q)) && Reaches(Start(q), t)
    ensures |t.tasks| == 3 && t.tasks[1].query == q && t.tasks[1].pc.Classify?
    ensures t.tasks[1].pc.seen == Some(Answer(q, 0)) && t.now > Life(q) && Read(t, q.Key()) == Some(Answer(q, t.now))
  {
    var u := FirstFetch(q);
    hide Next, Reaches, Life, Init, Start;
    var w := Looks(Start(q), u, 1);
    assert w.tasks[2] == Fresh(q);
    var v := Waits(Start(q), w, 1);
    ReaderSawOld(q, v.now);
    hide StatusAt, Answer;
    assert Read(v, q.Key()) == Some(Answer(q, 0));
    t := Populates(Start(q), v, 2);
    assert t.tasks[1] == v.tasks[1];
  }

  /** Three queries of one key: the reader between two fetches throws the second one's answer away. */
  lemma FreshWriteCanBeDiscarded(q: Query)
    ensures exists s, t, a :: Init(s) && Reaches(s, t) && Enabled(t, a) && Discards(t, a, q.Key())
                              && q.Key() !in Next(t, a).store
  {
    var t := SecondFetch(q);
    LateReaderDiscards(t, 1, q, 0);
  }
}
