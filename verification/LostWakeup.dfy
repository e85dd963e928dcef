/**
  Followers that are never woken: every one of them cloned its notify before the guard
  notified and registered after, and such a run exists.
*/
module LostWakeup {
  import opened Wrappers
  import opened Cache
  import opened SingleFlight
  import opened SlotInvariants
  import opened CounterInvariants
  import opened SingleFlightTheorems

  /** A step that is not task `i`'s own leaves task `i` as it was. */
  lemma OthersUnmoved(s: State, a: Action, i: nat)
    requires Enabled(s, a) && i < |Next(s, a).tasks|
    requires !(a.Advance? && a.task == i) && !(a.Cancel? && a.task == i)
    ensures if i < |s.tasks| then Next(s, a).tasks[i] == s.tasks[i] else Next(s, a).tasks[i].pc == RateLimit
  {
    match a
    case Tick(_) =>
    case Evict(_) =>
    case Cancel(j) => CancelShape(s, j);
    case Advance(j, choice) => AdvanceShape(s, j, choice);
  }

  lemma AwaitingEntered(s: State, i: nat, choice: Choice)
    requires i < |s.tasks| && CanAdvance(s, i, choice) && s.tasks[i].pc.Awaiting()
    ensures var pc := NextAwaiting(s, i, choice).tasks[i].pc;
            && (pc.Blocked? ==>
                  && s.tasks[i].pc == Register(pc.notify)
                  && pc.notify < |s.wakeups| && s.wakeups[pc.notify] == pc.ticket)
            && (pc.Register? ==> s.tasks[i].pc == CloneNotify && s.tasks[i].Key() in s.inFlight
                                 && s.inFlight[s.tasks[i].Key()] == pc.notify)
  {
  }

  /** One step's account of how a task came to wait. */
  lemma WaitEntered(s: State, a: Action, i: nat)
    requires Enabled(s, a) && i < |Next(s, a).tasks|
    ensures var pc := Next(s, a).tasks[i].pc;
            && (pc.Blocked? ==>
                  i < |s.tasks| && (s.tasks[i].pc == pc
                    || (s.tasks[i].pc == Register(pc.notify) && a.Advance? && a.task == i
                        && pc.notify < |s.wakeups| && s.wakeups[pc.notify] == pc.ticket)))
            && (pc.Register? ==>
                  i < |s.tasks| && (s.tasks[i].pc == pc
                    || (s.tasks[i].pc == CloneNotify && a.Advance? && a.task == i
                        && s.tasks[i].Key() in s.inFlight && s.inFlight[s.tasks[i].Key()] == pc.notify)))
  {
    if a.Advance? && a.task == i {
      AdvanceShape(s, i, a.choice);
      if s.tasks[i].pc.Awaiting() { AwaitingEntered(s, i, a.choice); }
    } else if a.Cancel? && a.task == i {
      CancelShape(s, i);
    } else {
      OthersUnmoved(s, a, i);
    }
  }

  /** Task `i` has been blocked as it is at `k` ever since its step at `m`. */
  ghost predicate AsleepSince(states: seq<State>, m: nat, k: nat, i: nat)
    requires m < k < |states| && i < |states[k].tasks|
  {
    forall j | m < j <= k :: i < |states[j].tasks| && states[j].tasks[i].pc == states[k].tasks[i].pc
  }

  lemma {:induction false} FindRegistration(states: seq<State>, acts: seq<Action>, k: nat, i: nat) returns (m: nat)
    requires Run(states, acts) && Init(states[0]) && k <= |acts|
    requires i < |states[k].tasks| && states[k].tasks[i].pc.Blocked?
    ensures m < k && i < |states[m].tasks| && acts[m].Advance? && acts[m].task == i
    ensures var pc := states[k].tasks[i].pc;
            states[m].tasks[i].pc == Register(pc.notify)
            && pc.notify < |states[m].wakeups| && states[m].wakeups[pc.notify] == pc.ticket
    ensures AsleepSince(states, m, k, i)
  {
    WaitEntered(states[k - 1], acts[k - 1], i);
    m := k - 1;
    if states[m].tasks[i].pc.Blocked? { m := FindRegistration(states, acts, m, i); }
  }

  lemma {:induction false} FindClone(states: seq<State>, acts: seq<Action>, k: nat, i: nat) returns (m: nat)
    requires Run(states, acts) && Init(states[0]) && k <= |acts|
    requires i < |states[k].tasks| && states[k].tasks[i].pc.Register?
    ensures m < k && i < |states[m].tasks| && acts[m].Advance? && acts[m].task == i
    ensures var key := states[m].tasks[i].Key();
            states[m].tasks[i].pc == CloneNotify
            && key in states[m].inFlight && states[m].inFlight[key] == states[k].tasks[i].pc.notify
  {
    WaitEntered(states[k - 1], acts[k - 1], i);
    m := k - 1;
    if states[m].tasks[i].pc.Register? { m := FindClone(states, acts, m, i); }
  }

  /** `a` is the step in which notify `n`'s guard calls `notify_waiters`. */
  predicate Notifies(s: State, a: Action, n: nat) {
    a.Advance? && a.task < |s.tasks| && s.tasks[a.task].pc.NotifyWaiters? && s.tasks[a.task].guard == Some(n)
  }

  lemma WakeupsByNotify(s: State, a: Action, n: nat)
    requires Enabled(s, a) && n < |s.wakeups| && !Notifies(s, a, n)
    ensures n < |Next(s, a).wakeups| && Next(s, a).wakeups[n] == s.wakeups[n]
  {
    WakeupsStep(s, a);
  }

  lemma {:induction false} FindNotify(states: seq<State>, acts: seq<Action>, j: nat, k: nat, n: nat) returns (m: nat)
    requires Run(states, acts) && j <= k <= |acts|
    requires n < |states[j].wakeups| && n < |states[k].wakeups| && states[j].wakeups[n] != states[k].wakeups[n]
    ensures j <= m < k && Notifies(states[m], acts[m], n)
    decreases k - j
  {
    if Notifies(states[j], acts[j], n) {
      m := j;
    } else {
      WakeupsByNotify(states[j], acts[j], n);
      m := FindNotify(states, acts, j + 1, k, n);
    }
  }

  /** The step is task `i`'s: it clones notify `n` from the slot of its key. */
  predicate Clones(s: State, a: Action, i: nat, n: nat) {
    && a.Advance? && a.task == i && i < |s.tasks| && s.tasks[i].pc == CloneNotify
    && s.tasks[i].Key() in s.inFlight && s.inFlight[s.tasks[i].Key()] == n
  }

  predicate Registers(s: State, a: Action, i: nat, n: nat) {
    a.Advance? && a.task == i && i < |s.tasks| && s.tasks[i].pc == Register(n)
  }

  /** The task cloned its notify, the guard notified, and only then did the task register; it has slept since. */
  ghost predicate Straddled(states: seq<State>, acts: seq<Action>, k: nat, i: nat)
    requires k <= |acts| < |states| && i < |states[k].tasks| && states[k].tasks[i].pc.Blocked?
  {
    var n := states[k].tasks[i].pc.notify;
    exists cloned, notified, registered ::
      && 0 <= cloned < notified < registered < k
      && Clones(states[cloned], acts[cloned], i, n)
      && Notifies(states[notified], acts[notified], n)
      && Registers(states[registered], acts[registered], i, n)
      && AsleepSince(states, registered, k, i)
  }

  lemma LostMeansStraddled(states: seq<State>, acts: seq<Action>, k: nat, i: nat)
    requires Run(states, acts) && Init(states[0]) && k <= |acts|
    requires i < |states[k].tasks| && Lost(states[k], states[k].tasks[i])
    ensures Straddled(states, acts, k, i)
  {
    var n := states[k].tasks[i].pc.notify;
    var registered := FindRegistration(states, acts, k, i);
    var cloned := FindClone(states, acts, registered, i);
    InitEstablishes(states[0]);
    InvAlong(states, acts, cloned);
    var s := states[cloned];
    var o := s.owners[n];
    assert TaskSlotOk(s, o, s.tasks[o]);
    var notified := FindNotify(states, acts, cloned, registered, n);
    assert notified != cloned;
    assert Clones(s, acts[cloned], i, n) && Registers(states[registered], acts[registered], i, n);
  }

  lemma {:induction false} WakeupsGrowAlong(states: seq<State>, acts: seq<Action>, j: nat, k: nat, n: nat)
    requires Run(states, acts) && j <= k <= |acts| && n < |states[j].wakeups|
    ensures n < |states[k].wakeups| && states[j].wakeups[n] <= states[k].wakeups[n]
  {
    hide Next;
    if j < k {
      WakeupsGrowAlong(states, acts, j, k - 1, n);
      WakeupsGrow(states[k - 1], acts[k - 1]);
    }
  }

  lemma NotifyCounts(s: State, a: Action, n: nat)
    requires Enabled(s, a) && Notifies(s, a, n)
    ensures n < |Next(s, a).wakeups| && Next(s, a).wakeups[n] >= 1
  {
  }

  lemma RegisterTakesTicket(s: State, a: Action, i: nat, n: nat)
    requires Enabled(s, a) && Registers(s, a, i, n)
    ensures n < |s.wakeups| && i < |Next(s, a).tasks| && Next(s, a).tasks[i].pc == Blocked(n, s.wakeups[n])
  {
  }

  /** A notify is notified once, and stays so. */
  lemma NotifiedByThen(states: seq<State>, acts: seq<Action>, m: nat, k: nat, n: nat)
    requires Run(states, acts) && Init(states[0]) && m < k <= |acts| && Notifies(states[m], acts[m], n)
    ensures n < |states[k].wakeups| && states[k].wakeups[n] == 1
  {
    NotifyCounts(states[m], acts[m], n);
    hide Next, Notifies;
    WakeupsGrowAlong(states, acts, m + 1, k, n);
    InitEstablishes(states[0]);
    InvAlong(states, acts, k);
  }

  lemma StraddledIsLost(states: seq<State>, acts: seq<Action>, k: nat, i: nat)
    requires Run(states, acts) && Init(states[0]) && k <= |acts|
    requires i < |states[k].tasks| && states[k].tasks[i].pc.Blocked? && Straddled(states, acts, k, i)
    ensures Lost(states[k], states[k].tasks[i])
  {
    var n := states[k].tasks[i].pc.notify;
    var cloned, notified, registered :|
      && 0 <= cloned < notified < registered < k
      && Clones(states[cloned], acts[cloned], i, n)
      && Notifies(states[notified], acts[notified], n)
      && Registers(states[registered], acts[registered], i, n)
      && AsleepSince(states, registered, k, i);
    NotifiedByThen(states, acts, notified, registered, n);
    RegisterTakesTicket(states[registered], acts[registered], i, n);
    hide Next, Notifies, Clones;
    assert states[registered + 1].tasks[i].pc == states[k].tasks[i].pc;
    NotifiedByThen(states, acts, notified, k, n);
  }

  /** In every run a blocked follower is lost exactly when its clone and its registration straddled the notification. */
  lemma LostIffStraddled(states: seq<State>, acts: seq<Action>, k: nat, i: nat)
    requires Run(states, acts) && Init(states[0]) && k <= |acts|
    requires i < |states[k].tasks| && states[k].tasks[i].pc.Blocked?
    ensures Lost(states[k], states[k].tasks[i]) <==> Straddled(states, acts, k, i)
  {
    if Lost(states[k], states[k].tasks[i]) { LostMeansStraddled(states, acts, k, i); }
    if Straddled(states, acts, k, i) { StraddledIsLost(states, acts, k, i); }
  }

  // ── Such a run exists ─────────────────────────────────────────────────────────

  const Q: Query := Query(Domain, "example.com")
  const DENYING: Choice := Choice(false, Failed, 0)

  ghost predicate Reaches(s: State, t: State) {
    exists states: seq<State>, acts: seq<Action> :: Run(states, acts) && states[0] == s && states[|acts|] == t
  }

  lemma RunExtend(states: seq<State>, acts: seq<Action>, a: Action)
    requires Run(states, acts) && Enabled(states[|acts|], a)
    ensures Run(states + [Next(states[|acts|], a)], acts + [a])
  {
  }

  /** What is reachable stays reachable after a step. */
  lemma ReachesStep(s: State, t: State, a: Action)
    requires Reaches(s, t) && Enabled(t, a)
    ensures Reaches(s, Next(t, a))
  {
    var states: seq<State>, acts: seq<Action> :| Run(states, acts) && states[0] == s && states[|acts|] == t;
    RunExtend(states, acts, a);
    var more := states + [Next(t, a)];
    assert more[0] == s && more[|acts| + 1] == Next(t, a);
  }

  function Step(s: State, i: nat): State
    requires Enabled(s, Advance(i, DENYING))
  {
    Next(s, Advance(i, DENYING))
  }

  function Foreground(pc: Pc, guard: Option<nat>, path: seq<Observation>): Task { Task(Q, false, pc, guard, path) }

  /** Two tasks on a cache that holds nothing, with the leader's slot taken or free. */
  function Two(leader: Task, follower: Task, taken: bool, claimed: nat, wakeups: nat, misses: nat): State {
    State(0, map[], if taken then map[Q.Key() := 0] else map[],
          if claimed == 0 then [] else [0], if claimed == 0 then [] else [wakeups],
          [leader, follower], [], [], Counters(0, 0, 0, misses))
  }

  const FRESH: Task := Foreground(Lookup(false), None, [])
  const LEADER: Task := Foreground(RateLimit, Some(0), [Saw(Miss), Granted])
  const GONE: Task := Foreground(Returned(RateLimited), None, [Saw(Miss), Granted])

  const S0: State := Two(FRESH, FRESH, false, 0, 0, 0)
  /** The leader has the slot. */
  const S1: State := Two(LEADER, FRESH, true, 1, 0, 1)
  /** The follower was refused it and has cloned the notify. */
  const S2: State := Two(LEADER, Foreground(Register(0), None, [Saw(Miss), Denied]), true, 1, 0, 2)
  /** The leader was rate limited and dropped its guard. */
  const S3: State := Two(GONE, Foreground(Register(0), None, [Saw(Miss), Denied]), false, 1, 1, 2)
  /** The follower registers too late. */
  const S4: State := Two(GONE, Foreground(Blocked(0, 1), None, [Saw(Miss), Denied]), false, 1, 1, 2)

  lemma Then(t: State, i: nat, u: State)
    requires Reaches(S0, t) && Enabled(t, Advance(i, DENYING)) && Step(t, i) == u
    ensures Reaches(S0, u)
  {
    ReachesStep(S0, t, Advance(i, DENYING));
  }

  lemma LeaderMisses()
    ensures Reaches(S0, Two(Foreground(CheckLength(FirstClaim), None, [Saw(Miss)]), FRESH, false, 0, 0, 1))
  {
    assert Reaches(S0, S0) by { assert Run([S0], []); }
    var u := Two(Foreground(Classify(false, None, 0), None, []), FRESH, false, 0, 0, 0);
    Then(S0, 0, u);
    assert [] + [Saw(Miss)] == [Saw(Miss)];
    Then(u, 0, Two(Foreground(CheckLength(FirstClaim), None, [Saw(Miss)]), FRESH, false, 0, 0, 1));
  }

  lemma LeaderClaims() ensures Reaches(S0, S1) {
    LeaderMisses();
    var w := Two(Foreground(ClaimEntry(FirstClaim), None, [Saw(Miss)]), FRESH, false, 0, 0, 1);
    Then(Two(Foreground(CheckLength(FirstClaim), None, [Saw(Miss)]), FRESH, false, 0, 0, 1), 0, w);
    assert [Saw(Miss)] + [Granted] == [Saw(Miss), Granted] && [] + [0] == [0];
    Then(w, 0, S1);
  }

  lemma FollowerMisses()
    ensures Reaches(S0, Two(LEADER, Foreground(CheckLength(FirstClaim), None, [Saw(Miss)]), true, 1, 0, 2))
  {
    LeaderClaims();
    var u := Two(LEADER, Foreground(Classify(false, None, 0), None, []), true, 1, 0, 1);
    Then(S1, 1, u);
    assert [] + [Saw(Miss)] == [Saw(Miss)];
    Then(u, 1, Two(LEADER, Foreground(CheckLength(FirstClaim), None, [Saw(Miss)]), true, 1, 0, 2));
  }

  lemma FollowerClones() ensures Reaches(S0, S2) {
    FollowerMisses();
    var v := Two(LEADER, Foreground(CheckLength(FirstClaim), None, [Saw(Miss)]), true, 1, 0, 2);
    assert |v.inFlight| == 1;
    var w := Two(LEADER, Foreground(ClaimEntry(FirstClaim), None, [Saw(Miss)]), true, 1, 0, 2);
    Then(v, 1, w);
    var x := Two(LEADER, Foreground(CloneNotify, None, [Saw(Miss), Denied]), true, 1, 0, 2);
    assert [Saw(Miss)] + [Denied] == [Saw(Miss), Denied];
    Then(w, 1, x);
    Then(x, 1, S2);
  }

  lemma LeaderDrops() ensures Reaches(S0, S3) {
    FollowerClones();
    var follower := Foreground(Register(0), None, [Saw(Miss), Denied]);
    var u := Two(Foreground(RemoveSlot(RateLimited), Some(0), [Saw(Miss), Granted]), follower, true, 1, 0, 2);
    Then(S2, 0, u);
    var v := Two(Foreground(NotifyWaiters(RateLimited), Some(0), [Saw(Miss), Granted]), follower, false, 1, 0, 2);
    Then(u, 0, v);
    Then(v, 0, S3);
  }

  /** Two queries for one key suffice to leave a follower asleep for good. */
  lemma LostFollowerReachable()
    ensures exists s, t :: Init(s) && Reaches(s, t) && |t.tasks| == 2 && Lost(t, t.tasks[1])
  {
    LeaderDrops();
    Then(S3, 1, S4);
    assert Lost(S4, S4.tasks[1]);
  }
}
