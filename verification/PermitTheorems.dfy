/** Whole-run results for the permit system. */
module PermitTheorems {
  import opened Permits
  import opened PermitInvariants
  import Retry

  /**
    In every state of every run, cancellations included: free and held permits add up to
    the limits, gauges count their holders (plus, for the global one, the attempts dropped
    mid-flight), and a sleeping or finished call holds nothing.
  */
  lemma PermitsConserved(c: Config, states: seq<State>, acts: seq<Action>, k: nat)
    requires c.Valid() && Run(c, states, acts) && Init(c, states[0]) && k < |states|
    ensures var s := states[k];
            && s.globalFree + Count(s.calls, GlobalHolders) == c.GlobalLimit()
            && (forall o | o in s.registry :: s.registry[o] < |s.hostFree|
                  && s.hostFree[s.registry[o]] + Count(s.calls, HostHolders(s.registry[o])) == c.HostLimit())
            && s.gauge == Count(s.calls, GaugeHolders) + s.leaked
            && (forall o: Origin :: OriginGauge(s, o) == Count(s.calls, GuardHolders(o)))
            && (forall i | 0 <= i < |s.calls| && (s.calls[i].pc.Sleeping? || s.calls[i].pc.Ended?) ::
                  !s.calls[i].HoldsGlobal() && !s.calls[i].HoldsHost())
  {
    InitEstablishes(c, states[0]);
    InvAlong(c, states, acts, k);
    var s := states[k];
    forall i | 0 <= i < |s.calls| && (s.calls[i].pc.Sleeping? || s.calls[i].pc.Ended?)
      ensures !s.calls[i].HoldsGlobal() && !s.calls[i].HoldsHost()
    {
      assert CallOk(c, s, s.calls[i]);
    }
  }

  lemma {:induction false} CountSplit(calls: seq<Call>, o: Origin, id: nat)
    requires forall i | 0 <= i < |calls| && calls[i].semaphore.Some? ::
               calls[i].semaphore.value == id <==> calls[i].origin == o
    ensures Count(calls, GlobalHoldersOf(o))
        == Count(calls, GatedGlobalHolders(id)) + Count(calls, UngatedGlobalHoldersOf(o))
  {
    if calls != [] { CountSplit(calls[..|calls| - 1], o, id); }
  }

  /**
    The per-host cap: the gated attempts of a registered origin hold at most its cap of
    global permits, so only attempts that went ungated can take it beyond.
  */
  lemma OriginShare(c: Config, s: State, o: Origin)
    requires c.Valid() && Reachable(c, s) && o in s.registry
    ensures Count(s.calls, GatedGlobalHolders(s.registry[o])) <= c.HostLimit()
    ensures Count(s.calls, GlobalHoldersOf(o)) <= c.HostLimit() + Count(s.calls, UngatedGlobalHoldersOf(o))
  {
    ReachableInv(c, s);
    var id := s.registry[o];
    forall i | 0 <= i < |s.calls| ensures Counts(GatedGlobalHolders(id), s.calls[i])
        ==> Counts(HostHolders(id), s.calls[i])
    {
      assert CallOk(c, s, s.calls[i]);
    }
    CountWithin(s.calls, GatedGlobalHolders(id), HostHolders(id));
    forall i | 0 <= i < |s.calls| && s.calls[i].semaphore.Some?
      ensures s.calls[i].semaphore.value == id <==> s.calls[i].origin == o
    {
      assert CallOk(c, s, s.calls[i]);
    }
    CountSplit(s.calls, o, id);
  }

  // ── Deadlock freedom and termination ──────────────────────────────────────────

  /** A call that is neither finished nor waiting for a permit can always move. */
  predicate Blocked(s: State, call: Call) {
    || (call.pc.WaitGlobal? && s.globalFree == 0)
    || (call.pc.WaitHost? && call.semaphore.Some? && call.semaphore.value < |s.hostFree|
        && s.hostFree[call.semaphore.value] == 0)
  }

  lemma UnblockedMoves(c: Config, s: State, i: nat, reply: Reply)
    requires Inv(c, s) && i < |s.calls| && !s.calls[i].pc.Ended? && !Blocked(s, s.calls[i])
    ensures Enabled(s, Advance(i, reply))
  {
    assert CallOk(c, s, s.calls[i]);
  }

  /** A blocked call waits for a holder, and a holder of a global permit is never blocked. */
  lemma HolderAhead(c: Config, s: State, i: nat) returns (j: nat)
    requires c.Valid() && Inv(c, s) && i < |s.calls| && Blocked(s, s.calls[i])
    ensures j < |s.calls| && !s.calls[j].pc.Ended?
    ensures s.calls[i].pc.WaitGlobal? ==> Counts(GlobalHolders, s.calls[j]) && !Blocked(s, s.calls[j])
    ensures s.calls[i].pc.WaitHost?
        ==> Counts(HostHolders(s.calls[i].semaphore.value), s.calls[j]) && !s.calls[j].pc.WaitHost?
  {
    if s.calls[i].pc.WaitGlobal? {
      j := CountSome(s.calls, GlobalHolders);
    } else {
      var id := s.calls[i].semaphore.value;
      assert s.hostFree[id] + Count(s.calls, HostHolders(id)) == c.HostLimit();
      j := CountSome(s.calls, HostHolders(id));
      assert CallOk(c, s, s.calls[j]);
    }
  }

  /** No reachable state with an unfinished call is stuck, whatever the upstream would reply. */
  lemma NoDeadlock(c: Config, s: State, i: nat, reply: Reply)
    requires c.Valid() && Reachable(c, s) && i < |s.calls| && !s.calls[i].pc.Ended?
    ensures exists j :: 0 <= j < |s.calls| && Enabled(s, Advance(j, reply))
  {
    ReachableInv(c, s);
    var j := i;
    if Blocked(s, s.calls[j]) { j := HolderAhead(c, s, j); }
    if Blocked(s, s.calls[j]) { j := HolderAhead(c, s, j); }
    UnblockedMoves(c, s, j, reply);
  }

  function Rank(pc: Pc): nat {
    match pc
    case Lookup => 16
    case CheckLength => 15
    case ClaimEntry => 14
    case WaitHost => 13
    case RaiseOriginGauge => 12
    case WaitGlobal => 11
    case RaiseGauge => 10
    case Running => 9
    case LowerGauge(_) => 8
    case DropGlobal(_) => 7
    case LowerOriginGauge(_) => 6
    case DropHost(_) => 5
    case Sleeping => 2
    case Begin => 1
    case Ended => 0
  }

  /** Steps a call may still take. */
  function StepsLeft(call: Call): nat
    requires call.attempt <= 4
  {
    if call.pc.Ended? then 0 else (4 - call.attempt) * 20 + Rank(call.pc)
  }

  predicate AttemptsBounded(calls: seq<Call>) {
    forall i | 0 <= i < |calls| :: calls[i].attempt <= 4
  }

  function TotalStepsLeft(calls: seq<Call>): nat
    requires AttemptsBounded(calls)
  {
    if calls == [] then 0 else TotalStepsLeft(calls[..|calls| - 1]) + StepsLeft(calls[|calls| - 1])
  }

  lemma {:induction false} TotalUpdate(calls: seq<Call>, i: nat, call: Call)
    requires AttemptsBounded(calls) && i < |calls| && call.attempt <= 4
    ensures AttemptsBounded(calls[i := call])
    ensures TotalStepsLeft(calls[i := call]) == TotalStepsLeft(calls) - StepsLeft(calls[i]) + StepsLeft(call)
  {
    var n := |calls| - 1;
    var updated := calls[i := call];
    if i == n {
      assert updated[..n] == calls[..n];
    } else {
      assert updated[..n] == calls[..n][i := call];
      TotalUpdate(calls[..n], i, call);
    }
  }

  lemma {:induction false} TotalAtMost(calls: seq<Call>)
    requires forall i | 0 <= i < |calls| :: calls[i].attempt == 0 && calls[i].pc == Begin
    ensures TotalStepsLeft(calls) == 81 * |calls|
  {
    if calls != [] { TotalAtMost(calls[..|calls| - 1]); }
  }

  /** The call is nearer its end: it ended, moved on in its attempt, or began the next one. */
  predicate Spends(before: Call, after: Call) {
    && !before.pc.Ended?
    && (after.pc.Ended?
        || (after.attempt == before.attempt && Rank(after.pc) < Rank(before.pc))
        || (before.pc.Begin? && after.pc.Lookup? && after.attempt == before.attempt + 1))
  }

  lemma CancelSpends(s: State, i: nat)
    requires i < |s.calls| && s.calls[i].Cancellable()
    ensures Spends(s.calls[i], NextOnCancel(s, i).calls[i])
  {
  }

  lemma RegistrySpends(c: Config, s: State, i: nat)
    requires i < |s.calls| && s.calls[i].pc.InRegistry()
    ensures Spends(s.calls[i], NextInRegistry(c, s, i).calls[i])
  {
  }

  lemma TakingSpends(c: Config, s: State, i: nat, reply: Reply)
    requires i < |s.calls| && Enabled(s, Advance(i, reply)) && s.calls[i].pc.Taking()
    ensures Spends(s.calls[i], NextTaking(c, s, i, reply).calls[i])
  {
  }

  lemma ReleasingSpends(s: State, i: nat)
    requires i < |s.calls| && !s.calls[i].pc.InRegistry() && !s.calls[i].pc.Taking() && !s.calls[i].pc.Ended?
    requires s.calls[i].HoldsHost() ==> s.calls[i].semaphore.value < |s.hostFree|
    ensures Spends(s.calls[i], NextReleasing(s, i).calls[i])
  {
  }

  lemma CallSpends(c: Config, s: State, a: Action)
    requires Enabled(s, a)
    ensures |Next(c, s, a).calls| == |s.calls| && Spends(s.calls[a.call], Next(c, s, a).calls[a.call])
  {
    hide Spends, NextOnCancel, NextInRegistry, NextTaking, NextReleasing;
    StepShape(c, s, a);
    match a
    case Cancel(i) => CancelSpends(s, i);
    case Advance(i, reply) =>
      if s.calls[i].pc.InRegistry() { RegistrySpends(c, s, i); }
      else if s.calls[i].pc.Taking() { TakingSpends(c, s, i, reply); }
      else { ReleasingSpends(s, i); }
  }

  lemma StepsLeftFall(c: Config, s: State, a: Action)
    requires c.Valid() && Enabled(s, a) && CallOk(c, s, s.calls[a.call])
    ensures var t := Next(c, s, a);
            |t.calls| == |s.calls| && t.calls[a.call].attempt <= 4
                && StepsLeft(t.calls[a.call]) < StepsLeft(s.calls[a.call])
  {
    CallSpends(c, s, a);
    CallOkStep(c, s, a);
    hide Next, CallOk;
    StepShape(c, s, a);
  }

  /** Every step of every call uses up one of a bounded number of steps. */
  lemma {:induction false} StepsAreSpent(c: Config, states: seq<State>, acts: seq<Action>, k: nat)
    requires c.Valid() && Run(c, states, acts) && Init(c, states[0]) && k < |states|
    ensures |states[k].calls| == |states[0].calls|
    ensures AttemptsBounded(states[k].calls) && TotalStepsLeft(states[k].calls) + k <= 81 * |states[0].calls|
  {
    InitEstablishes(c, states[0]);
    InvAlong(c, states, acts, k);
    if k == 0 {
      TotalAtMost(states[0].calls);
    } else {
      var s, a := states[k - 1], acts[k - 1];
      StepsAreSpent(c, states, acts, k - 1);
      InvAlong(c, states, acts, k - 1);
      assert CallOk(c, s, s.calls[a.call]);
      StepShape(c, s, a);
      StepsLeftFall(c, s, a);
      TotalUpdate(s.calls, a.call, states[k].calls[a.call]);
    }
  }

  lemma {:induction false} NothingLeft(calls: seq<Call>, i: nat)
    requires AttemptsBounded(calls) && i < |calls| && TotalStepsLeft(calls) == 0
    ensures calls[i].pc.Ended?
  {
    if i < |calls| - 1 { NothingLeft(calls[..|calls| - 1], i); }
  }

  /**
    Every run is finite, at most 81 steps a call, and one that cannot be continued has
    finished every call and handed back every permit.
  */
  lemma EveryRunCompletes(c: Config, states: seq<State>, acts: seq<Action>)
    requires c.Valid() && Run(c, states, acts) && Init(c, states[0])
    ensures |acts| <= 81 * |states[0].calls|
    ensures var s := states[|acts|];
            (forall a: Action :: !Enabled(s, a)) ==>
              && (forall i | 0 <= i < |s.calls| :: s.calls[i].pc.Ended?)
              && s.globalFree == c.GlobalLimit()
              && (forall id | 0 <= id < |s.hostFree| :: s.hostFree[id] == c.HostLimit())
              && s.gauge == s.leaked
  {
    StepsAreSpent(c, states, acts, |acts|);
    InitEstablishes(c, states[0]);
    InvAlong(c, states, acts, |acts|);
    var s := states[|acts|];
    assert Reachable(c, s);
    if forall a: Action :: !Enabled(s, a) {
      forall i | 0 <= i < |s.calls| ensures s.calls[i].pc.Ended? && CallOk(c, s, s.calls[i]) {
        if !s.calls[i].pc.Ended? { NoDeadlock(c, s, i, Retry.AttemptOk(())); }
      }
      CountNone(s.calls, GlobalHolders);
      CountNone(s.calls, GaugeHolders);
      forall id | 0 <= id < |s.hostFree| ensures s.hostFree[id] == c.HostLimit() {
        CountNone(s.calls, HostHolders(id));
      }
    }
  }

  // ── How a call ends ───────────────────────────────────────────────────────────

  /** The call has ended, or is on its way out after its last attempt. */
  predicate Ending(pc: Pc) {
    match pc
    case LowerGauge(after) => after == ToEnd
    case DropGlobal(after) => after == ToEnd
    case LowerOriginGauge(after) => after == ToEnd
    case DropHost(after) => after == ToEnd
    case Ended => true
    case _ => false
  }

  /** In this step an attempt of call `i` ends with a reply that stops the loop. */
  predicate StopsCall(c: Config, s: State, a: Action, i: nat) {
    && a.Advance? && a.call == i && i < |s.calls| && s.calls[i].pc.Running?
    && Retry.Stops(c.fetcher, a.reply, s.calls[i].attempt)
  }

  lemma EndingEntered(c: Config, s: State, a: Action, i: nat)
    requires Enabled(s, a) && i < |s.calls| && i < |Next(c, s, a).calls| && Ending(Next(c, s, a).calls[i].pc)
    ensures Ending(s.calls[i].pc) || a == Cancel(i) || StopsCall(c, s, a, i)
  {
    StepShape(c, s, a);
    if a.call == i {
      match a
      case Cancel(_) =>
      case Advance(_, reply) =>
        if s.calls[i].pc.InRegistry() { RegistrySpends(c, s, i); }
    }
  }

  lemma NobodyEnding(c: Config, s: State)
    requires Init(c, s)
    ensures forall i | 0 <= i < |s.calls| :: !Ending(s.calls[i].pc)
  {
  }

  /** A call that has ended and was not dropped ended at an attempt whose reply stops the loop. */
  lemma {:induction false} EndedAtAStop(c: Config, states: seq<State>, acts: seq<Action>, k: nat, i: nat)
    returns (m: nat)
    requires Run(c, states, acts) && Init(c, states[0]) && k <= |acts|
    requires i < |states[k].calls| && Ending(states[k].calls[i].pc)
    requires forall j | 0 <= j < k :: acts[j] != Cancel(i)
    ensures m < k && StopsCall(c, states[m], acts[m], i)
  {
    NobodyEnding(c, states[0]);
    hide Next, Ending;
    StepShape(c, states[k - 1], acts[k - 1]);
    EndingEntered(c, states[k - 1], acts[k - 1], i);
    m := k - 1;
    if Ending(states[m].calls[i].pc) { m := EndedAtAStop(c, states, acts, m, i); }
  }

  // ── The in-flight gauge ───────────────────────────────────────────────────────

  /** The step drops a call in mid-attempt. */
  predicate DropsRunning(s: State, a: Action) {
    a.Cancel? && a.call < |s.calls| && s.calls[a.call].pc.Running?
  }

  /** How many of the first `k` steps drop a call in mid-attempt. */
  function DroppedRunning(states: seq<State>, acts: seq<Action>, k: nat): nat
    requires k <= |acts| <= |states|
  {
    if k == 0 then 0
    else DroppedRunning(states, acts, k - 1) + if DropsRunning(states[k - 1], acts[k - 1]) then 1 else 0
  }

  lemma LeakStep(c: Config, s: State, a: Action)
    requires Enabled(s, a)
    ensures Next(c, s, a).leaked == s.leaked + if DropsRunning(s, a) then 1 else 0
  {
  }

  lemma {:induction false} LeakedIsDropped(c: Config, states: seq<State>, acts: seq<Action>, k: nat)
    requires Run(c, states, acts) && Init(c, states[0]) && k <= |acts|
    ensures states[k].leaked == DroppedRunning(states, acts, k)
  {
    if k > 0 {
      LeakedIsDropped(c, states, acts, k - 1);
      LeakStep(c, states[k - 1], acts[k - 1]);
    }
  }

  lemma {:induction false} NoneDroppedIff(states: seq<State>, acts: seq<Action>, k: nat)
    requires k <= |acts| <= |states|
    ensures DroppedRunning(states, acts, k) == 0 <==> forall m | 0 <= m < k :: !DropsRunning(states[m], acts[m])
  {
    if k > 0 { NoneDroppedIff(states, acts, k - 1); }
  }

  /**
    In every state of every run the in-flight gauge is over by the number of attempts dropped
    so far, hence right exactly when none was.
  */
  lemma GaugeExactIff(c: Config, states: seq<State>, acts: seq<Action>, k: nat)
    requires c.Valid() && Run(c, states, acts) && Init(c, states[0]) && k <= |acts|
    ensures states[k].gauge == Count(states[k].calls, GaugeHolders) + DroppedRunning(states, acts, k)
    ensures states[k].gauge == Count(states[k].calls, GaugeHolders)
       <==> forall m | 0 <= m < k :: !DropsRunning(states[m], acts[m])
  {
    PermitsConserved(c, states, acts, k);
    LeakedIsDropped(c, states, acts, k);
    NoneDroppedIff(states, acts, k);
  }

  // ── The registry ──────────────────────────────────────────────────────────────

  lemma RegistryRaceStep(c: Config, s: State, a: Action)
    requires c.Valid() && Enabled(s, a) && Inv(c, s)
    ensures var t := Next(c, s, a);
            || |t.registry| + Count(t.calls, Registrants) <= |s.registry| + Count(s.calls, Registrants)
            || |t.registry| < c.registryCapacity
  {
    hide Count, Inv;
    var t := Next(c, s, a);
    StepShape(c, s, a);
    CountUpdate(s.calls, a.call, t.calls[a.call], Registrants);
  }

  /**
    Length check and insertion race, so the registry can pass its capacity, but by less
    than the number of calls that are ever between the two at once.
  */
  lemma {:induction false} RegistrySoftCap(c: Config, states: seq<State>, acts: seq<Action>, racers: nat, k: nat)
    requires c.Valid() && Run(c, states, acts) && Init(c, states[0]) && k < |states|
    requires forall j | 0 <= j < |states| :: Count(states[j].calls, Registrants) <= racers
    ensures |states[k].registry| + Count(states[k].calls, Registrants) <= c.registryCapacity - 1 + racers
  {
    if k == 0 {
      CountNone(states[0].calls, Registrants);
    } else {
      RegistrySoftCap(c, states, acts, racers, k - 1);
      var s, a := states[k - 1], acts[k - 1];
      InitEstablishes(c, states[0]);
      InvAlong(c, states, acts, k - 1);
      RegistryRaceStep(c, s, a);
      assert Count(states[k].calls, Registrants) <= racers;
    }
  }

  /** With N calls in all, the overshoot is at most N - 1. */
  lemma RegistryNeverFarOver(c: Config, states: seq<State>, acts: seq<Action>, k: nat)
    requires c.Valid() && Run(c, states, acts) && Init(c, states[0]) && k < |states|
    ensures |states[k].registry| <= c.registryCapacity - 1 + |states[0].calls|
  {
    forall j | 0 <= j < |states| ensures Count(states[j].calls, Registrants) <= |states[0].calls| {
      StepsAreSpent(c, states, acts, j);
    }
    RegistrySoftCap(c, states, acts, |states[0].calls|, k);
  }

  /** A registered origin keeps its semaphore for the rest of the run. */
  lemma {:induction false} RegistrySticks(c: Config, states: seq<State>, acts: seq<Action>, j: nat, k: nat, o: Origin)
    requires Run(c, states, acts) && j <= k < |states| && o in states[j].registry
    ensures o in states[k].registry && states[k].registry[o] == states[j].registry[o]
  {
    hide Next;
    if j < k {
      RegistrySticks(c, states, acts, j, k - 1, o);
      StepShape(c, states[k - 1], acts[k - 1]);
    }
  }

  /** Two gated attempts, at any two moments of a run, share a semaphore exactly when they share an origin. */
  lemma OneSemaphorePerOrigin(c: Config, states: seq<State>, acts: seq<Action>, j: nat, k: nat, x: nat, y: nat)
    requires c.Valid() && Run(c, states, acts) && Init(c, states[0]) && j <= k < |states|
    requires x < |states[j].calls| && y < |states[k].calls|
    requires states[j].calls[x].semaphore.Some? && states[k].calls[y].semaphore.Some?
    ensures states[j].calls[x].semaphore == states[k].calls[y].semaphore
       <==> states[j].calls[x].origin == states[k].calls[y].origin
  {
    InitEstablishes(c, states[0]);
    InvAlong(c, states, acts, j);
    InvAlong(c, states, acts, k);
    assert CallOk(c, states[j], states[j].calls[x]);
    assert CallOk(c, states[k], states[k].calls[y]);
    RegistrySticks(c, states, acts, j, k, states[j].calls[x].origin);
  }
}
