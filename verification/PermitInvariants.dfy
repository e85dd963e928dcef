/** What every step of the permit system keeps: conservation of permits, gauges and the registry. */
module PermitInvariants {
  import opened Wrappers
  import opened Permits
  import Retry

  /** No semaphore has been chosen for the current attempt, or it has been given up. */
  predicate Unplaced(pc: Pc) {
    pc.Begin? || pc.Lookup? || pc.CheckLength? || pc.ClaimEntry? || pc.Sleeping? || pc.Ended?
  }

  /** The call is bound for another attempt. */
  predicate MayRetry(call: Call) {
    match call.pc
    case Begin => true
    case Sleeping => true
    case LowerGauge(after) => after.ToSleep?
    case DropGlobal(after) => after.ToSleep?
    case LowerOriginGauge(after) => after.ToSleep?
    case DropHost(after) => after.ToSleep?
    case _ => false
  }

  predicate CallOk(c: Config, s: State, call: Call) {
    && (Unplaced(call.pc) ==> call.semaphore.None?)
    && (call.pc.WaitHost? || call.pc.RaiseOriginGauge? ==> call.semaphore.Some?)
    && (call.semaphore.Some? ==> call.origin in s.registry && s.registry[call.origin] == call.semaphore.value)
    && (call.pc.CheckLength? || call.pc.ClaimEntry? ==> c.fetcher.perHostLimit.Some?)
    && call.attempt <= 4
    && (MayRetry(call) ==> call.attempt <= 3 && call.attempt < c.fetcher.maxAttempts)
    && call.attempt <= c.fetcher.maxAttempts
  }

  predicate CallsOk(c: Config, s: State) {
    forall i | 0 <= i < |s.calls| :: CallOk(c, s, s.calls[i])
  }

  /** Registered origins and semaphores correspond one to one. */
  predicate RegistryOk(c: Config, s: State) {
    && |s.registry| == |s.hostFree|
    && (forall o | o in s.registry :: s.registry[o] < |s.hostFree|)
    && (forall o, o' | o in s.registry && o' in s.registry && s.registry[o] == s.registry[o'] :: o == o')
    && (s.hostFree != [] ==> c.fetcher.perHostLimit.Some?)
  }

  predicate GlobalConserved(c: Config, s: State) {
    s.globalFree + Count(s.calls, GlobalHolders) == c.GlobalLimit()
  }

  predicate HostConserved(c: Config, s: State) {
    forall id | 0 <= id < |s.hostFree| :: s.hostFree[id] + Count(s.calls, HostHolders(id)) == c.HostLimit()
  }

  predicate GaugeBalanced(s: State) {
    s.gauge == Count(s.calls, GaugeHolders) + s.leaked
  }

  ghost predicate OriginGaugesBalanced(s: State) {
    forall o: Origin :: OriginGauge(s, o) == Count(s.calls, GuardHolders(o))
  }

  ghost predicate Inv(c: Config, s: State) {
    && CallsOk(c, s) && RegistryOk(c, s)
    && GlobalConserved(c, s) && HostConserved(c, s)
    && GaugeBalanced(s) && OriginGaugesBalanced(s)
  }

  lemma InitEstablishes(c: Config, s: State)
    requires c.Valid() && Init(c, s)
    ensures Inv(c, s)
  {
    CountNone(s.calls, GlobalHolders);
    CountNone(s.calls, GaugeHolders);
    forall o: Origin ensures Count(s.calls, GuardHolders(o)) == 0 {
      CountNone(s.calls, GuardHolders(o));
    }
  }

  /** The step changed call `i` only and left the registry alone. */
  predicate LocalStep(s: State, t: State, i: nat)
    requires i < |s.calls|
  {
    && |t.calls| == |s.calls| && t.calls == s.calls[i := t.calls[i]] && t.calls[i].origin == s.calls[i].origin
    && t.registry == s.registry && |t.hostFree| == |s.hostFree|
  }

  /** The step registered call `i`'s origin with a new semaphore. */
  predicate RegisterStep(c: Config, s: State, t: State, i: nat)
    requires i < |s.calls|
  {
    && s.calls[i].pc.ClaimEntry? && s.calls[i].origin !in s.registry
    && t.registry == s.registry[s.calls[i].origin := |s.hostFree|]
    && t.hostFree == s.hostFree + [c.HostLimit()]
    && t.calls == s.calls[i := s.calls[i].(pc := WaitHost, semaphore := Some(|s.hostFree|))]
  }

  lemma CancelShape(s: State, i: nat)
    requires i < |s.calls|
    ensures LocalStep(s, NextOnCancel(s, i), i)
    ensures NextOnCancel(s, i).hostFree == s.hostFree && NextOnCancel(s, i).originGauge == s.originGauge
  {
  }

  lemma RegistryShape(c: Config, s: State, i: nat)
    requires i < |s.calls|
    ensures var t := NextInRegistry(c, s, i);
            (LocalStep(s, t, i) && t.hostFree == s.hostFree) || RegisterStep(c, s, t, i)
    ensures NextInRegistry(c, s, i).originGauge == s.originGauge
  {
  }

  lemma PermitShape(c: Config, s: State, i: nat, reply: Reply)
    requires Enabled(s, Advance(i, reply)) && !s.calls[i].pc.InRegistry()
    ensures LocalStep(s, Next(c, s, Advance(i, reply)), i)
  {
  }

  /** A step rewrites its own call only, and the registry only ever gains that call's origin. */
  lemma StepShape(c: Config, s: State, a: Action)
    requires Enabled(s, a)
    ensures LocalStep(s, Next(c, s, a), a.call) || RegisterStep(c, s, Next(c, s, a), a.call)
    ensures |Next(c, s, a).calls| == |s.calls| && Next(c, s, a).calls == s.calls[a.call := Next(c, s, a).calls[a.call]]
  {
    match a
    case Cancel(i) => CancelShape(s, i);
    case Advance(i, reply) =>
      if s.calls[i].pc.InRegistry() {
        RegistryShape(c, s, i);
      } else {
        PermitShape(c, s, i, reply);
      }
  }

  lemma CallOkOnCancel(c: Config, s: State, i: nat)
    requires i < |s.calls| && s.calls[i].Cancellable() && CallOk(c, s, s.calls[i])
    ensures var t := NextOnCancel(s, i); CallOk(c, t, t.calls[i])
  {
  }

  lemma CallOkInRegistry(c: Config, s: State, i: nat)
    requires c.Valid() && i < |s.calls| && s.calls[i].pc.InRegistry() && CallOk(c, s, s.calls[i])
    ensures var t := NextInRegistry(c, s, i); CallOk(c, t, t.calls[i])
  {
  }

  lemma CallOkTaking(c: Config, s: State, i: nat, reply: Reply)
    requires Enabled(s, Advance(i, reply)) && s.calls[i].pc.Taking() && CallOk(c, s, s.calls[i])
    ensures var t := NextTaking(c, s, i, reply); CallOk(c, t, t.calls[i])
  {
  }

  lemma CallOkDropHost(c: Config, s: State, i: nat)
    requires Enabled(s, Advance(i, Retry.AttemptOk(()))) && s.calls[i].pc.DropHost? && CallOk(c, s, s.calls[i])
    ensures var t := NextReleasing(s, i); CallOk(c, t, t.calls[i])
  {
  }

  lemma CallOkReleasing(c: Config, s: State, i: nat)
    requires Enabled(s, Advance(i, Retry.AttemptOk(())))
    requires !s.calls[i].pc.InRegistry() && !s.calls[i].pc.Taking() && CallOk(c, s, s.calls[i])
    ensures var t := NextReleasing(s, i); CallOk(c, t, t.calls[i])
  {
    if s.calls[i].pc.DropHost? { CallOkDropHost(c, s, i); }
  }

  /** The acting call is still in order after its step. */
  lemma CallOkStep(c: Config, s: State, a: Action)
    requires c.Valid() && Enabled(s, a) && CallOk(c, s, s.calls[a.call])
    ensures var t := Next(c, s, a); CallOk(c, t, t.calls[a.call])
  {
    match a
    case Cancel(i) => CallOkOnCancel(c, s, i);
    case Advance(i, reply) =>
      if s.calls[i].pc.InRegistry() {
        CallOkInRegistry(c, s, i);
      } else if s.calls[i].pc.Taking() {
        CallOkTaking(c, s, i, reply);
      } else {
        CallOkReleasing(c, s, i);
      }
  }

  lemma StructureStep(c: Config, s: State, a: Action)
    requires c.Valid() && Enabled(s, a) && CallsOk(c, s) && RegistryOk(c, s)
    ensures CallsOk(c, Next(c, s, a)) && RegistryOk(c, Next(c, s, a))
  {
    var t := Next(c, s, a);
    StepShape(c, s, a);
    assert CallOk(c, s, s.calls[a.call]);
    CallOkStep(c, s, a);
    forall i | 0 <= i < |t.calls| && i != a.call ensures CallOk(c, t, t.calls[i]) {
      assert CallOk(c, s, s.calls[i]);
    }
  }

  // ── What a step moves, its acting call gains or loses ─────────────────────────

  predicate GlobalExchange(s: State, t: State, i: nat)
    requires i < |s.calls| && i < |t.calls|
  {
    && t.globalFree + One(GlobalHolders, t.calls[i]) == s.globalFree + One(GlobalHolders, s.calls[i])
    && t.gauge - t.leaked - One(GaugeHolders, t.calls[i]) == s.gauge - s.leaked - One(GaugeHolders, s.calls[i])
  }

  predicate OriginExchange(s: State, t: State, i: nat, o: Origin)
    requires i < |s.calls| && i < |t.calls|
  {
    OriginGauge(t, o) - One(GuardHolders(o), t.calls[i]) == OriginGauge(s, o) - One(GuardHolders(o), s.calls[i])
  }

  predicate HostExchange(s: State, t: State, i: nat, id: nat)
    requires i < |s.calls| && i < |t.calls| && id < |s.hostFree| && id < |t.hostFree|
  {
    t.hostFree[id] + One(HostHolders(id), t.calls[i]) == s.hostFree[id] + One(HostHolders(id), s.calls[i])
  }

  lemma TakingExchange(c: Config, s: State, i: nat, reply: Reply, o: Origin)
    requires Enabled(s, Advance(i, reply)) && s.calls[i].pc.Taking() && CallOk(c, s, s.calls[i])
    ensures var t := NextTaking(c, s, i, reply); GlobalExchange(s, t, i) && OriginExchange(s, t, i, o)
  {
  }

  lemma ReleasingExchange(c: Config, s: State, i: nat, o: Origin)
    requires Enabled(s, Advance(i, Retry.AttemptOk(())))
    requires !s.calls[i].pc.InRegistry() && !s.calls[i].pc.Taking() && CallOk(c, s, s.calls[i])
    ensures var t := NextReleasing(s, i); GlobalExchange(s, t, i) && OriginExchange(s, t, i, o)
  {
  }

  lemma CancelExchange(c: Config, s: State, i: nat, o: Origin)
    requires i < |s.calls| && s.calls[i].Cancellable() && CallOk(c, s, s.calls[i])
    ensures GlobalExchange(s, NextOnCancel(s, i), i) && OriginExchange(s, NextOnCancel(s, i), i, o)
  {
  }

  lemma RegistryExchange(c: Config, s: State, i: nat, o: Origin)
    requires i < |s.calls| && s.calls[i].pc.InRegistry() && CallOk(c, s, s.calls[i])
    ensures GlobalExchange(s, NextInRegistry(c, s, i), i) && OriginExchange(s, NextInRegistry(c, s, i), i, o)
  {
  }

  lemma OtherExchange(c: Config, s: State, a: Action, o: Origin)
    requires Enabled(s, a) && (a.Cancel? || s.calls[a.call].pc.InRegistry()) && CallOk(c, s, s.calls[a.call])
    ensures var t := Next(c, s, a); GlobalExchange(s, t, a.call) && OriginExchange(s, t, a.call, o)
  {
    hide GlobalExchange, OriginExchange, NextOnCancel, NextInRegistry;
    match a
    case Cancel(i) => CancelExchange(c, s, i, o);
    case Advance(i, _) => RegistryExchange(c, s, i, o);
  }

  lemma StepExchange(c: Config, s: State, a: Action, o: Origin)
    requires Enabled(s, a) && CallOk(c, s, s.calls[a.call])
    ensures var t := Next(c, s, a);
            |t.calls| == |s.calls| && GlobalExchange(s, t, a.call) && OriginExchange(s, t, a.call, o)
  {
    if a.Cancel? || s.calls[a.call].pc.InRegistry() {
      OtherExchange(c, s, a, o);
    } else if s.calls[a.call].pc.Taking() {
      TakingExchange(c, s, a.call, a.reply, o);
    } else {
      ReleasingExchange(c, s, a.call, o);
    }
    StepShape(c, s, a);
  }

  lemma GlobalStep(c: Config, s: State, a: Action)
    requires Enabled(s, a) && CallOk(c, s, s.calls[a.call]) && GlobalConserved(c, s) && GaugeBalanced(s)
    ensures GlobalConserved(c, Next(c, s, a)) && GaugeBalanced(Next(c, s, a))
  {
    var t := Next(c, s, a);
    StepShape(c, s, a);
    StepExchange(c, s, a, s.calls[a.call].origin);
    CountUpdate(s.calls, a.call, t.calls[a.call], GlobalHolders);
    CountUpdate(s.calls, a.call, t.calls[a.call], GaugeHolders);
  }

  lemma HostLocalStep(c: Config, s: State, a: Action, id: nat)
    requires Enabled(s, a) && LocalStep(s, Next(c, s, a), a.call) && CallOk(c, s, s.calls[a.call])
    requires id < |s.hostFree|
    ensures HostExchange(s, Next(c, s, a), a.call, id)
  {
    match a
    case Cancel(i) => CancelShape(s, i);
    case Advance(i, reply) =>
      if s.calls[i].pc.InRegistry() {
        RegistryShape(c, s, i);
      }
  }

  lemma HostStepAt(c: Config, s: State, a: Action, id: nat)
    requires Enabled(s, a) && CallsOk(c, s) && RegistryOk(c, s) && HostConserved(c, s)
    requires id < |Next(c, s, a).hostFree|
    ensures Next(c, s, a).hostFree[id] + Count(Next(c, s, a).calls, HostHolders(id)) == c.HostLimit()
  {
    var t := Next(c, s, a);
    StepShape(c, s, a);
    assert CallOk(c, s, s.calls[a.call]);
    CountUpdate(s.calls, a.call, t.calls[a.call], HostHolders(id));
    if LocalStep(s, t, a.call) {
      HostLocalStep(c, s, a, id);
    } else if id == |s.hostFree| {
      forall i | 0 <= i < |s.calls| ensures !Counts(HostHolders(id), s.calls[i]) {
        assert CallOk(c, s, s.calls[i]);
      }
      CountNone(s.calls, HostHolders(id));
    }
  }

  lemma HostStep(c: Config, s: State, a: Action)
    requires Enabled(s, a) && CallsOk(c, s) && RegistryOk(c, s) && HostConserved(c, s)
    ensures HostConserved(c, Next(c, s, a))
  {
    forall id | 0 <= id < |Next(c, s, a).hostFree|
      ensures Next(c, s, a).hostFree[id] + Count(Next(c, s, a).calls, HostHolders(id)) == c.HostLimit()
    {
      HostStepAt(c, s, a, id);
    }
  }

  lemma OriginGaugeStepAt(c: Config, s: State, a: Action, o: Origin)
    requires Enabled(s, a) && CallsOk(c, s) && OriginGaugesBalanced(s)
    ensures OriginGauge(Next(c, s, a), o) == Count(Next(c, s, a).calls, GuardHolders(o))
  {
    StepShape(c, s, a);
    assert CallOk(c, s, s.calls[a.call]);
    StepExchange(c, s, a, o);
    CountUpdate(s.calls, a.call, Next(c, s, a).calls[a.call], GuardHolders(o));
  }

  lemma InvStep(c: Config, s: State, a: Action)
    requires c.Valid() && Enabled(s, a) && Inv(c, s)
    ensures Inv(c, Next(c, s, a))
  {
    StructureStep(c, s, a);
    assert CallOk(c, s, s.calls[a.call]);
    GlobalStep(c, s, a);
    HostStep(c, s, a);
    forall o: Origin ensures OriginGauge(Next(c, s, a), o) == Count(Next(c, s, a).calls, GuardHolders(o)) {
      OriginGaugeStepAt(c, s, a, o);
    }
  }

  lemma {:induction false} InvAlong(c: Config, states: seq<State>, acts: seq<Action>, k: nat)
    requires c.Valid() && Run(c, states, acts) && Inv(c, states[0]) && k < |states|
    ensures Inv(c, states[k])
  {
    if k > 0 {
      InvAlong(c, states, acts, k - 1);
      InvStep(c, states[k - 1], acts[k - 1]);
    }
  }

  /** The state occurs in some run. */
  ghost predicate Reachable(c: Config, s: State) {
    exists states: seq<State>, acts: seq<Action> :: Run(c, states, acts) && Init(c, states[0]) && states[|acts|] == s
  }

  lemma ReachableInv(c: Config, s: State)
    requires c.Valid() && Reachable(c, s)
    ensures Inv(c, s)
  {
    var states: seq<State>, acts: seq<Action> :| Run(c, states, acts) && Init(c, states[0]) && states[|acts|] == s;
    InitEstablishes(c, states[0]);
    InvAlong(c, states, acts, |acts|);
  }
}
