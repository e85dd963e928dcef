/** Short runs of single calls, from which the longer schedules are put together. */
module PermitSteps {
  import opened Wrappers
  import opened Permits
  import Retry

  ghost predicate Reaches(c: Config, s: State, t: State) {
    exists states: seq<State>, acts: seq<Action> :: Run(c, states, acts) && states[0] == s && states[|acts|] == t
  }

  const FINE: Reply := Retry.AttemptOk(())

  lemma RunExtend(c: Config, states: seq<State>, acts: seq<Action>, a: Action)
    requires Run(c, states, acts) && Enabled(states[|acts|], a)
    ensures Run(c, states + [Next(c, states[|acts|], a)], acts + [a])
  {
  }

  lemma ThenBy(c: Config, s0: State, s: State, a: Action, t: State)
    requires Reaches(c, s0, s) && Enabled(s, a) && Next(c, s, a) == t
    ensures Reaches(c, s0, t)
  {
    var states: seq<State>, acts: seq<Action> :| Run(c, states, acts) && states[0] == s0 && states[|acts|] == s;
    RunExtend(c, states, acts, a);
    assert (states + [t])[0] == s0 && (states + [t])[|acts + [a]|] == t;
  }

  lemma Then(c: Config, s0: State, s: State, i: nat, t: State)
    requires Reaches(c, s0, s) && Enabled(s, Advance(i, FINE)) && Next(c, s, Advance(i, FINE)) == t
    ensures Reaches(c, s0, t)
  {
    ThenBy(c, s0, s, Advance(i, FINE), t);
  }

  /** A call looks its origin up and does not find it. */
  lemma LookUp(c: Config, s0: State, s: State, i: nat) returns (t: State)
    requires Reaches(c, s0, s) && i < |s.calls| && c.fetcher.perHostLimit.Some?
    requires s.calls[i] == Call(s.calls[i].origin, Begin, 0, None) && s.calls[i].origin !in s.registry
    ensures Reaches(c, s0, t)
    ensures t == s.(calls := s.calls[i := Call(s.calls[i].origin, CheckLength, 1, None)])
  {
    var o := s.calls[i].origin;
    var u := Goto(Put(s, i, Call(o, Lookup, 1, None)), i, Lookup);
    assert u == Next(c, s, Advance(i, FINE));
    Then(c, s0, s, i, u);
    t := s.(calls := s.calls[i := Call(o, CheckLength, 1, None)]);
    assert t.calls == u.calls[i := Call(o, CheckLength, 1, None)];
    Then(c, s0, u, i, t);
  }

  /** It finds room and registers its origin. */
  lemma Register(c: Config, s0: State, s: State, i: nat) returns (t: State)
    requires Reaches(c, s0, s) && i < |s.calls| && |s.registry| < c.registryCapacity
    requires s.calls[i] == Call(s.calls[i].origin, CheckLength, 1, None) && s.calls[i].origin !in s.registry
    ensures Reaches(c, s0, t)
    ensures t.calls == s.calls[i := Call(s.calls[i].origin, WaitHost, 1, Some(|s.hostFree|))]
    ensures t.registry == s.registry[s.calls[i].origin := |s.hostFree|] && t.hostFree == s.hostFree + [c.HostLimit()]
    ensures t.globalFree == s.globalFree && t.leaked == s.leaked
  {
    var o := s.calls[i].origin;
    var u := s.(calls := s.calls[i := Call(o, ClaimEntry, 1, None)]);
    Then(c, s0, s, i, u);
    t := s.(calls := s.calls[i := Call(o, WaitHost, 1, Some(|s.hostFree|))],
            registry := s.registry[o := |s.hostFree|], hostFree := s.hostFree + [c.HostLimit()]);
    assert t.calls == u.calls[i := Call(o, WaitHost, 1, Some(|s.hostFree|))];
    Then(c, s0, u, i, t);
  }

  lemma RunFromGlobal(c: Config, s0: State, s: State, i: nat) returns (t: State)
    requires Reaches(c, s0, s) && i < |s.calls| && s.calls[i].pc.WaitGlobal? && s.globalFree > 0
    requires s.calls[i].semaphore.Some? ==> s.calls[i].semaphore.value < |s.hostFree|
    ensures Reaches(c, s0, t)
    ensures t.calls == s.calls[i := s.calls[i].(pc := Running)]
    ensures t.registry == s.registry && t.hostFree == s.hostFree && t.globalFree == s.globalFree - 1
    ensures t.leaked == s.leaked
  {
    var call := s.calls[i];
    var u := s.(calls := s.calls[i := call.(pc := RaiseGauge)], globalFree := s.globalFree - 1);
    Then(c, s0, s, i, u);
    t := u.(calls := s.calls[i := call.(pc := Running)], gauge := u.gauge + 1);
    assert t.calls == u.calls[i := call.(pc := Running)];
    Then(c, s0, u, i, t);
  }

  /** It finds the registry full and runs ungated. */
  lemma SlipBy(c: Config, s0: State, s: State, i: nat) returns (t: State)
    requires Reaches(c, s0, s) && i < |s.calls| && |s.registry| >= c.registryCapacity && s.globalFree > 0
    requires s.calls[i] == Call(s.calls[i].origin, CheckLength, 1, None)
    ensures Reaches(c, s0, t)
    ensures t.calls == s.calls[i := Call(s.calls[i].origin, Running, 1, None)]
    ensures t.registry == s.registry && t.hostFree == s.hostFree && t.globalFree == s.globalFree - 1
    ensures t.leaked == s.leaked
  {
    var o := s.calls[i].origin;
    var u := s.(calls := s.calls[i := Call(o, WaitGlobal, 1, None)]);
    Then(c, s0, s, i, u);
    t := RunFromGlobal(c, s0, u, i);
    assert t.calls == s.calls[i := Call(o, Running, 1, None)];
  }

  /** A call of a registered origin takes both permits and runs. */
  lemma RunFromHost(c: Config, s0: State, s: State, i: nat, id: nat) returns (t: State)
    requires Reaches(c, s0, s) && i < |s.calls| && id < |s.hostFree| && s.hostFree[id] > 0 && s.globalFree > 0
    requires s.calls[i] == Call(s.calls[i].origin, WaitHost, 1, Some(id))
    ensures Reaches(c, s0, t)
    ensures t.calls == s.calls[i := Call(s.calls[i].origin, Running, 1, Some(id))]
    ensures t.registry == s.registry && t.hostFree == s.hostFree[id := s.hostFree[id] - 1]
        && t.globalFree == s.globalFree - 1
    ensures t.leaked == s.leaked
  {
    var o := s.calls[i].origin;
    var u := s.(calls := s.calls[i := Call(o, RaiseOriginGauge, 1, Some(id))],
        hostFree := s.hostFree[id := s.hostFree[id] - 1]);
    Then(c, s0, s, i, u);
    var v := u.(calls := s.calls[i := Call(o, WaitGlobal, 1, Some(id))],
                originGauge := u.originGauge[o := OriginGauge(u, o) + 1]);
    assert v.calls == u.calls[i := Call(o, WaitGlobal, 1, Some(id))];
    Then(c, s0, u, i, v);
    t := RunFromGlobal(c, s0, v, i);
    assert t.calls == s.calls[i := Call(o, Running, 1, Some(id))];
  }

  lemma EnterRegistered(c: Config, s0: State, s: State, i: nat) returns (t: State)
    requires Reaches(c, s0, s) && i < |s.calls| && c.fetcher.perHostLimit.Some?
    requires s.calls[i] == Call(s.calls[i].origin, Begin, 0, None) && s.calls[i].origin in s.registry
    ensures Reaches(c, s0, t)
    ensures t == s.(calls := s.calls[i := Call(s.calls[i].origin, WaitHost, 1, Some(s.registry[s.calls[i].origin]))])
  {
    var o := s.calls[i].origin;
    var u := s.(calls := s.calls[i := Call(o, Lookup, 1, None)]);
    Then(c, s0, s, i, u);
    t := s.(calls := s.calls[i := Call(o, WaitHost, 1, Some(s.registry[o]))]);
    assert t.calls == u.calls[i := Call(o, WaitHost, 1, Some(s.registry[o]))];
    Then(c, s0, u, i, t);
  }
}
