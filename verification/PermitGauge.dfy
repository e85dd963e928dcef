/** The gauge leak is reachable: one call, dropped while its attempt runs, leaves the gauge at one. */
module PermitGauge {
  import opened Wrappers
  import opened Permits
  import opened PermitInvariants
  import opened PermitSteps

  lemma UngatedByConfig(c: Config, s: State) returns (t: State)
    requires c.Valid() && Init(c, s) && |s.calls| == 1 && c.fetcher.perHostLimit.None?
    ensures Reaches(c, s, t) && t == s.(calls := [Call(s.calls[0].origin, WaitGlobal, 1, None)])
  {
    var o := s.calls[0].origin;
    assert Reaches(c, s, s) by { assert Run(c, [s], []); }
    var u := s.(calls := [Call(o, Lookup, 1, None)]);
    assert s.calls[0 := Call(o, Lookup, 1, None)] == u.calls;
    Then(c, s, s, 0, u);
    t := s.(calls := [Call(o, WaitGlobal, 1, None)]);
    assert u.calls[0 := Call(o, WaitGlobal, 1, None)] == t.calls;
    Then(c, s, u, 0, t);
  }

  /** A lone call, whatever the configuration, gets to its attempt. */
  lemma LoneCallRuns(c: Config, s: State) returns (t: State)
    requires c.Valid() && Init(c, s) && |s.calls| == 1
    ensures Reaches(c, s, t) && |t.calls| == 1 && t.calls[0].pc.Running? && t.leaked == 0
  {
    assert Reaches(c, s, s) by { assert Run(c, [s], []); }
    if c.fetcher.perHostLimit.Some? {
      var u := LookUp(c, s, s, 0);
      var v := Register(c, s, u, 0);
      t := RunFromHost(c, s, v, 0, 0);
    } else {
      var u := UngatedByConfig(c, s);
      t := RunFromGlobal(c, s, u, 0);
    }
  }

  function UnwindRank(pc: Pc): nat {
    match pc
    case DropGlobal(_) => 3
    case LowerOriginGauge(_) => 2
    case DropHost(_) => 1
    case _ => 0
  }

  predicate Unwinding(pc: Pc) { UnwindRank(pc) > 0 && pc.after == ToEnd }

  lemma UnwindStep(c: Config, s: State)
    requires CallsOk(c, s) && RegistryOk(c, s) && |s.calls| == 1 && Unwinding(s.calls[0].pc)
    ensures Enabled(s, Advance(0, FINE))
    ensures var t := Next(c, s, Advance(0, FINE));
            && |t.calls| == 1 && t.leaked == s.leaked
            && UnwindRank(t.calls[0].pc) < UnwindRank(s.calls[0].pc)
            && (Unwinding(t.calls[0].pc) || t.calls[0].pc.Ended?)
  {
    assert CallOk(c, s, s.calls[0]);
  }

  /** A dropped call gives its permits back and ends. */
  lemma {:induction false} Unwind(c: Config, s0: State, s: State) returns (t: State)
    requires c.Valid() && Init(c, s0) && Reaches(c, s0, s) && |s.calls| == 1
    requires Unwinding(s.calls[0].pc) || s.calls[0].pc.Ended?
    ensures Reaches(c, s0, t) && |t.calls| == 1 && t.calls[0].pc.Ended? && t.leaked == s.leaked
    decreases UnwindRank(s.calls[0].pc)
  {
    t := s;
    if Unwinding(s.calls[0].pc) {
      assert Reachable(c, s);
      ReachableInv(c, s);
      UnwindStep(c, s);
      var u := Next(c, s, Advance(0, FINE));
      Then(c, s0, s, 0, u);
      t := Unwind(c, s0, u);
    }
  }

  /** Under every configuration a call dropped in mid-attempt ends with all permits back and the gauge at one. */
  lemma LeakIsReachable(c: Config, s: State) returns (t: State)
    requires c.Valid() && Init(c, s) && |s.calls| == 1
    ensures Reaches(c, s, t) && |t.calls| == 1 && t.calls[0].pc.Ended?
    ensures t.gauge == 1 && t.globalFree == c.GlobalLimit()
  {
    var u := LoneCallRuns(c, s);
    var v := Goto(u, 0, DropGlobal(ToEnd)).(leaked := 1);
    ThenBy(c, s, u, Cancel(0), v);
    t := Unwind(c, s, v);
    assert Reachable(c, t);
    ReachableInv(c, t);
    CountNone(t.calls, GaugeHolders);
    CountNone(t.calls, GlobalHolders);
  }
}
