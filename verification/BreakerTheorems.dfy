/** What every run of the shared breaker keeps, and exactly when HalfOpen can be left. */
module BreakerTheorems {
  import opened Wrappers
  import opened Arith
  import opened Breaker
  import opened BreakerProtocol
  import Retry

  lemma InvStep(p: Policy, s: State, a: Action)
    requires Enabled(s, a) && Inv(p, s)
    ensures Inv(p, Next(p, s, a))
  {
    LockStep(p, s, a);
    MemoryStep(p, s, a);
    AccountStep(p, s, a);
  }

  lemma {:induction false} InvAlong(p: Policy, states: seq<State>, acts: seq<Action>, k: nat)
    requires Run(p, states, acts) && Inv(p, states[0]) && k < |states|
    ensures Inv(p, states[k])
  {
    if k > 0 {
      InvAlong(p, states, acts, k - 1);
      InvStep(p, states[k - 1], acts[k - 1]);
    }
  }

  /** The state occurs in some run. */
  ghost predicate Reachable(p: Policy, s: State) {
    exists states: seq<State>, acts: seq<Action> :: Run(p, states, acts) && Init(states[0]) && states[|acts|] == s
  }

  lemma ReachableInv(p: Policy, s: State)
    requires Reachable(p, s)
    ensures Inv(p, s)
  {
    var states: seq<State>, acts: seq<Action> :| Run(p, states, acts) && Init(states[0]) && states[|acts|] == s;
    InitEstablishes(p, states[0]);
    InvAlong(p, states, acts, |acts|);
  }

  /**
    In every state of every run the recorded history tells the mode: Closed exactly while the
    failures since the last success are below the threshold, and otherwise HalfOpen exactly right
    after a probe. Whenever the lock is free the counter is that run of failures, capped at the
    threshold.
  */
  lemma CounterTellsHistory(p: Policy, states: seq<State>, acts: seq<Action>, k: nat)
    requires Run(p, states, acts) && Init(states[0]) && k < |states|
    ensures var s := states[k];
            && s.mode == ModeOfHistory(p, s.trace)
            && (s.lock == None ==> s.failures == Min(EffectiveThreshold(p), FailureRun(s.trace)))
            && s.failures <= EffectiveThreshold(p)
  {
    InitEstablishes(p, states[0]);
    InvAlong(p, states, acts, k);
    CounterIsFailureRun(p, states[k].trace);
  }

  /**
    In every run a call that decides is let through exactly while the failures since the last
    success are below the threshold, becomes the probe exactly when the breaker is Open and the
    cooldown has passed since its last opening, and is refused otherwise.
  */
  lemma AdmissionFollowsHistory(p: Policy, states: seq<State>, acts: seq<Action>, k: nat, i: nat)
    requires Run(p, states, acts) && Init(states[0]) && k < |acts|
    requires acts[k].Advance? && acts[k].call == i && states[k].calls[i] == Deciding
    ensures states[k].mode == Open ==> LastOpening(p, states[k].trace).Some?
    ensures var s, after := states[k], states[k + 1].calls[i];
            && (after == Fetching <==> FailureRun(s.trace) < EffectiveThreshold(p))
            && (after == StoringProbe(s.now) <==>
                  s.mode == Open && s.now >= LastOpening(p, s.trace).value + p.cooldown)
            && (after == Refused <==>
                  s.mode == HalfOpen || (s.mode == Open && s.now < LastOpening(p, s.trace).value + p.cooldown))
  {
    InitEstablishes(p, states[0]);
    InvAlong(p, states, acts, k);
    assert states[k].lock == Some(i);
    CounterIsFailureRun(p, states[k].trace);
    if states[k].mode == Open {
      ClockIsLastOpening(p, states[k].trace);
      ProbeSpacing(p, states[k].trace);
    }
  }

  /** A logical call is admitted at most once and moves the breaker at most once, after admission. */
  lemma OneRecordPerCall(p: Policy, states: seq<State>, acts: seq<Action>, k: nat, call: nat)
    requires Run(p, states, acts) && Init(states[0]) && k < |states| && call < |states[k].calls|
    ensures Records(states[k].trace, call) <= Admissions(states[k].trace, call) <= 1
    ensures states[k].calls[call] == Refused ==> Admissions(states[k].trace, call) == 0
  {
    InitEstablishes(p, states[0]);
    InvAlong(p, states, acts, k);
    assert CallAccount(states[k].trace, call, states[k].calls[call]);
  }

  /** Probe admissions of a whole run are spaced by the cooldown, stale outcomes included. */
  lemma RunProbesSpaced(p: Policy, states: seq<State>, acts: seq<Action>, k: nat)
    requires Run(p, states, acts) && Init(states[0]) && k < |states|
    ensures Spaced(p, FirstOpening(p, states[k].trace), ProbeTimes(states[k].trace))
    ensures forall i, j | 0 <= i < j < |states[k].trace| && states[k].trace[i].Probe?
        && states[k].trace[j].Admission() ::
              exists m :: i < m < j && states[k].trace[m].Record()
  {
    InitEstablishes(p, states[0]);
    InvAlong(p, states, acts, k);
    var trace := states[k].trace;
    ProbeSpacing(p, trace);
    forall i, j | 0 <= i < j < |trace| && trace[i].Probe? && trace[j].Admission()
      ensures exists m :: i < m < j && trace[m].Record()
    {
      ProbeIsAlone(p, trace, i, j);
    }
  }

  /**
    The result of a fetch counts for the upstream, respectively against it: the request was
    answered, or it failed in transport or with a server error.
  */
  predicate Counted(result: CallResult, success: bool) {
    if success then result.Ok?
    else result.Err? && (result.error == Retry.Network || result.error == Retry.Timeout
                         || (result.error.HttpStatus? && result.error.status >= 500))
  }

  /** Before state `k`, call `i`'s fetch ended in an outcome that the breaker counts as given. */
  ghost predicate EndedAs(states: seq<State>, acts: seq<Action>, k: nat, i: nat, success: bool)
    requires k <= |acts| <= |states|
  {
    exists m :: 0 <= m < k && acts[m].Advance? && acts[m].call == i
                && i < |states[m].calls| && states[m].calls[i] == Fetching
                && Counted(acts[m].result, success)
  }

  /** The call is on its way to recording a success, respectively a failure. */
  predicate Reports(pc: Pc, success: bool) {
    if success then pc.WaitSuccess? || pc.ClearingCount? || pc.StoringClosed?
    else pc.WaitFailure? || pc.Recording? || pc.StoringOpenedAt? || pc.StoringOpen?
  }

  lemma EndedStays(states: seq<State>, acts: seq<Action>, k: nat)
    requires 0 < k <= |acts| <= |states|
    ensures forall i, success | EndedAs(states, acts, k - 1, i, success) :: EndedAs(states, acts, k, i, success)
  {
  }

  /** A call comes to owe a record only when its fetch ends so, and appends only what it owes. */
  lemma ReportEntered(p: Policy, s: State, i: nat, result: CallResult)
    requires Enabled(s, Advance(i, result))
    ensures var pc, after, e := s.calls[i], NextOfCall(p, s, i, result).calls[i], Emitted(p, s, i);
            && (Reports(after, true) ==>
                  Reports(pc, true) || (pc == Fetching && Counted(result, true)))
            && (Reports(after, false) ==>
                  Reports(pc, false) || (pc == Fetching && Counted(result, false)))
            && (e.Some? && e.value.Record() ==> e.value.call == i && Reports(pc, e.value.Success?))
  {
  }

  /** Every recorded event, and every event being recorded, answers an outcome of that call's own fetch. */
  lemma {:induction false} RecordsAnswerOutcomes(p: Policy, states: seq<State>, acts: seq<Action>, k: nat)
    requires Run(p, states, acts) && Init(states[0]) && k <= |acts|
    ensures forall j | 0 <= j < |states[k].trace| && states[k].trace[j].Record() ::
              EndedAs(states, acts, k, states[k].trace[j].call, states[k].trace[j].Success?)
    ensures forall i | 0 <= i < |states[k].calls| ::
              var pc := states[k].calls[i];
              && (Reports(pc, true) ==> EndedAs(states, acts, k, i, true))
              && (Reports(pc, false) ==> EndedAs(states, acts, k, i, false))
  {
    if k > 0 {
      RecordsAnswerOutcomes(p, states, acts, k - 1);
      EndedStays(states, acts, k);
      var s, a := states[k - 1], acts[k - 1];
      match a
      case Tick(_) =>
      case Cancel(_) =>
      case Advance(i, result) =>
        StepShape(p, s, i, result);
        ReportEntered(p, s, i, result);
        hide NextOfCall, Emitted;
        if s.calls[i] == Fetching {
          assert Counted(result, true) ==> EndedAs(states, acts, k, i, true);
          assert Counted(result, false) ==> EndedAs(states, acts, k, i, false);
        }
    }
  }

  /** The call owes the breaker a record of this kind, or was dropped before it could be made. */
  predicate Owing(pc: Pc, success: bool) {
    pc == Abandoned || Reports(pc, success)
  }

  predicate Recorded(trace: seq<Event>, call: nat, success: bool) {
    exists j :: 0 <= j < |trace| && trace[j].call == call && (if success then trace[j].Success? else trace[j].Failure?)
  }

  lemma OwingStep(p: Policy, s: State, a: Action, i: nat, success: bool)
    requires Enabled(s, a) && i < |s.calls| && Owing(s.calls[i], success)
    ensures var t := Next(p, s, a);
            i < |t.calls| && (Owing(t.calls[i], success) || (t.calls[i] == Finished && Recorded(t.trace, i, success)))
  {
    var t := Next(p, s, a);
    if a.Advance? {
      StepShape(p, s, a.call, a.result);
      if a.call == i && Emitted(p, s, i).Some? { assert t.trace[|s.trace|] == Emitted(p, s, i).value; }
    }
  }

  lemma TraceGrows(p: Policy, s: State, a: Action)
    requires Enabled(s, a)
    ensures s.trace <= Next(p, s, a).trace
  {
    if a.Advance? { StepShape(p, s, a.call, a.result); }
  }

  /** A call whose fetch ended in a counted outcome at step `m` has recorded it by the time it finishes. */
  lemma {:induction false} CountedOutcomeIsRecorded(p: Policy, states: seq<State>, acts: seq<Action>, m: nat, k: nat,
      i: nat, success: bool)
    requires Run(p, states, acts) && m < k <= |acts| && i < |states[m].calls| && states[m].calls[i] == Fetching
    requires acts[m].Advance? && acts[m].call == i
    requires Counted(acts[m].result, success)
    ensures i < |states[k].calls|
    ensures Owing(states[k].calls[i], success)
        || (states[k].calls[i] == Finished && Recorded(states[k].trace, i, success))
  {
    if k > m + 1 {
      CountedOutcomeIsRecorded(p, states, acts, m, k - 1, i, success);
      var s, a := states[k - 1], acts[k - 1];
      if Owing(s.calls[i], success) {
        OwingStep(p, s, a, i, success);
      } else {
        TraceGrows(p, s, a);
        if a.Advance? { StepShape(p, s, a.call, a.result); }
      }
    }
  }

  /** Done without a record, or dropped. */
  predicate Silent(trace: seq<Event>, call: nat, pc: Pc) {
    (pc == Finished || pc == Abandoned) && Records(trace, call) == 0
  }

  lemma SilentStep(p: Policy, s: State, a: Action, i: nat)
    requires Enabled(s, a) && AccountInv(s) && i < |s.calls| && Silent(s.trace, i, s.calls[i])
    ensures i < |Next(p, s, a).calls| && Silent(Next(p, s, a).trace, i, Next(p, s, a).calls[i])
  {
    if a.Advance? {
      StepShape(p, s, a.call, a.result);
      ActorMoves(p, s, a.call, a.result);
      match Emitted(p, s, a.call)
      case None => assert Next(p, s, a).trace == s.trace;
      case Some(e) => CountsExtend(s.trace, e, i);
    }
  }

  /** A call whose fetch ended in any other error finishes at once and never records anything. */
  lemma {:induction false} OtherErrorsRecordNothing(p: Policy, states: seq<State>, acts: seq<Action>, m: nat, k: nat,
      i: nat)
    requires Run(p, states, acts) && Init(states[0]) && m < k <= |acts|
    requires i < |states[m].calls| && states[m].calls[i] == Fetching && acts[m].Advance? && acts[m].call == i
    requires !Counted(acts[m].result, true) && !Counted(acts[m].result, false)
    ensures i < |states[k].calls| && Silent(states[k].trace, i, states[k].calls[i])
  {
    InitEstablishes(p, states[0]);
    InvAlong(p, states, acts, k - 1);
    if k > m + 1 {
      OtherErrorsRecordNothing(p, states, acts, m, k - 1, i);
      SilentStep(p, states[k - 1], acts[k - 1], i);
    } else {
      assert CallAccount(states[m].trace, i, states[m].calls[i]);
    }
  }

  lemma LeavingEmits(p: Policy, s: State, a: Action)
    requires Enabled(s, a) && s.mode == HalfOpen && Next(p, s, a).mode != HalfOpen
    ensures a.Advance? && s.calls[a.call].Outstanding()
    ensures Reports(s.calls[a.call], Next(p, s, a).mode == Closed)
  {
  }

  /** In every run HalfOpen is left only by a call that reports its fetch's outcome, to Closed on a success. */
  lemma HalfOpenLeftByOutcome(p: Policy, states: seq<State>, acts: seq<Action>, k: nat)
    requires Run(p, states, acts) && Init(states[0]) && k < |acts|
    requires states[k].mode == HalfOpen && states[k + 1].mode != HalfOpen
    ensures acts[k].Advance? && acts[k].call < |states[k].calls| && states[k].calls[acts[k].call].Outstanding()
    ensures EndedAs(states, acts, k, acts[k].call, states[k + 1].mode == Closed)
  {
    LeavingEmits(p, states[k], acts[k]);
    RecordsAnswerOutcomes(p, states, acts, k);
  }

  // ── Leaving HalfOpen ──────────────────────────────────────────────────────────

  /** HalfOpen with no admitted call left that could report an outcome. */
  predicate Wedged(s: State) {
    && s.mode == HalfOpen
    && forall i | 0 <= i < |s.calls| :: !s.calls[i].Outstanding()
  }

  lemma WedgedStep(p: Policy, s: State, a: Action)
    requires Enabled(s, a) && Inv(p, s) && Wedged(s)
    ensures Wedged(Next(p, s, a)) && Next(p, s, a).trace == s.trace
  {
    match a
    case Tick(_) =>
    case Cancel(_) =>
    case Advance(i, result) =>
      StepShape(p, s, i, result);
      assert s.calls[i].Critical() ==> s.lock == Some(i);
      assert Emitted(p, s, i) == None;
  }

  /** A wedged breaker admits nobody and records nothing, whatever calls arrive later. */
  lemma {:induction false} WedgedForever(p: Policy, states: seq<State>, acts: seq<Action>, k: nat)
    requires Run(p, states, acts) && Reachable(p, states[0]) && Wedged(states[0]) && k < |states|
    ensures Wedged(states[k]) && states[k].trace == states[0].trace
  {
    if k > 0 {
      WedgedForever(p, states, acts, k - 1);
      ReachableInv(p, states[0]);
      InvAlong(p, states, acts, k - 1);
      WedgedStep(p, states[k - 1], acts[k - 1]);
    }
  }

  /** Some continuation takes the breaker out of its present mode HalfOpen. */
  ghost predicate CanLeaveHalfOpen(p: Policy, s: State) {
    exists states: seq<State>, acts: seq<Action> ::
      Run(p, states, acts) && states[0] == s && states[|states| - 1].mode != HalfOpen
  }

  function SectionRank(pc: Pc): nat {
    match pc
    case Recording => 3
    case StoringOpenedAt => 2
    case ClearingCount => 2
    case _ => 1
  }

  function OwnRank(pc: Pc): nat {
    match pc
    case Fetching => 6
    case WaitSuccess => 5
    case WaitFailure => 5
    case _ => SectionRank(pc)
  }

  function EscapeRank(s: State, o: nat): nat
    requires LockInv(s) && o < |s.calls|
  {
    OwnRank(s.calls[o]) + if s.lock.Some? && s.lock.value != o then SectionRank(s.calls[s.lock.value]) else 0
  }

  lemma RunPrepend(p: Policy, s: State, a: Action, states: seq<State>, acts: seq<Action>)
    requires Enabled(s, a) && Run(p, states, acts) && states[0] == Next(p, s, a)
    ensures Run(p, [s] + states, [a] + acts)
  {
    var ss, aa := [s] + states, [a] + acts;
    forall k | 0 <= k < |aa| ensures Enabled(ss[k], aa[k]) && ss[k + 1] == Next(p, ss[k], aa[k]) {
      if k > 0 { assert ss[k] == states[k - 1] && aa[k] == acts[k - 1]; }
    }
  }

  /** One step towards an outcome for call `o`: finish the section in progress, or move `o`. */
  lemma EscapeStep(p: Policy, s: State, o: nat) returns (a: Action)
    requires Inv(p, s) && s.mode == HalfOpen && o < |s.calls| && s.calls[o].Outstanding()
    ensures Enabled(s, a) && Inv(p, Next(p, s, a))
    ensures var t := Next(p, s, a);
            t.mode == HalfOpen ==>
              |t.calls| == |s.calls| && t.calls[o].Outstanding() && EscapeRank(t, o) < EscapeRank(s, o)
  {
    var mover := if s.lock.Some? then s.lock.value else o;
    a := Advance(mover, Ok(()));
    assert s.calls[o].Critical() ==> s.lock == Some(o);
    if mover != o && s.calls[o].Fetching? {
      assert s.calls[mover].Critical();
    }
    InvStep(p, s, a);
  }

  lemma {:induction false} EscapeRun(p: Policy, s: State, o: nat) returns (states: seq<State>, acts: seq<Action>)
    requires Inv(p, s) && s.mode == HalfOpen && o < |s.calls| && s.calls[o].Outstanding()
    ensures Run(p, states, acts) && states[0] == s && states[|states| - 1].mode != HalfOpen
    decreases EscapeRank(s, o)
  {
    var a := EscapeStep(p, s, o);
    var t := Next(p, s, a);
    if t.mode != HalfOpen {
      states, acts := [s, t], [a];
    } else {
      var rest, more := EscapeRun(p, t, o);
      RunPrepend(p, s, a, rest, more);
      states, acts := [s] + rest, [a] + more;
    }
  }

  /**
    From any reachable HalfOpen state the breaker can be left exactly when some admitted
    call can still report; otherwise every continuation stays there.
  */
  lemma HalfOpenExit(p: Policy, s: State)
    requires Reachable(p, s) && s.mode == HalfOpen
    ensures CanLeaveHalfOpen(p, s) <==> exists i :: 0 <= i < |s.calls| && s.calls[i].Outstanding()
  {
    ReachableInv(p, s);
    if i :| 0 <= i < |s.calls| && s.calls[i].Outstanding() {
      var states, acts := EscapeRun(p, s, i);
    } else {
      forall states: seq<State>, acts: seq<Action> | Run(p, states, acts) && states[0] == s
        ensures states[|states| - 1].mode == HalfOpen
      {
        WedgedForever(p, states, acts, |states| - 1);
      }
    }
  }

  /** A lone probe that ends in an error the breaker ignores, or is dropped, wedges it. */
  lemma NeutralProbeWedges(p: Policy, s: State, probe: nat, error: Retry.FetchError)
    requires s.mode == HalfOpen && probe < |s.calls| && s.calls[probe] == Fetching
    requires forall i | 0 <= i < |s.calls| && i != probe :: !s.calls[i].Outstanding()
    ensures Wedged(Next(p, s, Cancel(probe)))
    ensures Wedged(Next(p, s, Advance(probe, Err(error)))) <==> !Counted(Err(error), false)
  {
    var t := Next(p, s, Advance(probe, Err(error)));
    if Counted(Err(error), false) {
      assert t.calls[probe].Outstanding();
    }
  }

  // ── The wedge is reachable under every policy ─────────────────────────────────

  ghost predicate Reaches(p: Policy, s: State, t: State) {
    exists states: seq<State>, acts: seq<Action> :: Run(p, states, acts) && states[0] == s && states[|acts|] == t
  }

  lemma RunExtend(p: Policy, states: seq<State>, acts: seq<Action>, a: Action)
    requires Run(p, states, acts) && Enabled(states[|acts|], a)
    ensures Run(p, states + [Next(p, states[|acts|], a)], acts + [a])
  {
  }

  lemma Then(p: Policy, s0: State, s: State, a: Action, t: State)
    requires Reaches(p, s0, s) && Enabled(s, a) && Next(p, s, a) == t
    ensures Reaches(p, s0, t)
  {
    hide Next;
    var states: seq<State>, acts: seq<Action> :| Run(p, states, acts) && states[0] == s0 && states[|acts|] == s;
    RunExtend(p, states, acts, a);
    assert (states + [t])[0] == s0 && (states + [t])[|acts + [a]|] == t;
  }

  /** The outcome of an attempt, given to steps that do not look at it. */
  const FINE: CallResult := Ok(())

  /** Calls below `i` are over and the rest have not begun. */
  predicate NextIs(s: State, i: nat) {
    && s.lock == None && i < |s.calls|
    && (forall j | 0 <= j < i :: s.calls[j] == Finished)
    && forall j | i <= j < |s.calls| :: s.calls[j] == Arriving
  }

  /** Call `i` is admitted on the fast path, times out, and takes the lock to record it. */
  lemma TimesOut(p: Policy, s0: State, s: State, i: nat) returns (t: State)
    requires Reaches(p, s0, s) && i < |s.calls| && s.calls[i] == Arriving && s.mode == Closed && s.lock == None
    ensures Reaches(p, s0, t)
    ensures t == State(Closed, s.failures, s.openedAt, Some(i), s.now, s.calls[i := Recording], s.trace + [Admitted(i)])
  {
    var u := s.(calls := s.calls[i := Fetching], trace := s.trace + [Admitted(i)]);
    Then(p, s0, s, Advance(i, FINE), u);
    var v := u.(calls := s.calls[i := WaitFailure]);
    assert v.calls == u.calls[i := WaitFailure];
    Then(p, s0, u, Advance(i, Err(Retry.Timeout)), v);
    t := v.(calls := s.calls[i := Recording], lock := Some(i));
    assert t.calls == v.calls[i := Recording];
    Then(p, s0, v, Advance(i, FINE), t);
  }

  /** The failure that reaches the threshold opens the breaker. */
  lemma Opens(p: Policy, s0: State, s: State, i: nat) returns (t: State)
    requires Reaches(p, s0, s) && i < |s.calls| && s.calls[i] == Recording && s.mode == Closed
        && s.failures + 1 >= p.threshold
    ensures Reaches(p, s0, t)
    ensures t.mode == Open && t.lock == None && t.calls == s.calls[i := Finished]
  {
    var u := s.(calls := s.calls[i := StoringOpenedAt], failures := s.failures + 1);
    Then(p, s0, s, Advance(i, FINE), u);
    var v := u.(calls := s.calls[i := StoringOpen(s.now)], openedAt := s.now);
    assert v.calls == u.calls[i := StoringOpen(s.now)];
    Then(p, s0, u, Advance(i, FINE), v);
    t := v.(calls := s.calls[i := Finished], lock := None, trace := s.trace + [Failure(i, s.now)], mode := Open);
    assert t.calls == v.calls[i := Finished];
    Then(p, s0, v, Advance(i, FINE), t);
  }

  lemma {:induction false} Trip(p: Policy, s0: State, s: State, i: nat) returns (t: State, j: nat)
    requires Reaches(p, s0, s) && NextIs(s, i) && s.mode == Closed && s.failures < EffectiveThreshold(p)
    requires |s.calls| == i + EffectiveThreshold(p) - s.failures + 1
    ensures Reaches(p, s0, t) && NextIs(t, j) && t.mode == Open
    decreases EffectiveThreshold(p) - s.failures
  {
    hide Reaches;
    var u := TimesOut(p, s0, s, i);
    if s.failures + 1 >= p.threshold {
      t := Opens(p, s0, u, i);
      j := i + 1;
    } else {
      var v := u.(calls := u.calls[i := Finished], lock := None, trace := u.trace + [Failure(i, u.now)],
          failures := s.failures + 1);
      Then(p, s0, u, Advance(i, FINE), v);
      t, j := Trip(p, s0, v, i + 1);
    }
  }

  lemma ProbeDecided(p: Policy, s0: State, s: State, j: nat) returns (t: State)
    requires Reaches(p, s0, s) && j < |s.calls| && s.calls[j] == WaitDecide && s.mode == Open && s.lock == None
    requires Elapsed(s.now, s.openedAt) >= p.cooldown
    ensures Reaches(p, s0, t)
    ensures t.mode == HalfOpen && t.lock == None && t.calls == s.calls[j := Fetching]
  {
    var u := s.(calls := s.calls[j := Deciding], lock := Some(j));
    Then(p, s0, s, Advance(j, FINE), u);
    var v := u.(calls := s.calls[j := StoringProbe(s.now)]);
    assert v.calls == u.calls[j := StoringProbe(s.now)];
    Then(p, s0, u, Advance(j, FINE), v);
    t := v.(calls := s.calls[j := Fetching], lock := None, trace := s.trace + [Probe(j, s.now)], mode := HalfOpen);
    assert t.calls == v.calls[j := Fetching];
    Then(p, s0, v, Advance(j, FINE), t);
  }

  /** After the cooldown call `j` is admitted as the probe. */
  lemma ProbeAdmitted(p: Policy, s0: State, s: State, j: nat) returns (t: State)
    requires Reaches(p, s0, s) && j < |s.calls| && s.calls[j] == Arriving && s.mode == Open && s.lock == None
    ensures Reaches(p, s0, t)
    ensures t.mode == HalfOpen && t.lock == None && t.calls == s.calls[j := Fetching]
  {
    var late := s.(now := s.now + s.openedAt + p.cooldown);
    Then(p, s0, s, Tick(late.now), late);
    var u := Goto(late, j, WaitDecide);
    Then(p, s0, late, Advance(j, FINE), u);
    t := ProbeDecided(p, s0, u, j);
    assert t.calls == s.calls[j := Fetching];
  }

  /** Under every policy: enough timeouts open the breaker, and one 404 to the probe wedges it. */
  lemma WedgeIsReachable(p: Policy)
    ensures exists s, t :: Init(s) && Reaches(p, s, t) && Wedged(t)
  {
    var s := State(Closed, 0, 0, None, 0, seq(EffectiveThreshold(p) + 1, _ => Arriving), []);
    assert Reaches(p, s, s) by { assert Run(p, [s], []); }
    var u, j := Trip(p, s, s, 0);
    var v := ProbeAdmitted(p, s, u, j);
    var t := Goto(v, j, Finished);
    Then(p, s, v, Advance(j, Err(Retry.HttpStatus(404))), t);
    assert Init(s) && Wedged(t);
  }
}
