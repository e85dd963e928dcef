/**
  The per-origin circuit breaker: its decisions as functions on a breaker value, the
  class that holds that value, and the theory of legal event histories.
  Times are milliseconds of the wall clock, passed in by the caller.
*/
module Breaker {
  import opened Wrappers
  import opened Arith

  datatype Mode = Closed | Open | HalfOpen

  datatype Policy = Policy(threshold: nat, cooldown: nat)

  datatype Value = Value(mode: Mode, failures: nat, openedAt: nat)

  const INITIAL: Value := Value(Closed, 0, 0)

  datatype Verdict = Admit | AdmitProbe | Refuse

  /** `now.saturating_sub(since)`. */
  function Elapsed(now: nat, since: nat): nat { if now >= since then now - since else 0 }

  function Decide(p: Policy, b: Value, now: nat): Verdict {
    match b.mode
    case Closed => Admit
    case HalfOpen => Refuse
    case Open => if Elapsed(now, b.openedAt) >= p.cooldown then AdmitProbe else Refuse
  }

  function AfterProbe(b: Value): Value { b.(mode := HalfOpen) }

  function AfterSuccess(b: Value): Value { b.(mode := Closed, failures := 0) }

  function AfterFailure(p: Policy, b: Value, now: nat): Value {
    match b.mode
    case HalfOpen => b.(mode := Open, openedAt := now)
    case Closed =>
      if b.failures + 1 >= p.threshold
      then Value(Open, b.failures + 1, now)
      else b.(failures := b.failures + 1)
    case Open => b
  }

  /** One breaker used by one caller at a time; the concurrent protocol is in BreakerProtocol. */
  class CircuitBreaker {
    var state: Mode
    var consecutiveFailures: nat
    var openedAtMs: nat
    const policy: Policy

    constructor (policy: Policy)
      ensures this.policy == policy && Contents() == INITIAL
    {
      this.policy := policy;
      state, consecutiveFailures, openedAtMs := Closed, 0, 0;
    }

    function Contents(): Value
      reads this
    {
      Value(state, consecutiveFailures, openedAtMs)
    }

    method BeforeCall(now: nat) returns (admitted: bool)
      modifies this`state
      ensures admitted <==> Decide(policy, old(Contents()), now) != Refuse
      ensures Contents() == if Decide(policy, old(Contents()), now) == AdmitProbe
                            then AfterProbe(old(Contents())) else old(Contents())
    {
      if state == Closed { return true; }
      match state
      case Closed => return true;
      case HalfOpen => return false;
      case Open =>
        if Elapsed(now, openedAtMs) >= policy.cooldown {
          state := HalfOpen;
          return true;
        }
        return false;
    }

    method OnSuccess()
      modifies this
      ensures Contents() == AfterSuccess(old(Contents()))
    {
      consecutiveFailures := 0;
      state := Closed;
    }

    method OnFailure(now: nat)
      modifies this
      ensures Contents() == AfterFailure(policy, old(Contents()), now)
    {
      match state
      case HalfOpen =>
        openedAtMs := now;
        state := Open;
      case Closed =>
        consecutiveFailures := consecutiveFailures + 1;
        if consecutiveFailures >= policy.threshold {
          openedAtMs := now;
          state := Open;
        }
      case Open =>
    }
  }

  // ── Histories ─────────────────────────────────────────────────────────────────

  /** What a breaker saw, in order; `call` names the logical call. */
  datatype Event =
    | Admitted(call: nat)
    | Probe(call: nat, at: nat)
    | Success(call: nat)
    | Failure(call: nat, at: nat)
  {
    predicate Admission() { Admitted? || Probe? }
    predicate Record() { Success? || Failure? }
    predicate Timed() { Probe? || Failure? }
  }

  function Apply(p: Policy, b: Value, e: Event): Value {
    match e
    case Admitted(_) => b
    case Probe(_, _) => AfterProbe(b)
    case Success(_) => AfterSuccess(b)
    case Failure(_, at) => AfterFailure(p, b, at)
  }

  /** The breaker value after a history. */
  function Replay(p: Policy, trace: seq<Event>): Value {
    if trace == [] then INITIAL
    else Apply(p, Replay(p, trace[..|trace| - 1]), trace[|trace| - 1])
  }

  /** Latest clock reading in a history. */
  function Latest(trace: seq<Event>): nat {
    if trace == [] then 0
    else
      var e, t := trace[|trace| - 1], Latest(trace[..|trace| - 1]);
      if e.Timed() then Max(e.at, t) else t
  }

  /** `e` may follow `trace`: admissions obey the breaker and the clock does not run back. */
  predicate Follows(p: Policy, trace: seq<Event>, e: Event) {
    && (e.Timed() ==> e.at >= Latest(trace))
    && (e.Admitted? ==> Decide(p, Replay(p, trace), 0) == Admit)
    && (e.Probe? ==> Decide(p, Replay(p, trace), e.at) == AdmitProbe)
  }

  predicate Legal(p: Policy, trace: seq<Event>) {
    forall i | 0 <= i < |trace| :: Follows(p, trace[..i], trace[i])
  }

  lemma LegalExtend(p: Policy, trace: seq<Event>, e: Event)
    requires Legal(p, trace) && Follows(p, trace, e)
    ensures Legal(p, trace + [e])
    ensures Replay(p, trace + [e]) == Apply(p, Replay(p, trace), e)
    ensures Latest(trace + [e]) == if e.Timed() then Max(e.at, Latest(trace)) else Latest(trace)
  {
    var t := trace + [e];
    assert t[..|t| - 1] == trace;
    forall i | 0 <= i < |t| ensures Follows(p, t[..i], t[i]) {
      if i < |trace| { assert t[..i] == trace[..i]; }
    }
  }

  lemma LegalPrefix(p: Policy, trace: seq<Event>, n: nat)
    requires Legal(p, trace) && n <= |trace|
    ensures Legal(p, trace[..n])
  {
    forall i | 0 <= i < n ensures Follows(p, trace[..n][..i], trace[..n][i]) {
      assert trace[..n][..i] == trace[..i];
    }
  }

  // ── The failure counter ───────────────────────────────────────────────────────

  /** Failures recorded since the last recorded success. */
  function FailureRun(trace: seq<Event>): nat {
    if trace == [] then 0
    else match trace[|trace| - 1]
      case Success(_) => 0
      case Failure(_, _) => FailureRun(trace[..|trace| - 1]) + 1
      case _ => FailureRun(trace[..|trace| - 1])
  }

  /** A threshold of zero trips on the first failure, as a threshold of one does. */
  function EffectiveThreshold(p: Policy): nat { Max(1, p.threshold) }

  /** Closed below the threshold; above it HalfOpen right after a probe and Open otherwise. */
  function ModeOfHistory(p: Policy, trace: seq<Event>): Mode {
    if FailureRun(trace) < EffectiveThreshold(p) then Closed
    else if trace != [] && trace[|trace| - 1].Probe? then HalfOpen
    else Open
  }

  lemma {:induction false} CounterIsFailureRun(p: Policy, trace: seq<Event>)
    requires Legal(p, trace)
    ensures Replay(p, trace).failures == Min(EffectiveThreshold(p), FailureRun(trace))
    ensures Replay(p, trace).mode == ModeOfHistory(p, trace)
  {
    if trace != [] {
      var n := |trace| - 1;
      LegalPrefix(p, trace, n);
      CounterIsFailureRun(p, trace[..n]);
      assert Follows(p, trace[..n], trace[n]);
    }
  }

  // ── Probes ────────────────────────────────────────────────────────────────────

  function ProbeTimes(trace: seq<Event>): seq<nat> {
    if trace == [] then []
    else
      var earlier, e := ProbeTimes(trace[..|trace| - 1]), trace[|trace| - 1];
      if e.Probe? then earlier + [e.at] else earlier
  }

  /** When a history first took the breaker into Open. */
  function FirstOpening(p: Policy, trace: seq<Event>): Option<nat> {
    if trace == [] then None
    else
      var n := |trace| - 1;
      var earlier := FirstOpening(p, trace[..n]);
      if earlier.None? && Replay(p, trace).mode == Open then Some(Replay(p, trace).openedAt)
      else earlier
  }

  /** When a history last took the breaker into Open. */
  function LastOpening(p: Policy, trace: seq<Event>): Option<nat> {
    if trace == [] then None
    else
      var n := |trace| - 1;
      if Replay(p, trace).mode == Open && Replay(p, trace[..n]).mode != Open && trace[n].Failure? then Some(trace[n].at)
      else LastOpening(p, trace[..n])
  }

  /** While the breaker is Open its clock is that of its last opening: a stale failure does not restart it. */
  lemma {:induction false} ClockIsLastOpening(p: Policy, trace: seq<Event>)
    requires Legal(p, trace) && Replay(p, trace).mode == Open
    ensures LastOpening(p, trace) == Some(Replay(p, trace).openedAt)
  {
    var n := |trace| - 1;
    LegalPrefix(p, trace, n);
    assert Follows(p, trace[..n], trace[n]);
    if Replay(p, trace[..n]).mode == Open { ClockIsLastOpening(p, trace[..n]); }
  }

  ghost predicate Spaced(p: Policy, first: Option<nat>, probes: seq<nat>) {
    && (forall i | 0 <= i < |probes| :: first.Some? && probes[i] >= first.value + (i + 1) * p.cooldown)
    && (forall i, j | 0 <= i <= j < |probes| :: probes[j] >= probes[i] + (j - i) * p.cooldown)
  }

  lemma SpacedExtend(p: Policy, first: Option<nat>, probes: seq<nat>, openedAt: nat, at: nat)
    requires Spaced(p, first, probes)
    requires first.Some? && openedAt >= first.value && at >= openedAt + p.cooldown
    requires probes != [] ==> openedAt >= probes[|probes| - 1]
    ensures Spaced(p, first, probes + [at])
  {
    var n := |probes|;
    var all := probes + [at];
    if n > 0 {
      assert (n + 1) * p.cooldown == n * p.cooldown + p.cooldown;
    }
    forall i | 0 <= i < n ensures at >= probes[i] + (n - i) * p.cooldown {
      assert (n - i) * p.cooldown == (n - 1 - i) * p.cooldown + p.cooldown;
    }
    forall i, j | 0 <= i <= j < |all| ensures all[j] >= all[i] + (j - i) * p.cooldown {
    }
  }

  /**
    The k-th probe comes at least k cooldowns after the first opening, and any two
    probes are at least as many cooldowns apart as there are steps between them.
  */
  lemma {:induction false} ProbeSpacing(p: Policy, trace: seq<Event>)
    requires Legal(p, trace)
    ensures Spaced(p, FirstOpening(p, trace), ProbeTimes(trace))
    ensures Replay(p, trace).mode == Open ==>
              && FirstOpening(p, trace).Some?
              && FirstOpening(p, trace).value <= Replay(p, trace).openedAt <= Latest(trace)
              && forall i | 0 <= i < |ProbeTimes(trace)| :: ProbeTimes(trace)[i] <= Replay(p, trace).openedAt
    ensures FirstOpening(p, trace).Some? ==> FirstOpening(p, trace).value <= Latest(trace)
    ensures forall i | 0 <= i < |ProbeTimes(trace)| :: ProbeTimes(trace)[i] <= Latest(trace)
    ensures Replay(p, trace).mode == HalfOpen ==> FirstOpening(p, trace).Some?
  {
    if trace != [] {
      var n := |trace| - 1;
      var before, e := trace[..n], trace[n];
      LegalPrefix(p, trace, n);
      ProbeSpacing(p, before);
      assert Follows(p, before, e);
      if e.Probe? {
        SpacedExtend(p, FirstOpening(p, before), ProbeTimes(before), Replay(p, before).openedAt, e.at);
      }
    }
  }

  /** A probe follows an Open history exactly when the cooldown has passed since the last opening. */
  lemma ProbeIffCooledDown(p: Policy, trace: seq<Event>, call: nat, at: nat)
    requires Legal(p, trace) && Replay(p, trace).mode == Open && at >= Latest(trace)
    ensures LastOpening(p, trace).Some?
    ensures Legal(p, trace + [Probe(call, at)]) <==> at >= LastOpening(p, trace).value + p.cooldown
  {
    ClockIsLastOpening(p, trace);
    ProbeSpacing(p, trace);
    var t := trace + [Probe(call, at)];
    if Follows(p, trace, Probe(call, at)) {
      LegalExtend(p, trace, Probe(call, at));
    } else {
      assert t[..|trace|] == trace && t[|trace|] == Probe(call, at);
    }
  }

  lemma {:induction false} HalfOpenUntilRecorded(p: Policy, trace: seq<Event>, i: nat, j: nat)
    requires i < j <= |trace| && trace[i].Probe?
    requires forall k | i < k < j :: !trace[k].Record()
    ensures Replay(p, trace[..j]).mode == HalfOpen
  {
    assert trace[..j][..j - 1] == trace[..j - 1];
    if j > i + 1 { HalfOpenUntilRecorded(p, trace, i, j - 1); }
  }

  /** Between a probe's admission and the next admission of any kind, an outcome was recorded. */
  lemma ProbeIsAlone(p: Policy, trace: seq<Event>, i: nat, j: nat)
    requires Legal(p, trace) && i < j < |trace|
    requires trace[i].Probe? && trace[j].Admission()
    ensures exists k :: i < k < j && trace[k].Record()
  {
    assert Follows(p, trace[..j], trace[j]);
    if forall k | i < k < j :: !trace[k].Record() {
      HalfOpenUntilRecorded(p, trace, i, j);
    }
  }

  /** HalfOpen is left only by a recorded outcome, and entered only by a probe. */
  lemma HalfOpenBoundaries(p: Policy, trace: seq<Event>, i: nat)
    requires Legal(p, trace) && i < |trace|
    ensures (Replay(p, trace[..i]).mode == HalfOpen && Replay(p, trace[..i + 1]).mode != HalfOpen) ==>
              trace[i].Record()
    ensures (Replay(p, trace[..i]).mode != HalfOpen && Replay(p, trace[..i + 1]).mode == HalfOpen) ==>
              trace[i].Probe? && Replay(p, trace[..i]).mode == Open
  {
    assert trace[..i + 1][..i] == trace[..i];
    assert Follows(p, trace[..i], trace[i]);
  }
}
