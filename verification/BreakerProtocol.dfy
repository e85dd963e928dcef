/**
  One circuit breaker shared by any number of logical calls. Every atomic load or store
  that another call could see in between is a step of its own: the lock-free admission
  read, the lock, and each store made under it. Calls may be dropped wherever they await.
*/
module BreakerProtocol {
  import opened Wrappers
  import opened Breaker
  import Retry

  /** Where a logical call stands; names of the form `Storing...` hold the lock. */
  datatype Pc =
    | Arriving
    | WaitDecide
    | Deciding
    | StoringProbe(at: nat)
    | Fetching
    | WaitSuccess
    | ClearingCount
    | StoringClosed
    | WaitFailure
    | Recording
    | StoringOpenedAt
    | StoringOpen(at: nat)
    | Refused
    | Finished
    | Abandoned
  {
    predicate Critical() {
      Deciding? || StoringProbe? || ClearingCount? || StoringClosed? || Recording? || StoringOpenedAt? || StoringOpen?
    }
    predicate Waiting() { WaitDecide? || WaitSuccess? || WaitFailure? }
    predicate Terminal() { Refused? || Finished? || Abandoned? }
    predicate Cancellable() { Arriving? || Waiting() || Fetching? }

    /** Admitted and still able to report an outcome. */
    predicate Outstanding() {
      Fetching? || WaitSuccess? || WaitFailure? || Reporting()
    }
    predicate Reporting() {
      ClearingCount? || StoringClosed? || Recording? || StoringOpenedAt? || StoringOpen?
    }
    predicate Unadmitted() { Arriving? || WaitDecide? || Deciding? || StoringProbe? || Refused? }
  }

  /** `trace` is the history; everything else is the breaker's shared memory and the calls. */
  datatype State = State(
    mode: Mode,
    failures: nat,
    openedAt: nat,
    lock: Option<nat>,
    now: nat,
    calls: seq<Pc>,
    trace: seq<Event>)

  type CallResult = Result<(), Retry.FetchError>

  /** `result` matters only to a call whose fetch ends in this step. */
  datatype Action =
    | Tick(to: nat)
    | Advance(call: nat, result: CallResult)
    | Cancel(call: nat)

  predicate Init(s: State) {
    && s.mode == Closed && s.failures == 0 && s.openedAt == 0
    && s.lock == None && s.trace == []
    && forall i | 0 <= i < |s.calls| :: s.calls[i] == Arriving
  }

  predicate Enabled(s: State, a: Action) {
    match a
    case Tick(to) => to >= s.now
    case Advance(i, _) => i < |s.calls| && !s.calls[i].Terminal() && (s.calls[i].Waiting() ==> s.lock == None)
    case Cancel(i) => i < |s.calls| && s.calls[i].Cancellable()
  }

  function Goto(s: State, i: nat, pc: Pc): State
    requires i < |s.calls|
  {
    s.(calls := s.calls[i := pc])
  }

  function Acquire(s: State, i: nat, pc: Pc): State
    requires i < |s.calls|
  {
    Goto(s, i, pc).(lock := Some(i))
  }

  /** Leaves the critical section, or, for the fast path, never entered it. */
  function Leave(s: State, i: nat, pc: Pc, events: seq<Event>): State
    requires i < |s.calls|
  {
    Goto(s, i, pc).(lock := None, trace := s.trace + events)
  }

  function NextOfCall(p: Policy, s: State, i: nat, result: CallResult): State
    requires Enabled(s, Advance(i, result))
  {
    match s.calls[i]
    case Arriving =>
      if s.mode == Closed then Goto(s, i, Fetching).(trace := s.trace + [Admitted(i)])
      else Goto(s, i, WaitDecide)
    case WaitDecide => Acquire(s, i, Deciding)
    case Deciding =>
      (match s.mode
       case Closed => Leave(s, i, Fetching, [Admitted(i)])
       case HalfOpen => Leave(s, i, Refused, [])
       case Open =>
         if Elapsed(s.now, s.openedAt) >= p.cooldown then Goto(s, i, StoringProbe(s.now))
         else Leave(s, i, Refused, []))
    case StoringProbe(at) => Leave(s, i, Fetching, [Probe(i, at)]).(mode := HalfOpen)
    case Fetching =>
      (match Retry.Report(result)
       case Some(ReportSuccess) => Goto(s, i, WaitSuccess)
       case Some(ReportFailure) => Goto(s, i, WaitFailure)
       case None => Goto(s, i, Finished))
    case WaitSuccess => Acquire(s, i, ClearingCount)
    case ClearingCount => Goto(s, i, StoringClosed).(failures := 0)
    case StoringClosed => Leave(s, i, Finished, [Success(i)]).(mode := Closed)
    case WaitFailure => Acquire(s, i, Recording)
    case Recording =>
      (match s.mode
       case HalfOpen => Goto(s, i, StoringOpenedAt)
       case Closed =>
         if s.failures + 1 >= p.threshold then Goto(s, i, StoringOpenedAt).(failures := s.failures + 1)
         else Leave(s, i, Finished, [Failure(i, s.now)]).(failures := s.failures + 1)
       case Open => Leave(s, i, Finished, [Failure(i, s.now)]))
    case StoringOpenedAt => Goto(s, i, StoringOpen(s.now)).(openedAt := s.now)
    case StoringOpen(at) => Leave(s, i, Finished, [Failure(i, at)]).(mode := Open)
    case Refused => s
    case Finished => s
    case Abandoned => s
  }

  function Next(p: Policy, s: State, a: Action): State
    requires Enabled(s, a)
  {
    match a
    case Tick(to) => s.(now := to)
    case Cancel(i) => Goto(s, i, Abandoned)
    case Advance(i, result) => NextOfCall(p, s, i, result)
  }

  /** `states[k + 1]` follows `states[k]` by `acts[k]`. */
  predicate Run(p: Policy, states: seq<State>, acts: seq<Action>) {
    && |states| == |acts| + 1
    && forall k | 0 <= k < |acts| :: Enabled(states[k], acts[k]) && states[k + 1] == Next(p, states[k], acts[k])
  }

  // ── Invariants ────────────────────────────────────────────────────────────────

  /** Mutual exclusion of the transition lock. */
  predicate LockInv(s: State) {
    && (s.lock.Some? ==> s.lock.value < |s.calls| && s.calls[s.lock.value].Critical())
    && forall i | 0 <= i < |s.calls| && s.calls[i].Critical() :: s.lock == Some(i)
  }

  /** How far shared memory may run ahead of the history while `pc` holds the lock. */
  predicate MidSection(p: Policy, s: State, pc: Pc) {
    var b := Replay(p, s.trace);
    match pc
    case StoringProbe(at) =>
      && s.failures == b.failures && s.openedAt == b.openedAt && s.mode == Open
      && Elapsed(at, s.openedAt) >= p.cooldown && Latest(s.trace) <= at <= s.now
    case StoringClosed => s.failures == 0 && s.openedAt == b.openedAt
    case StoringOpenedAt =>
      && s.openedAt == b.openedAt
      && s.mode != Open && s.failures == AfterFailure(p, b, 0).failures && AfterFailure(p, b, 0).mode == Open
    case StoringOpen(at) =>
      && s.openedAt == at && Latest(s.trace) <= at <= s.now
      && s.mode != Open && s.failures == AfterFailure(p, b, 0).failures && AfterFailure(p, b, 0).mode == Open
    case _ => s.failures == b.failures && s.openedAt == b.openedAt
  }

  /** Shared memory is the replayed history, up to the stores of the section in progress. */
  predicate MemoryInv(p: Policy, s: State) {
    && Legal(p, s.trace)
    && Latest(s.trace) <= s.now
    && s.mode == Replay(p, s.trace).mode
    && (match s.lock
        case None => s.failures == Replay(p, s.trace).failures && s.openedAt == Replay(p, s.trace).openedAt
        case Some(i) => i < |s.calls| && MidSection(p, s, s.calls[i]))
  }

  function Admissions(trace: seq<Event>, call: nat): nat {
    if trace == [] then 0
    else
      var e := trace[|trace| - 1];
      Admissions(trace[..|trace| - 1], call) + if e.Admission() && e.call == call then 1 else 0
  }

  function Records(trace: seq<Event>, call: nat): nat {
    if trace == [] then 0
    else
      var e := trace[|trace| - 1];
      Records(trace[..|trace| - 1], call) + if e.Record() && e.call == call then 1 else 0
  }

  lemma CountsExtend(trace: seq<Event>, e: Event, call: nat)
    ensures Admissions(trace + [e], call)
         == Admissions(trace, call) + if e.Admission() && e.call == call then 1 else 0
    ensures Records(trace + [e], call)
         == Records(trace, call) + if e.Record() && e.call == call then 1 else 0
  {
    assert (trace + [e])[..|trace|] == trace;
  }

  predicate CallAccount(trace: seq<Event>, i: nat, pc: Pc) {
    && Records(trace, i) <= Admissions(trace, i) <= 1
    && (pc.Unadmitted() ==> Admissions(trace, i) == 0)
    && (pc.Outstanding() ==> Admissions(trace, i) == 1 && Records(trace, i) == 0)
    && (pc == Abandoned ==> Records(trace, i) == 0)
  }

  /** Each call is admitted at most once and reports at most once, and only after admission. */
  predicate AccountInv(s: State) {
    forall i | 0 <= i < |s.calls| :: CallAccount(s.trace, i, s.calls[i])
  }

  predicate Inv(p: Policy, s: State) {
    LockInv(s) && MemoryInv(p, s) && AccountInv(s)
  }

  lemma InitEstablishes(p: Policy, s: State)
    requires Init(s)
    ensures Inv(p, s)
  {
  }

  lemma LockStep(p: Policy, s: State, a: Action)
    requires Enabled(s, a) && LockInv(s)
    ensures LockInv(Next(p, s, a))
  {
  }

  /** The event a step of call `i` appends, if any. */
  function Emitted(p: Policy, s: State, i: nat): Option<Event>
    requires i < |s.calls|
  {
    match s.calls[i]
    case Arriving => if s.mode == Closed then Some(Admitted(i)) else None
    case Deciding => if s.mode == Closed then Some(Admitted(i)) else None
    case StoringProbe(at) => Some(Probe(i, at))
    case StoringClosed => Some(Success(i))
    case Recording =>
      if s.mode == Open || (s.mode == Closed && s.failures + 1 < p.threshold) then Some(Failure(i, s.now)) else None
    case StoringOpen(at) => Some(Failure(i, at))
    case _ => None
  }

  lemma StepShape(p: Policy, s: State, i: nat, result: CallResult)
    requires Enabled(s, Advance(i, result))
    ensures var t := NextOfCall(p, s, i, result);
            && t.calls == s.calls[i := t.calls[i]]
            && t.now == s.now
            && t.trace == s.trace + match Emitted(p, s, i) case None => [] case Some(e) => [e]
  {
  }

  lemma QuietSectionStep(p: Policy, s: State, i: nat, result: CallResult)
    requires Enabled(s, Advance(i, result)) && LockInv(s) && MemoryInv(p, s)
    requires Emitted(p, s, i) == None && s.calls[i].Critical()
    ensures MemoryInv(p, NextOfCall(p, s, i, result))
  {
    hide Replay, Legal, Latest;
    assert NextOfCall(p, s, i, result).trace == s.trace;
    assert s.lock == Some(i);
  }

  lemma QuietMemoryStep(p: Policy, s: State, i: nat, result: CallResult)
    requires Enabled(s, Advance(i, result)) && LockInv(s) && MemoryInv(p, s)
    requires Emitted(p, s, i) == None
    ensures MemoryInv(p, NextOfCall(p, s, i, result))
  {
    hide Replay, Legal, Latest;
    StepShape(p, s, i, result);
    assert NextOfCall(p, s, i, result).trace == s.trace;
    if s.calls[i].Critical() { QuietSectionStep(p, s, i, result); }
  }

  lemma EmittedFollows(p: Policy, s: State, i: nat, result: CallResult)
    requires Enabled(s, Advance(i, result)) && LockInv(s) && MemoryInv(p, s)
    requires Emitted(p, s, i).Some?
    ensures Follows(p, s.trace, Emitted(p, s, i).value)
  {
    assert s.calls[i].Critical() ==> s.lock == Some(i);
  }

  /** An admission leaves the breaker's memory alone, on the fast path and under the lock. */
  lemma AdmittedShape(p: Policy, s: State, i: nat, result: CallResult)
    requires Enabled(s, Advance(i, result)) && LockInv(s) && Emitted(p, s, i) == Some(Admitted(i))
    ensures var t := NextOfCall(p, s, i, result);
            && t.mode == s.mode && t.failures == s.failures && t.openedAt == s.openedAt && t.now == s.now
            && t.trace == s.trace + [Admitted(i)]
            && ((s.calls[i].Arriving? && t.lock == s.lock && t.calls == s.calls[i := Fetching])
                || (s.calls[i].Deciding? && s.lock == Some(i) && t.lock == None))
  {
    assert s.calls[i].Arriving? || (s.calls[i].Deciding? && s.lock == Some(i));
  }

  lemma AdmittedMemoryStep(p: Policy, s: State, i: nat, result: CallResult)
    requires Enabled(s, Advance(i, result)) && LockInv(s) && MemoryInv(p, s)
    requires Emitted(p, s, i) == Some(Admitted(i))
    ensures MemoryInv(p, NextOfCall(p, s, i, result))
  {
    EmittedFollows(p, s, i, result);
    LegalExtend(p, s.trace, Admitted(i));
    AdmittedShape(p, s, i, result);
    var t := NextOfCall(p, s, i, result);
    assert Replay(p, t.trace) == Replay(p, s.trace) && Latest(t.trace) == Latest(s.trace);
  }

  lemma ProbeMemoryStep(p: Policy, s: State, i: nat, result: CallResult)
    requires Enabled(s, Advance(i, result)) && LockInv(s) && MemoryInv(p, s) && s.calls[i].StoringProbe?
    ensures MemoryInv(p, NextOfCall(p, s, i, result))
  {
    var e := Emitted(p, s, i).value;
    assert s.calls[i].Critical() ==> s.lock == Some(i);
    EmittedFollows(p, s, i, result);
    LegalExtend(p, s.trace, e);
    assert NextOfCall(p, s, i, result).trace == s.trace + [e];
  }

  lemma RecordMemoryStep(p: Policy, s: State, i: nat, result: CallResult)
    requires Enabled(s, Advance(i, result)) && LockInv(s) && MemoryInv(p, s)
    requires Emitted(p, s, i).Some? && Emitted(p, s, i).value.Record()
    ensures MemoryInv(p, NextOfCall(p, s, i, result))
  {
    hide Legal, Latest;
    var e := Emitted(p, s, i).value;
    assert s.calls[i].Critical() ==> s.lock == Some(i);
    EmittedFollows(p, s, i, result);
    LegalExtend(p, s.trace, e);
    assert NextOfCall(p, s, i, result).trace == s.trace + [e];
  }

  lemma MemoryStep(p: Policy, s: State, a: Action)
    requires Enabled(s, a) && LockInv(s) && MemoryInv(p, s)
    ensures MemoryInv(p, Next(p, s, a))
  {
    match a
    case Tick(_) =>
    case Cancel(i) => assert s.calls[i].Critical() ==> s.lock == Some(i);
    case Advance(i, result) =>
      match Emitted(p, s, i)
      case None => QuietMemoryStep(p, s, i, result);
      case Some(e) =>
        if e.Admitted? { AdmittedMemoryStep(p, s, i, result); }
        else if e.Probe? { ProbeMemoryStep(p, s, i, result); }
        else { RecordMemoryStep(p, s, i, result); }
  }

  /** Where call `i` stands after its own step. */
  lemma ActorMoves(p: Policy, s: State, i: nat, result: CallResult)
    requires Enabled(s, Advance(i, result))
    ensures var pc, after, e := s.calls[i], NextOfCall(p, s, i, result).calls[i], Emitted(p, s, i);
            && after != Abandoned
            && (e.Some? ==> e.value.call == i && (e.value.Admission() || e.value.Record()))
            && (e.Some? && e.value.Admission() ==> pc.Unadmitted() && after == Fetching)
            && (e.Some? && e.value.Record() ==> pc.Outstanding() && after == Finished)
            && (e.None? && after.Unadmitted() ==> pc.Unadmitted())
            && (e.None? && after.Outstanding() ==> pc.Outstanding())
  {
  }

  lemma AccountOfActor(p: Policy, s: State, i: nat, result: CallResult)
    requires Enabled(s, Advance(i, result)) && AccountInv(s)
    ensures var t := NextOfCall(p, s, i, result); CallAccount(t.trace, i, t.calls[i])
  {
    StepShape(p, s, i, result);
    ActorMoves(p, s, i, result);
    assert CallAccount(s.trace, i, s.calls[i]);
    match Emitted(p, s, i)
    case None => assert NextOfCall(p, s, i, result).trace == s.trace;
    case Some(e) => CountsExtend(s.trace, e, i);
  }

  lemma AccountStep(p: Policy, s: State, a: Action)
    requires Enabled(s, a) && AccountInv(s)
    ensures AccountInv(Next(p, s, a))
  {
    hide Admissions, Records;
    match a
    case Tick(_) =>
    case Cancel(i) =>
      assert CallAccount(s.trace, i, s.calls[i]);
    case Advance(i, result) =>
      var t := NextOfCall(p, s, i, result);
      StepShape(p, s, i, result);
      AccountOfActor(p, s, i, result);
      forall j | 0 <= j < |s.calls| && j != i ensures CallAccount(t.trace, j, t.calls[j]) {
        assert CallAccount(s.trace, j, s.calls[j]);
        match Emitted(p, s, i)
        case None => assert t.trace == s.trace;
        case Some(e) => CountsExtend(s.trace, e, j);
      }
  }
}
