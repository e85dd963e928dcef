/**
  Loading one bootstrap resource from any number of concurrent queries: a cached copy
  with a lifetime, a slot claimed by one leader, and followers that wait for its signal.
  The slot is released by plain code after the leader's fetch, so a leader that is
  dropped while fetching keeps it.
*/
module BootstrapLoader {
  import opened Wrappers

  /** `missed` tells that the leader's signal was given before the follower registered. */
  datatype Phase =
    | Start
    | Claiming
    | Leading(notify: nat)
    | Removing(notify: nat, ok: bool)
    | Notifying(notify: nat, ok: bool)
    | Joined(notify: nat)
    | Waiting(notify: nat, missed: bool)
    | Rereading
    | Fetching
    | Returned(ok: bool)
    | Dropped
  {
    /** The slot is this call's to release. */
    predicate Holds() { Leading? || Removing? }
    predicate Follows() { Joined? || Waiting? }
    predicate Cancellable() { Start? || Leading? || Waiting? || Rereading? || Fetching? }
  }

  /** `slot` is the notify in the in-flight registry; `fired` are the notifies that have signalled. */
  datatype State = State(
    calls: seq<Phase>,
    slot: Option<nat>,
    issued: nat,
    fired: set<nat>,
    storedAt: Option<nat>,
    now: nat)

  /** `ok` is the result of a fetch that ends in this step. */
  datatype Action = Advance(call: nat, ok: bool) | Cancel(call: nat) | Clear | Tick(to: nat)

  predicate Init(s: State) {
    && s.slot == None && s.issued == 0 && s.fired == {} && s.storedAt == None
    && forall i | 0 <= i < |s.calls| :: s.calls[i] == Start
  }

  predicate Fresh(ttl: nat, s: State) {
    s.storedAt.Some? && s.now <= s.storedAt.value + ttl
  }

  predicate CanAdvance(s: State, phase: Phase) {
    match phase
    case Waiting(n, missed) => n in s.fired && !missed
    case Returned(_) => false
    case Dropped => false
    case _ => true
  }

  predicate Enabled(s: State, a: Action) {
    match a
    case Advance(i, _) => i < |s.calls| && CanAdvance(s, s.calls[i])
    case Cancel(i) => i < |s.calls| && s.calls[i].Cancellable()
    case Clear => true
    case Tick(to) => to >= s.now
  }

  function Goto(s: State, i: nat, phase: Phase): State
    requires i < |s.calls|
  {
    s.(calls := s.calls[i := phase])
  }

  function Next(ttl: nat, s: State, a: Action): State
    requires Enabled(s, a)
  {
    match a
    case Tick(to) => s.(now := to)
    case Clear => s.(storedAt := None)
    case Cancel(i) => Goto(s, i, Dropped)
    case Advance(i, ok) =>
      var stored := if ok then Some(s.now) else s.storedAt;
      match s.calls[i]
      case Start => Goto(s, i, if Fresh(ttl, s) then Returned(true) else Claiming)
      case Claiming =>
        (match s.slot
         case None => Goto(s, i, Leading(s.issued)).(slot := Some(s.issued), issued := s.issued + 1)
         case Some(n) => Goto(s, i, Joined(n)))
      case Leading(n) => Goto(s, i, Removing(n, ok)).(storedAt := stored)
      case Removing(n, was) => Goto(s, i, Notifying(n, was)).(slot := None)
      case Notifying(n, was) => Goto(s, i, Returned(was)).(fired := s.fired + {n})
      case Joined(n) => Goto(s, i, Waiting(n, n in s.fired))
      case Waiting(_, _) => Goto(s, i, Rereading)
      case Rereading => Goto(s, i, if Fresh(ttl, s) then Returned(true) else Fetching)
      case Fetching => Goto(s, i, Returned(ok)).(storedAt := stored)
      case Returned(_) => s
      case Dropped => s
  }

  predicate Run(ttl: nat, states: seq<State>, acts: seq<Action>) {
    && |states| == |acts| + 1
    && forall k | 0 <= k < |acts| :: Enabled(states[k], acts[k]) && states[k + 1] == Next(ttl, states[k], acts[k])
  }

  // ── Invariants ────────────────────────────────────────────────────────────────

  /** The slot is its leader's, and there is one leader at most. */
  ghost predicate SlotInv(s: State) {
    && (s.slot.Some? ==> s.slot.value < s.issued)
    && (forall i | 0 <= i < |s.calls| && s.calls[i].Holds() :: s.slot == Some(s.calls[i].notify))
    && (forall i, j | 0 <= i < j < |s.calls| :: !(s.calls[i].Holds() && s.calls[j].Holds()))
  }

  predicate WillSignal(phase: Phase, n: nat) { phase.Notifying? && phase.notify == n }

  ghost predicate SignalComing(s: State, n: nat) {
    s.slot == Some(n) || exists i :: 0 <= i < |s.calls| && WillSignal(s.calls[i], n)
  }

  /** What follower `phase` still has to hope for. */
  ghost predicate FollowerInv(s: State, phase: Phase) {
    phase.Follows() ==>
      if phase.Waiting? && phase.missed then phase.notify in s.fired
      else phase.notify in s.fired || SignalComing(s, phase.notify)
  }

  ghost predicate Inv(s: State) {
    SlotInv(s) && forall i | 0 <= i < |s.calls| :: FollowerInv(s, s.calls[i])
  }

  /** A call's own step: nobody else moves, and only a claim or a removal touches the slot. */
  lemma AdvanceShape(ttl: nat, s: State, i: nat, ok: bool)
    requires Enabled(s, Advance(i, ok))
    ensures var t := Next(ttl, s, Advance(i, ok));
            && |t.calls| == |s.calls| && t.calls == s.calls[i := t.calls[i]]
            && match s.calls[i]
               case Claiming => if s.slot == None
                 then t.calls[i] == Leading(s.issued) && t.slot == Some(s.issued) && t.issued == s.issued + 1
                 else t.calls[i] == Joined(s.slot.value) && t.slot == s.slot && t.issued == s.issued
               case Leading(n) => t.calls[i] == Removing(n, ok) && t.slot == s.slot && t.issued == s.issued
               case Removing(n, was) => t.calls[i] == Notifying(n, was) && t.slot == None && t.issued == s.issued
               case _ => !t.calls[i].Holds() && t.slot == s.slot && t.issued == s.issued
  {
  }

  lemma SlotStep(ttl: nat, s: State, a: Action)
    requires Enabled(s, a) && SlotInv(s)
    ensures SlotInv(Next(ttl, s, a))
  {
    if a.Advance? { AdvanceShape(ttl, s, a.call, a.ok); }
  }

  /** A signal that was to come still is, or has been given. */
  lemma SignalStep(ttl: nat, s: State, a: Action, n: nat)
    requires Enabled(s, a) && SlotInv(s) && (n in s.fired || SignalComing(s, n))
    ensures var t := Next(ttl, s, a); n in t.fired || SignalComing(t, n)
  {
    var t := Next(ttl, s, a);
    if n !in s.fired {
      if s.slot == Some(n) {
        if a.Advance? && s.calls[a.call].Removing? { assert WillSignal(t.calls[a.call], n); }
      } else {
        var i :| 0 <= i < |s.calls| && WillSignal(s.calls[i], n);
        assert (a.Advance? && a.call == i) || t.calls[i] == s.calls[i];
      }
    }
  }

  lemma InvStep(ttl: nat, s: State, a: Action)
    requires Enabled(s, a) && Inv(s)
    ensures Inv(Next(ttl, s, a))
  {
    var t := Next(ttl, s, a);
    SlotStep(ttl, s, a);
    forall j | 0 <= j < |t.calls| ensures FollowerInv(t, t.calls[j]) {
      assert FollowerInv(s, s.calls[j]);
      if t.calls[j].Follows() && s.calls[j].Follows() {
        if s.calls[j].Joined? || !s.calls[j].missed { SignalStep(ttl, s, a, s.calls[j].notify); }
      }
    }
  }

  lemma {:induction false} InvAlong(ttl: nat, states: seq<State>, acts: seq<Action>, k: nat)
    requires Run(ttl, states, acts) && Inv(states[0]) && k < |states|
    ensures Inv(states[k])
  {
    if k > 0 {
      InvAlong(ttl, states, acts, k - 1);
      InvStep(ttl, states[k - 1], acts[k - 1]);
    }
  }

  // ── Theorems ──────────────────────────────────────────────────────────────────

  /** Leaders' fetches never overlap, and every leader's slot is its own until it releases it. */
  lemma OneLeader(ttl: nat, states: seq<State>, acts: seq<Action>, k: nat, i: nat, j: nat)
    requires Run(ttl, states, acts) && Init(states[0]) && k < |states|
    requires i < |states[k].calls| && states[k].calls[i].Holds()
    ensures states[k].slot == Some(states[k].calls[i].notify)
    ensures j < |states[k].calls| && states[k].calls[j].Holds() ==> i == j
  {
    InvAlong(ttl, states, acts, k);
  }

  ghost predicate Orphaned(s: State) {
    s.slot.Some? && forall i | 0 <= i < |s.calls| :: !s.calls[i].Holds()
  }

  /** The step drops a call that is fetching as the leader. */
  predicate DropsLeader(s: State, a: Action) {
    a.Cancel? && a.call < |s.calls| && s.calls[a.call].Leading?
  }

  lemma OrphanedStep(ttl: nat, s: State, a: Action)
    requires Enabled(s, a) && SlotInv(s)
    ensures Orphaned(Next(ttl, s, a)) <==> Orphaned(s) || DropsLeader(s, a)
  {
    var t := Next(ttl, s, a);
    if DropsLeader(s, a) {
      assert forall j | 0 <= j < |s.calls| && j != a.call :: !s.calls[j].Holds();
    } else if !Orphaned(s) && s.slot.Some? {
      var i :| 0 <= i < |s.calls| && s.calls[i].Holds();
      if a.Advance? && a.call == i {
        assert t.calls[i].Holds() || t.slot == None;
      } else {
        assert t.calls[i] == s.calls[i];
      }
    } else if !Orphaned(s) {
      if t.slot.Some? { assert t.calls[a.call].Holds(); }
    } else if a.Advance? {
      assert !s.calls[a.call].Holds();
    }
  }

  /** The slot is orphaned exactly when some leader was dropped mid-fetch: a failed fetch releases it. */
  lemma {:induction false} OrphanedIffLeaderDropped(ttl: nat, states: seq<State>, acts: seq<Action>, k: nat)
    requires Run(ttl, states, acts) && Init(states[0]) && k <= |acts|
    ensures Orphaned(states[k]) <==> exists m :: 0 <= m < k && DropsLeader(states[m], acts[m])
  {
    if k > 0 {
      OrphanedIffLeaderDropped(ttl, states, acts, k - 1);
      InvAlong(ttl, states, acts, k - 1);
      OrphanedStep(ttl, states[k - 1], acts[k - 1]);
    }
  }

  /** The step drops the leader of notify `n` in mid-fetch. */
  predicate DropsLeaderOf(s: State, a: Action, n: nat) { DropsLeader(s, a) && s.calls[a.call] == Leading(n) }

  lemma OrphanStep(ttl: nat, s: State, a: Action, n: nat)
    requires Enabled(s, a) && SlotInv(s) && Orphaned(Next(ttl, s, a)) && Next(ttl, s, a).slot == Some(n)
    ensures (Orphaned(s) && s.slot == Some(n)) || DropsLeaderOf(s, a, n)
  {
    OrphanedStep(ttl, s, a);
    if a.Advance? && Orphaned(s) { assert !s.calls[a.call].Holds(); }
  }

  lemma {:induction false} OrphanOfItsLeader(ttl: nat, states: seq<State>, acts: seq<Action>, k: nat, n: nat)
    requires Run(ttl, states, acts) && Init(states[0]) && k <= |acts| && Orphaned(states[k])
        && states[k].slot == Some(n)
    ensures exists m :: 0 <= m < k && DropsLeaderOf(states[m], acts[m], n)
  {
    InvAlong(ttl, states, acts, k - 1);
    OrphanStep(ttl, states[k - 1], acts[k - 1], n);
    if !DropsLeaderOf(states[k - 1], acts[k - 1], n) { OrphanOfItsLeader(ttl, states, acts, k - 1, n); }
  }

  predicate StillToSignal(phase: Phase, n: nat) { WillSignal(phase, n) || (phase.Holds() && phase.notify == n) }

  /** A follower that cannot go on missed its signal, or will get it, or its own leader was dropped. */
  lemma BlockedFollower(ttl: nat, states: seq<State>, acts: seq<Action>, k: nat, i: nat)
    requires Run(ttl, states, acts) && Init(states[0]) && k <= |acts|
    requires i < |states[k].calls| && states[k].calls[i].Waiting? && !CanAdvance(states[k], states[k].calls[i])
    ensures var s, n := states[k], states[k].calls[i].notify;
            || (s.calls[i].missed && n in s.fired)
            || (exists j :: 0 <= j < |s.calls| && StillToSignal(s.calls[j], n))
            || (s.slot == Some(n) && exists m :: 0 <= m < k && DropsLeaderOf(states[m], acts[m], n))
  {
    InvAlong(ttl, states, acts, k);
    var s, n := states[k], states[k].calls[i].notify;
    assert FollowerInv(s, s.calls[i]);
    if s.slot == Some(n) {
      if j :| 0 <= j < |s.calls| && s.calls[j].Holds() {
        assert StillToSignal(s.calls[j], n);
      } else {
        OrphanOfItsLeader(ttl, states, acts, k, n);
      }
    } else if n !in s.fired {
      var j :| 0 <= j < |s.calls| && WillSignal(s.calls[j], n);
      assert StillToSignal(s.calls[j], n);
    }
  }

  // ── Missed signals ────────────────────────────────────────────────────────────

  predicate UnsignalledOk(s: State, phase: Phase) {
    && (phase.Notifying? ==> phase.notify < s.issued && s.slot != Some(phase.notify))
    && (phase.Holds() ==> s.slot == Some(phase.notify))
  }

  /** A notify in the slot, or held by a call that is about to signal it, has not signalled yet. */
  ghost predicate SignalInv(s: State) {
    && (s.slot.Some? ==> s.slot.value < s.issued && s.slot.value !in s.fired)
    && (forall n | n in s.fired :: n < s.issued)
    && forall i | 0 <= i < |s.calls| :: UnsignalledOk(s, s.calls[i])
  }

  lemma SignalInvStep(ttl: nat, s: State, a: Action)
    requires Enabled(s, a) && SlotInv(s) && SignalInv(s)
    ensures SignalInv(Next(ttl, s, a))
  {
    var t := Next(ttl, s, a);
    SlotStep(ttl, s, a);
    forall i | 0 <= i < |t.calls| ensures UnsignalledOk(t, t.calls[i]) {
      assert UnsignalledOk(s, s.calls[i]);
    }
    if a.Advance? { assert UnsignalledOk(s, s.calls[a.call]); }
  }

  lemma {:induction false} SignalInvAlong(ttl: nat, states: seq<State>, acts: seq<Action>, k: nat)
    requires Run(ttl, states, acts) && Init(states[0]) && k < |states|
    ensures SignalInv(states[k])
  {
    if k > 0 {
      SignalInvAlong(ttl, states, acts, k - 1);
      InvAlong(ttl, states, acts, k - 1);
      SignalInvStep(ttl, states[k - 1], acts[k - 1]);
    }
  }

  /** Call `i` finds notify `n` in the slot and joins it. */
  predicate Joins(s: State, a: Action, i: nat, n: nat) {
    a.Advance? && a.call == i && i < |s.calls| && s.calls[i] == Claiming && s.slot == Some(n)
  }

  predicate Fires(s: State, a: Action, n: nat) {
    a.Advance? && a.call < |s.calls| && WillSignal(s.calls[a.call], n)
  }

  predicate Registers(s: State, a: Action, i: nat, n: nat) {
    a.Advance? && a.call == i && i < |s.calls| && s.calls[i] == Joined(n)
  }

  ghost predicate WaitingSince(states: seq<State>, r: nat, k: nat, i: nat)
    requires r < k < |states| && i < |states[k].calls|
  {
    forall j | r < j <= k :: i < |states[j].calls| && states[j].calls[i] == states[k].calls[i]
  }

  lemma WaitingEntered(ttl: nat, s: State, a: Action, i: nat)
    requires Enabled(s, a) && i < |s.calls| && Next(ttl, s, a).calls[i].Waiting?
    ensures var phase := Next(ttl, s, a).calls[i];
            s.calls[i] == phase || (Registers(s, a, i, phase.notify) && phase.missed == (phase.notify in s.fired))
  {
  }

  lemma {:induction false} FindRegistration(ttl: nat, states: seq<State>, acts: seq<Action>, k: nat, i: nat)
    returns (r: nat)
    requires Run(ttl, states, acts) && Init(states[0]) && k <= |acts|
    requires i < |states[k].calls| && states[k].calls[i].Waiting?
    ensures var phase := states[k].calls[i];
            r < k && Registers(states[r], acts[r], i, phase.notify)
            && phase.missed == (phase.notify in states[r].fired)
    ensures WaitingSince(states, r, k, i)
  {
    WaitingEntered(ttl, states[k - 1], acts[k - 1], i);
    r := k - 1;
    if states[r].calls[i].Waiting? { r := FindRegistration(ttl, states, acts, r, i); }
  }

  lemma JoinedEntered(ttl: nat, s: State, a: Action, i: nat)
    requires Enabled(s, a) && i < |s.calls| && Next(ttl, s, a).calls[i].Joined?
    ensures s.calls[i] == Next(ttl, s, a).calls[i] || Joins(s, a, i, Next(ttl, s, a).calls[i].notify)
  {
  }

  lemma {:induction false} FindJoin(ttl: nat, states: seq<State>, acts: seq<Action>, k: nat, i: nat) returns (j: nat)
    requires Run(ttl, states, acts) && Init(states[0]) && k <= |acts|
    requires i < |states[k].calls| && states[k].calls[i].Joined?
    ensures j < k && Joins(states[j], acts[j], i, states[k].calls[i].notify)
  {
    JoinedEntered(ttl, states[k - 1], acts[k - 1], i);
    j := k - 1;
    if states[j].calls[i].Joined? { j := FindJoin(ttl, states, acts, j, i); }
  }

  lemma FiredByFiring(ttl: nat, s: State, a: Action, n: nat)
    requires Enabled(s, a)
    ensures n in Next(ttl, s, a).fired <==> n in s.fired || Fires(s, a, n)
  {
  }

  lemma {:induction false} FiredIff(ttl: nat, states: seq<State>, acts: seq<Action>, j: nat, k: nat, n: nat)
    requires Run(ttl, states, acts) && j <= k <= |acts|
    ensures n in states[k].fired <==> n in states[j].fired || exists f :: j <= f < k && Fires(states[f], acts[f], n)
  {
    if j < k {
      FiredIff(ttl, states, acts, j, k - 1, n);
      FiredByFiring(ttl, states[k - 1], acts[k - 1], n);
    }
  }

  /** The call joined, then its leader signalled, and only then the call registered; it has waited since. */
  ghost predicate Straddled(states: seq<State>, acts: seq<Action>, k: nat, i: nat)
    requires k <= |acts| < |states| && i < |states[k].calls| && states[k].calls[i].Waiting?
  {
    var n := states[k].calls[i].notify;
    exists joined, fired, registered ::
      && 0 <= joined < fired < registered < k
      && Joins(states[joined], acts[joined], i, n)
      && Fires(states[fired], acts[fired], n)
      && Registers(states[registered], acts[registered], i, n)
      && WaitingSince(states, registered, k, i)
  }

  lemma StraddledHasMissed(ttl: nat, states: seq<State>, acts: seq<Action>, k: nat, i: nat)
    requires Run(ttl, states, acts) && Init(states[0]) && k <= |acts|
    requires i < |states[k].calls| && states[k].calls[i].Waiting? && Straddled(states, acts, k, i)
    ensures states[k].calls[i].missed
  {
    var n := states[k].calls[i].notify;
    var joined, fired, registered :|
      && 0 <= joined < fired < registered < k
      && Joins(states[joined], acts[joined], i, n)
      && Fires(states[fired], acts[fired], n)
      && Registers(states[registered], acts[registered], i, n)
      && WaitingSince(states, registered, k, i);
    FiredIff(ttl, states, acts, fired, registered, n);
    assert states[registered + 1].calls[i] == states[k].calls[i];
  }

  /** In every run a waiting call has missed its signal exactly when joining and registering straddled it. */
  lemma MissedIffStraddled(ttl: nat, states: seq<State>, acts: seq<Action>, k: nat, i: nat)
    requires Run(ttl, states, acts) && Init(states[0]) && k <= |acts|
    requires i < |states[k].calls| && states[k].calls[i].Waiting?
    ensures states[k].calls[i].missed <==> Straddled(states, acts, k, i)
  {
    var n := states[k].calls[i].notify;
    if states[k].calls[i].missed {
      var r := FindRegistration(ttl, states, acts, k, i);
      var j := FindJoin(ttl, states, acts, r, i);
      SignalInvAlong(ttl, states, acts, j);
      FiredIff(ttl, states, acts, j, r, n);
      var f :| j <= f < r && Fires(states[f], acts[f], n);
      assert f != j;
    }
    if Straddled(states, acts, k, i) { StraddledHasMissed(ttl, states, acts, k, i); }
  }

  /** The first call leads and the second joins; the leader ends, whatever its result, and the second registers. */
  lemma MissedIsReachable(ttl: nat, s: State, ok: bool) returns (states: seq<State>, acts: seq<Action>)
    requires Init(s) && |s.calls| == 2
    ensures Run(ttl, states, acts) && states[0] == s
    ensures states[|acts|].calls == [Returned(ok), Waiting(0, true)]
  {
    var lead, follow := Advance(0, ok), Advance(1, ok);
    var s1 := Next(ttl, s, lead);
    var s2 := Next(ttl, s1, lead);
    var s3 := Next(ttl, s2, follow);
    var s4 := Next(ttl, s3, follow);
    assert s4.calls == [Leading(0), Joined(0)];
    var s5 := Next(ttl, s4, lead);
    var s6 := Next(ttl, s5, lead);
    var s7 := Next(ttl, s6, lead);
    assert s7.calls == [Returned(ok), Joined(0)] && s7.fired == {0};
    states := [s, s1, s2, s3, s4, s5, s6, s7, Next(ttl, s7, follow)];
    acts := [lead, lead, follow, follow, lead, lead, lead, follow];
  }

  /** The call has its answer: it returned one, or its own fetch as the leader gave it one. */
  predicate Answered(phase: Phase) { (phase.Returned? || phase.Removing? || phase.Notifying?) && phase.ok }

  /** A call gets its answer only in a step after which the cached copy is fresh. */
  lemma AnswersAreFresh(ttl: nat, s: State, a: Action, i: nat)
    requires Enabled(s, a) && i < |s.calls| && !Answered(s.calls[i]) && Answered(Next(ttl, s, a).calls[i])
    ensures Fresh(ttl, Next(ttl, s, a))
  {
    assert a.Advance? && a.call == i;
    assert s.calls[i].Start? || s.calls[i].Leading? || s.calls[i].Rereading? || s.calls[i].Fetching?;
  }

  // ── Why a follower fetches for itself ─────────────────────────────────────────

  predicate Ending(phase: Phase, n: nat) { (phase.Removing? || phase.Notifying?) && phase.notify == n }

  /** Notify `n`'s leader has ended its fetch. */
  ghost predicate LeaderDone(s: State, n: nat) {
    n in s.fired || exists j :: 0 <= j < |s.calls| && Ending(s.calls[j], n)
  }

  /** In this step call `j`, the leader of notify `n`, ends its fetch. */
  predicate EndsFetch(s: State, a: Action, j: nat, n: nat) {
    a.Advance? && a.call == j && j < |s.calls| && s.calls[j] == Leading(n)
  }

  lemma LeaderDoneStep(ttl: nat, s: State, a: Action, n: nat)
    requires Enabled(s, a) && LeaderDone(Next(ttl, s, a), n)
    ensures LeaderDone(s, n) || (a.Advance? && EndsFetch(s, a, a.call, n))
  {
    var t := Next(ttl, s, a);
    if n in t.fired && n !in s.fired {
      assert Ending(s.calls[a.call], n);
    } else if n !in t.fired {
      var j :| 0 <= j < |t.calls| && Ending(t.calls[j], n);
      if a.Advance? && a.call == j {
        assert s.calls[j] == Leading(n) || Ending(s.calls[j], n);
      } else {
        assert t.calls[j] == s.calls[j];
      }
    }
  }

  lemma {:induction false} FindFetchEnd(ttl: nat, states: seq<State>, acts: seq<Action>, k: nat, n: nat)
    returns (e: nat)
    requires Run(ttl, states, acts) && Init(states[0]) && k <= |acts| && LeaderDone(states[k], n)
    ensures e < k && acts[e].Advance? && EndsFetch(states[e], acts[e], acts[e].call, n)
  {
    LeaderDoneStep(ttl, states[k - 1], acts[k - 1], n);
    e := k - 1;
    if LeaderDone(states[e], n) { e := FindFetchEnd(ttl, states, acts, e, n); }
  }

  lemma RereadingEntered(ttl: nat, s: State, a: Action, i: nat)
    requires Enabled(s, a) && i < |s.calls| && Next(ttl, s, a).calls[i].Rereading?
    ensures s.calls[i].Rereading? || (s.calls[i].Waiting? && s.calls[i].notify in s.fired)
  {
  }

  lemma {:induction false} CallsStay(ttl: nat, states: seq<State>, acts: seq<Action>, k: nat)
    requires Run(ttl, states, acts) && k <= |acts|
    ensures |states[k].calls| == |states[0].calls|
  {
    if k > 0 { CallsStay(ttl, states, acts, k - 1); }
  }

  lemma {:induction false} FindWait(ttl: nat, states: seq<State>, acts: seq<Action>, k: nat, i: nat) returns (w: nat)
    requires Run(ttl, states, acts) && Init(states[0]) && k <= |acts| && i < |states[0].calls|
    requires i < |states[k].calls| && states[k].calls[i].Rereading?
    ensures w < k && i < |states[w].calls| && states[w].calls[i].Waiting?
        && states[w].calls[i].notify in states[w].fired
  {
    CallsStay(ttl, states, acts, k - 1);
    RereadingEntered(ttl, states[k - 1], acts[k - 1], i);
    w := k - 1;
    if states[w].calls[i].Rereading? { w := FindWait(ttl, states, acts, w, i); }
  }

  /** What was stored stays, or something newer is, until the cache is cleared. */
  predicate StoredSince(s: State, at: nat) { s.storedAt.Some? && at <= s.storedAt.value <= s.now }

  lemma StoredStep(ttl: nat, s: State, a: Action, at: nat)
    requires Enabled(s, a) && StoredSince(s, at) && !a.Clear?
    ensures StoredSince(Next(ttl, s, a), at)
  {
  }

  lemma {:induction false} StoredAlong(ttl: nat, states: seq<State>, acts: seq<Action>, j: nat, k: nat, at: nat)
    requires Run(ttl, states, acts) && j <= k <= |acts| && StoredSince(states[j], at)
    requires forall m | j <= m < k :: !acts[m].Clear?
    ensures StoredSince(states[k], at)
  {
    if j < k {
      StoredAlong(ttl, states, acts, j, k - 1, at);
      StoredStep(ttl, states[k - 1], acts[k - 1], at);
    }
  }

  /** After the fetch that ended at `e`, the cache was cleared or a whole lifetime has passed. */
  predicate LostSince(ttl: nat, states: seq<State>, acts: seq<Action>, e: nat, k: nat)
    requires e < k <= |acts| < |states|
  {
    (exists m | e < m < k :: acts[m].Clear?) || states[k].now > states[e].now + ttl
  }

  lemma StoredCopyIsFresh(ttl: nat, states: seq<State>, acts: seq<Action>, e: nat, k: nat, n: nat)
    requires Run(ttl, states, acts) && e < k <= |acts|
    requires acts[e].Advance? && EndsFetch(states[e], acts[e], acts[e].call, n) && acts[e].ok
        && !LostSince(ttl, states, acts, e, k)
    ensures Fresh(ttl, states[k])
  {
    assert StoredSince(states[e + 1], states[e].now);
    StoredAlong(ttl, states, acts, e + 1, k, states[e].now);
  }

  /**
    A follower fetches for itself only when its own leader's fetch had failed, or the copy that
    leader stored was cleared or had outlived its lifetime by the time it was reread.
  */
  lemma FallbackHasCause(ttl: nat, states: seq<State>, acts: seq<Action>, k: nat, i: nat)
    returns (n: nat, w: nat, e: nat)
    requires Run(ttl, states, acts) && Init(states[0]) && k < |acts| && i < |states[k].calls|
    requires !states[k].calls[i].Fetching? && states[k + 1].calls[i].Fetching?
    ensures e < w < k && i < |states[w].calls| && states[w].calls[i].Waiting? && states[w].calls[i].notify == n
    ensures acts[e].Advance? && EndsFetch(states[e], acts[e], acts[e].call, n)
    ensures !acts[e].ok || LostSince(ttl, states, acts, e, k)
  {
    assert acts[k].Advance? && acts[k].call == i && states[k].calls[i].Rereading? && !Fresh(ttl, states[k]);
    CallsStay(ttl, states, acts, k);
    w := FindWait(ttl, states, acts, k, i);
    n := states[w].calls[i].notify;
    e := FindFetchEnd(ttl, states, acts, w, n);
    if acts[e].ok && !LostSince(ttl, states, acts, e, k) { StoredCopyIsFresh(ttl, states, acts, e, k, n); }
  }

  // ── Where answers and failures come from ──────────────────────────────────────

  /** In this step call `i` ends a fetch of its own, as the leader or as a follower gone back to the network. */
  predicate EndsOwnFetch(s: State, a: Action, i: nat) {
    a.Advance? && a.call == i && i < |s.calls| && (s.calls[i].Leading? || s.calls[i].Fetching?)
  }

  lemma StoreStep(ttl: nat, s: State, a: Action)
    requires Enabled(s, a) && Next(ttl, s, a).storedAt.Some?
    ensures var t := Next(ttl, s, a);
            || (t.storedAt == s.storedAt && !a.Clear?)
            || (a.Advance? && a.ok && EndsOwnFetch(s, a, a.call) && t.storedAt == Some(s.now))
  {
  }

  /** The cached copy comes from a successful fetch, and the cache has not been cleared since. */
  lemma {:induction false} FindStore(ttl: nat, states: seq<State>, acts: seq<Action>, k: nat) returns (e: nat)
    requires Run(ttl, states, acts) && Init(states[0]) && k <= |acts| && states[k].storedAt.Some?
    ensures e < k && acts[e].Advance? && acts[e].ok && EndsOwnFetch(states[e], acts[e], acts[e].call)
    ensures states[k].storedAt == Some(states[e].now) && forall m | e < m < k :: !acts[m].Clear?
  {
    StoreStep(ttl, states[k - 1], acts[k - 1]);
    e := k - 1;
    if acts[e].Clear? || states[e].storedAt == states[k].storedAt { e := FindStore(ttl, states, acts, e); }
  }

  /**
    A call gets its answer from a successful fetch that ended within the lifetime before it, with
    no clearing of the cache in between.
  */
  lemma AnswersAreRecent(ttl: nat, states: seq<State>, acts: seq<Action>, k: nat, i: nat) returns (e: nat)
    requires Run(ttl, states, acts) && Init(states[0]) && k < |acts| && i < |states[k].calls|
    requires !Answered(states[k].calls[i]) && Answered(states[k + 1].calls[i])
    ensures e <= k && acts[e].Advance? && acts[e].ok && EndsOwnFetch(states[e], acts[e], acts[e].call)
    ensures states[k].now <= states[e].now + ttl && forall m | e < m <= k :: !acts[m].Clear?
  {
    AnswersAreFresh(ttl, states[k], acts[k], i);
    e := FindStore(ttl, states, acts, k + 1);
  }

  predicate Failed(phase: Phase) { (phase.Returned? || phase.Removing? || phase.Notifying?) && !phase.ok }

  lemma FailureStep(ttl: nat, s: State, a: Action, i: nat)
    requires Enabled(s, a) && i < |s.calls| && Failed(Next(ttl, s, a).calls[i])
    ensures Failed(s.calls[i]) || (EndsOwnFetch(s, a, i) && !a.ok)
  {
  }

  /** A call fails only when a fetch of its own failed: nobody answers with another call's error. */
  lemma {:induction false} FailuresAreOwn(ttl: nat, states: seq<State>, acts: seq<Action>, k: nat, i: nat)
    returns (e: nat)
    requires Run(ttl, states, acts) && Init(states[0]) && k <= |acts|
    requires i < |states[0].calls| && i < |states[k].calls| && Failed(states[k].calls[i])
    ensures e < k && EndsOwnFetch(states[e], acts[e], i) && !acts[e].ok
  {
    CallsStay(ttl, states, acts, k - 1);
    FailureStep(ttl, states[k - 1], acts[k - 1], i);
    e := k - 1;
    if Failed(states[e].calls[i]) { e := FailuresAreOwn(ttl, states, acts, e, i); }
  }

  // ── When the next query can be answered ───────────────────────────────────────

  /** No call is under way that could still touch the cache or the slot. */
  predicate Idle(s: State) {
    forall i | 0 <= i < |s.calls| ::
      var phase := s.calls[i];
      && !phase.Holds() && !phase.Notifying? && !phase.Rereading? && !phase.Fetching?
      && (phase.Waiting? ==> !CanAdvance(s, phase))
  }

  predicate Wedged(ttl: nat, s: State) { Idle(s) && s.slot.Some? && !Fresh(ttl, s) }

  lemma WedgedStep(ttl: nat, s: State, a: Action)
    requires Enabled(s, a) && Wedged(ttl, s)
    ensures Wedged(ttl, Next(ttl, s, a))
    ensures forall i | 0 <= i < |s.calls| :: Next(ttl, s, a).calls[i].Returned? ==> s.calls[i].Returned?
    ensures |Next(ttl, s, a).calls| == |s.calls|
  {
  }

  lemma {:induction false} WedgedForever(ttl: nat, states: seq<State>, acts: seq<Action>, k: nat)
    requires Run(ttl, states, acts) && Wedged(ttl, states[0]) && k < |states|
    ensures Wedged(ttl, states[k]) && |states[k].calls| == |states[0].calls|
    ensures forall i | 0 <= i < |states[0].calls| && states[k].calls[i].Returned? :: states[0].calls[i].Returned?
  {
    if k > 0 {
      WedgedForever(ttl, states, acts, k - 1);
      WedgedStep(ttl, states[k - 1], acts[k - 1]);
    }
  }

  /** Some continuation answers call `i`. */
  ghost predicate CanReturn(ttl: nat, s: State, i: nat) {
    exists states: seq<State>, acts: seq<Action> ::
      Run(ttl, states, acts) && states[0] == s && i < |states[|states| - 1].calls|
          && states[|states| - 1].calls[i].Returned?
  }

  lemma LeadToTheEnd(ttl: nat, s: State, i: nat, ok: bool) returns (states: seq<State>, acts: seq<Action>)
    requires i < |s.calls| && s.calls[i] == Start && !Fresh(ttl, s) && s.slot == None
    ensures Run(ttl, states, acts) && states[0] == s
    ensures states[|states| - 1].calls == s.calls[i := Returned(ok)] && states[|states| - 1].slot == None
    ensures states[|states| - 1].now == s.now && states[|states| - 1].storedAt == if ok then Some(s.now) else s.storedAt
  {
    var go := Advance(i, ok);
    var s1 := Next(ttl, s, go);
    var s2 := Next(ttl, s1, go);
    var s3 := Next(ttl, s2, go);
    var s4 := Next(ttl, s3, go);
    states, acts := [s, s1, s2, s3, s4, Next(ttl, s4, go)], [go, go, go, go, go];
  }

  /** With nothing under way, a query can be answered exactly when the copy is fresh or the slot is free. */
  lemma AnswerableIff(ttl: nat, s: State, i: nat)
    requires Idle(s) && i < |s.calls| && s.calls[i] == Start
    ensures CanReturn(ttl, s, i) <==> Fresh(ttl, s) || s.slot == None
  {
    if Fresh(ttl, s) {
      var states := [s, Next(ttl, s, Advance(i, true))];
      assert Run(ttl, states, [Advance(i, true)]);
      assert states[|states| - 1].calls[i].Returned?;
    } else if s.slot == None {
      var states, acts := LeadToTheEnd(ttl, s, i, true);
      assert states[|states| - 1].calls[i].Returned?;
    } else {
      forall states: seq<State>, acts: seq<Action> | Run(ttl, states, acts) && states[0] == s
        ensures !(i < |states[|states| - 1].calls| && states[|states| - 1].calls[i].Returned?)
      {
        WedgedForever(ttl, states, acts, |states| - 1);
      }
    }
  }

  /** Dropping the first leader of a cold loader leaves every later query without an answer. */
  lemma DroppedLeaderWedges(ttl: nat, s: State, i: nat, later: nat) returns (states: seq<State>, acts: seq<Action>)
    requires Init(s) && i < |s.calls| && later < |s.calls| && later != i
    ensures Run(ttl, states, acts) && states[0] == s
    ensures Wedged(ttl, states[|states| - 1]) && !CanReturn(ttl, states[|states| - 1], later)
  {
    var go := Advance(i, true);
    var s1 := Next(ttl, s, go);
    var s2 := Next(ttl, s1, go);
    var s3 := Next(ttl, s2, Cancel(i));
    states, acts := [s, s1, s2, s3], [go, go, Cancel(i)];
    AnswerableIff(ttl, s3, later);
  }

  // ── Settling ──────────────────────────────────────────────────────────────────

  /** The steps a call in this phase may still take. */
  function StepsLeft(phase: Phase): nat {
    match phase
    case Start => 6
    case Claiming => 5
    case Joined(_) => 4
    case Leading(_) => 3
    case Waiting(_, _) => 3
    case Removing(_, _) => 2
    case Rereading => 2
    case Notifying(_, _) => 1
    case Fetching => 1
    case Returned(_) => 0
    case Dropped => 0
  }

  /** How many of the first `k` steps are call `i`'s own. */
  function StepsOf(acts: seq<Action>, k: nat, i: nat): nat
    requires k <= |acts|
  {
    if k == 0 then 0 else StepsOf(acts, k - 1, i) + if acts[k - 1].Advance? && acts[k - 1].call == i then 1 else 0
  }

  lemma StepSpent(ttl: nat, s: State, a: Action, i: nat)
    requires Enabled(s, a) && i < |s.calls|
    ensures i < |Next(ttl, s, a).calls|
    ensures StepsLeft(Next(ttl, s, a).calls[i]) + (if a.Advance? && a.call == i then 1 else 0) <= StepsLeft(s.calls[i])
  {
    hide Fresh;
  }

  /** In every run a call takes at most six steps of its own. */
  lemma {:induction false} SixStepsEach(ttl: nat, states: seq<State>, acts: seq<Action>, k: nat, i: nat)
    requires Run(ttl, states, acts) && Init(states[0]) && k <= |acts| && i < |states[0].calls|
    ensures i < |states[k].calls| && StepsOf(acts, k, i) + StepsLeft(states[k].calls[i]) <= 6
  {
    if k > 0 {
      SixStepsEach(ttl, states, acts, k - 1, i);
      StepSpent(ttl, states[k - 1], acts[k - 1], i);
    }
  }

  /**
    When no call can go on, each has its answer, was dropped, or is a follower that missed its
    signal or whose leader was dropped in mid-fetch.
  */
  lemma StuckMeansSettled(ttl: nat, states: seq<State>, acts: seq<Action>, k: nat, i: nat)
    requires Run(ttl, states, acts) && Init(states[0]) && k <= |acts| && i < |states[k].calls|
    requires forall j, ok | 0 <= j < |states[k].calls| :: !Enabled(states[k], Advance(j, ok))
    ensures var s, phase := states[k], states[k].calls[i];
            || phase.Returned? || phase.Dropped?
            || (phase.Waiting? && phase.missed)
            || (phase.Waiting? && exists m :: 0 <= m < k && DropsLeaderOf(states[m], acts[m], phase.notify))
  {
    var s := states[k];
    assert !Enabled(s, Advance(i, true));
    if s.calls[i].Waiting? {
      BlockedFollower(ttl, states, acts, k, i);
      if j :| 0 <= j < |s.calls| && StillToSignal(s.calls[j], s.calls[i].notify) {
        assert Enabled(s, Advance(j, true));
      }
    }
  }

  /** A copy loaded by one call has run out by the time of `later`, which goes to the network again. */
  lemma ExpiredIsLoadedAgain(ttl: nat, s: State, i: nat, later: nat) returns (states: seq<State>, acts: seq<Action>)
    requires Init(s) && i < |s.calls| && later < |s.calls| && later != i
    ensures Run(ttl, states, acts) && states[0] == s && |states[|acts|].calls| == |s.calls|
    ensures states[|acts|].calls[i] == Returned(true) && states[|acts|].calls[later].Leading?
  {
    var loaded, first := LeadToTheEnd(ttl, s, i, true);
    var end := loaded[|first|];
    var tick, go := Tick(s.now + ttl + 1), Advance(later, true);
    var t1 := Next(ttl, end, tick);
    var t2 := Next(ttl, t1, go);
    assert t2.calls[later] == Claiming;
    states, acts := loaded + [t1, t2, Next(ttl, t2, go)], first + [tick, go, go];
  }
}
