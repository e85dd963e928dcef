/**
  When the per-host cap bounds an origin's attempts. Gated attempts never pass it, but an
  attempt that finds the registry full goes ungated, and this can happen even to an
  origin that another call has just registered.
*/
module PermitOvershoot {
  import opened Wrappers
  import opened Permits
  import opened PermitInvariants
  import opened PermitSteps
  import opened PermitTheorems
  import Retry

  ghost function Origins(calls: seq<Call>): set<Origin> {
    set i | 0 <= i < |calls| :: calls[i].origin
  }

  /** In every state of every run from `s`, no origin has more attempts in flight than the cap. */
  ghost predicate CapHolds(c: Config, s: State) {
    forall t, o: Origin | Reaches(c, s, t) :: Count(t.calls, GlobalHoldersOf(o)) <= c.HostLimit()
  }

  /** The global cap is no larger, no origin has enough calls, or the registry cannot fill up. */
  ghost predicate CannotOvershoot(c: Config, s: State) {
    || c.GlobalLimit() == c.HostLimit()
    || (forall o: Origin :: Count(s.calls, CallsTo(o)) <= c.HostLimit())
    || |Origins(s.calls)| < c.registryCapacity
  }

  // ── The cap holds when it cannot be overshot ──────────────────────────────────

  lemma {:induction false} OriginsStay(c: Config, states: seq<State>, acts: seq<Action>, k: nat)
    requires Run(c, states, acts) && k < |states|
    ensures |states[k].calls| == |states[0].calls|
    ensures forall i | 0 <= i < |states[0].calls| :: states[k].calls[i].origin == states[0].calls[i].origin
  {
    if k > 0 {
      OriginsStay(c, states, acts, k - 1);
      StepShape(c, states[k - 1], acts[k - 1]);
    }
  }

  lemma {:induction false} SameOriginsSameCount(a: seq<Call>, b: seq<Call>, o: Origin)
    requires |a| == |b| && forall i | 0 <= i < |a| :: a[i].origin == b[i].origin
    ensures Count(a, CallsTo(o)) == Count(b, CallsTo(o))
  {
    if a != [] { SameOriginsSameCount(a[..|a| - 1], b[..|b| - 1], o); }
  }

  predicate Gated(call: Call) { Unplaced(call.pc) || call.semaphore.Some? }

  /** Registered origins are origins of calls, and no call past the registry is ungated. */
  ghost predicate AllGated(c: Config, s: State, origins: set<Origin>) {
    && c.fetcher.perHostLimit.Some?
    && Origins(s.calls) == origins
    && s.registry.Keys <= origins
    && forall i | 0 <= i < |s.calls| :: Gated(s.calls[i])
  }

  lemma GatedInRegistry(c: Config, s: State, i: nat)
    requires i < |s.calls| && s.calls[i].pc.InRegistry() && c.fetcher.perHostLimit.Some?
        && |s.registry| < c.registryCapacity
    ensures Gated(NextInRegistry(c, s, i).calls[i])
  {
  }

  lemma GatedTaking(c: Config, s: State, i: nat, reply: Reply)
    requires i < |s.calls| && Enabled(s, Advance(i, reply)) && s.calls[i].pc.Taking() && Gated(s.calls[i])
    ensures Gated(NextTaking(c, s, i, reply).calls[i])
  {
  }

  lemma GatedReleasing(s: State, i: nat)
    requires i < |s.calls| && !s.calls[i].pc.InRegistry() && !s.calls[i].pc.Taking() && Gated(s.calls[i])
    requires s.calls[i].HoldsHost() ==> s.calls[i].semaphore.value < |s.hostFree|
    ensures Gated(NextReleasing(s, i).calls[i])
  {
  }

  lemma GatedOnCancel(s: State, i: nat)
    requires i < |s.calls| && Gated(s.calls[i]) && s.calls[i].Cancellable()
    ensures Gated(NextOnCancel(s, i).calls[i])
  {
  }

  lemma SameOrigins(a: seq<Call>, b: seq<Call>)
    requires |a| == |b| && forall i | 0 <= i < |a| :: a[i].origin == b[i].origin
    ensures Origins(a) == Origins(b)
  {
    forall o ensures o in Origins(a) <==> o in Origins(b) {
      if i :| 0 <= i < |a| && a[i].origin == o { assert b[i].origin == o; }
      if i :| 0 <= i < |b| && b[i].origin == o { assert a[i].origin == o; }
    }
  }

  lemma {:induction false} SubsetIsSmaller<T>(a: set<T>, b: set<T>)
    requires a <= b
    ensures |a| <= |b|
    ensures a != b ==> |a| < |b|
  {
    assert b == a + (b - a);
  }

  lemma AllGatedStep(c: Config, s: State, a: Action, origins: set<Origin>)
    requires Enabled(s, a) && AllGated(c, s, origins) && |origins| < c.registryCapacity
    ensures AllGated(c, Next(c, s, a), origins)
  {
    var t := Next(c, s, a);
    StepShape(c, s, a);
    SubsetIsSmaller(s.registry.Keys, origins);
    SameOrigins(s.calls, t.calls);
    assert Gated(s.calls[a.call]);
    match a
    case Cancel(i) => GatedOnCancel(s, i);
    case Advance(i, reply) =>
      if s.calls[i].pc.InRegistry() { GatedInRegistry(c, s, i); }
      else if s.calls[i].pc.Taking() { GatedTaking(c, s, i, reply); }
      else { GatedReleasing(s, i); }
  }

  lemma {:induction false} AllGatedAlong(c: Config, states: seq<State>, acts: seq<Action>, k: nat)
    requires c.Valid() && Run(c, states, acts) && Init(c, states[0]) && k < |states|
    requires c.fetcher.perHostLimit.Some? && |Origins(states[0].calls)| < c.registryCapacity
    ensures AllGated(c, states[k], Origins(states[0].calls))
  {
    if k > 0 {
      AllGatedAlong(c, states, acts, k - 1);
      AllGatedStep(c, states[k - 1], acts[k - 1], Origins(states[0].calls));
    }
  }

  lemma GatedShare(c: Config, s: State, o: Origin, origins: set<Origin>)
    requires c.Valid() && Reachable(c, s) && AllGated(c, s, origins)
    ensures Count(s.calls, GlobalHoldersOf(o)) <= c.HostLimit()
  {
    hide Count;
    ReachableInv(c, s);
    forall i | 0 <= i < |s.calls| ensures Gated(s.calls[i]) && CallOk(c, s, s.calls[i]) {}
    if o in s.registry {
      OriginShare(c, s, o);
      CountNone(s.calls, UngatedGlobalHoldersOf(o));
    } else {
      CountNone(s.calls, GlobalHoldersOf(o));
    }
  }

  lemma GlobalCapIsEnough(c: Config, t: State, o: Origin)
    requires c.Valid() && Reachable(c, t)
    ensures Count(t.calls, GlobalHoldersOf(o)) <= c.GlobalLimit()
  {
    hide Count;
    ReachableInv(c, t);
    CountWithin(t.calls, GlobalHoldersOf(o), GlobalHolders);
  }

  lemma NotMoreThanItsCalls(s: State, t: State, o: Origin)
    requires |s.calls| == |t.calls| && forall i | 0 <= i < |s.calls| :: t.calls[i].origin == s.calls[i].origin
    ensures Count(t.calls, GlobalHoldersOf(o)) <= Count(s.calls, CallsTo(o))
  {
    hide Count;
    SameOriginsSameCount(s.calls, t.calls, o);
    CountWithin(t.calls, GlobalHoldersOf(o), CallsTo(o));
  }

  lemma CapHoldsAt(c: Config, s: State, t: State, o: Origin)
    requires c.Valid() && c.fetcher.perHostLimit.Some? && Init(c, s) && CannotOvershoot(c, s) && Reaches(c, s, t)
    ensures Count(t.calls, GlobalHoldersOf(o)) <= c.HostLimit()
  {
    var states: seq<State>, acts: seq<Action> :| Run(c, states, acts) && states[0] == s && states[|acts|] == t;
    assert Reachable(c, t);
    if c.GlobalLimit() == c.HostLimit() {
      GlobalCapIsEnough(c, t, o);
    } else if forall q: Origin :: Count(s.calls, CallsTo(q)) <= c.HostLimit() {
      OriginsStay(c, states, acts, |acts|);
      NotMoreThanItsCalls(s, t, o);
    } else {
      AllGatedAlong(c, states, acts, |acts|);
      GatedShare(c, t, o, Origins(s.calls));
    }
  }

  // ── Otherwise it is overshot ──────────────────────────────────────────────────

  /** While the registry fills: `x` is past its lookup; whoever else is not registered has not begun. */
  ghost predicate Filling(c: Config, s: State, x: nat) {
    && x < |s.calls| && s.calls[x] == Call(s.calls[x].origin, CheckLength, 1, None)
    && |s.registry| <= c.registryCapacity && |s.registry| == |s.hostFree|
    && s.globalFree == c.GlobalLimit()
    && (forall q | q in s.registry :: s.registry[q] < |s.hostFree| && s.hostFree[s.registry[q]] == c.HostLimit())
    && forall i | 0 <= i < |s.calls| && i != x ::
         || s.calls[i] == Call(s.calls[i].origin, Begin, 0, None)
         || (s.calls[i].origin in s.registry
             && s.calls[i] == Call(s.calls[i].origin, WaitHost, 1, Some(s.registry[s.calls[i].origin])))
  }

  lemma Overwritten<T>(q: seq<T>, i: nat, first: T, second: T)
    requires i < |q|
    ensures q[i := first][i := second] == q[i := second]
  {
  }

  lemma StillFilling(c: Config, s: State, t: State, x: nat, i: nat)
    requires Filling(c, s, x) && |s.registry| < c.registryCapacity
    requires i < |s.calls| && i != x && s.calls[i].origin !in s.registry
    requires t.calls == s.calls[i := Call(s.calls[i].origin, WaitHost, 1, Some(|s.hostFree|))]
    requires t.registry == s.registry[s.calls[i].origin := |s.hostFree|] && t.hostFree == s.hostFree + [c.HostLimit()]
    requires t.globalFree == s.globalFree
    ensures Filling(c, t, x)
  {
    forall q | q in t.registry ensures t.registry[q] < |t.hostFree| && t.hostFree[t.registry[q]] == c.HostLimit() {
      if q in s.registry { assert t.registry[q] == s.registry[q]; }
    }
  }

  /** A call that finds room registers its origin and waits for the permit. */
  lemma LooksUpAndRegisters(c: Config, s0: State, s: State, i: nat) returns (t: State)
    requires Reaches(c, s0, s) && i < |s.calls| && c.fetcher.perHostLimit.Some? && |s.registry| < c.registryCapacity
    requires s.calls[i] == Call(s.calls[i].origin, Begin, 0, None) && s.calls[i].origin !in s.registry
    ensures Reaches(c, s0, t) && t.calls == s.calls[i := Call(s.calls[i].origin, WaitHost, 1, Some(|s.hostFree|))]
    ensures t.registry == s.registry[s.calls[i].origin := |s.hostFree|] && t.hostFree == s.hostFree + [c.HostLimit()]
    ensures t.globalFree == s.globalFree
  {
    hide Reaches;
    var u := LookUp(c, s0, s, i);
    t := Register(c, s0, u, i);
    Overwritten(s.calls, i, u.calls[i], t.calls[i]);
  }

  /** One more origin registers. */
  lemma FillOne(c: Config, s0: State, s: State, x: nat, i: nat) returns (t: State)
    requires Reaches(c, s0, s) && Filling(c, s, x) && c.fetcher.perHostLimit.Some? && |s.registry| < c.registryCapacity
    requires i < |s.calls| && i != x && s.calls[i].origin !in s.registry
    ensures Reaches(c, s0, t) && Filling(c, t, x)
    ensures t.registry.Keys == s.registry.Keys + {s.calls[i].origin}
    ensures |t.calls| == |s.calls| && forall j | 0 <= j < |s.calls| :: t.calls[j].origin == s.calls[j].origin
  {
    assert s.calls[i] == Call(s.calls[i].origin, Begin, 0, None) && |s.registry| == |s.hostFree|;
    assert s.calls[x].pc.CheckLength?;
    hide Filling, Reaches;
    t := LooksUpAndRegisters(c, s0, s, i);
    StillFilling(c, s, t, x, i);
  }

  lemma UnregisteredCall(s: State, x: nat, capacity: nat) returns (i: nat)
    requires x < |s.calls| && |Origins(s.calls)| >= capacity && |s.registry| < capacity - 1
    ensures i < |s.calls| && s.calls[i].origin !in s.registry && s.calls[i].origin != s.calls[x].origin
  {
    var taken := s.registry.Keys + {s.calls[x].origin};
    if Origins(s.calls) <= taken { SubsetIsSmaller(Origins(s.calls), taken); }
    var q :| q in Origins(s.calls) && q !in taken;
    i :| 0 <= i < |s.calls| && s.calls[i].origin == q;
  }

  /** Origins other than `x`'s register until `x`'s is the only one the registry has room for. */
  lemma {:induction false} Fill(c: Config, s0: State, s: State, x: nat) returns (t: State)
    requires Reaches(c, s0, s) && Filling(c, s, x) && c.Valid() && c.fetcher.perHostLimit.Some?
    requires |Origins(s.calls)| >= c.registryCapacity
    requires s.calls[x].origin !in s.registry && |s.registry| < c.registryCapacity
    ensures Reaches(c, s0, t) && Filling(c, t, x)
    ensures s.calls[x].origin !in t.registry && |t.registry| == c.registryCapacity - 1
    ensures |t.calls| == |s.calls| && forall j | 0 <= j < |s.calls| :: t.calls[j].origin == s.calls[j].origin
    decreases c.registryCapacity - |s.registry|
  {
    t := s;
    if |s.registry| < c.registryCapacity - 1 {
      var i := UnregisteredCall(s, x, c.registryCapacity);
      var u := FillOne(c, s0, s, x, i);
      SameOrigins(s.calls, u.calls);
      assert |u.registry.Keys| == |s.registry.Keys| + 1;
      t := Fill(c, s0, u, x);
    }
  }

  /** While the attempts of `o` pile up: `n` are running, one of them ungated. */
  ghost predicate Piling(c: Config, s: State, o: Origin, n: nat) {
    && o in s.registry && s.registry[o] < |s.hostFree|
    && 1 <= n <= c.HostLimit() + 1
    && s.hostFree[s.registry[o]] == c.HostLimit() + 1 - n
    && s.globalFree == c.GlobalLimit() - n
    && Count(s.calls, GlobalHoldersOf(o)) == n
    && forall i | 0 <= i < |s.calls| && s.calls[i].origin == o ::
         || s.calls[i] == Call(o, Begin, 0, None)
         || s.calls[i] == Call(o, WaitHost, 1, Some(s.registry[o]))
         || s.calls[i].pc.Running?
  }

  lemma {:induction false} SomebodyElse(calls: seq<Call>, small: Tally, large: Tally) returns (i: nat)
    requires Count(calls, small) < Count(calls, large)
    ensures i < |calls| && Counts(large, calls[i]) && !Counts(small, calls[i])
  {
    i := |calls| - 1;
    if !Counts(large, calls[i]) || Counts(small, calls[i]) {
      i := SomebodyElse(calls[..i], small, large);
    }
  }

  lemma PileOne(c: Config, s0: State, s: State, o: Origin, n: nat) returns (t: State)
    requires Reaches(c, s0, s) && Piling(c, s, o, n) && c.fetcher.perHostLimit.Some?
    requires n <= c.HostLimit() < c.GlobalLimit() && Count(s.calls, CallsTo(o)) > c.HostLimit()
    ensures Reaches(c, s0, t) && Piling(c, t, o, n + 1)
    ensures Count(t.calls, CallsTo(o)) == Count(s.calls, CallsTo(o))
  {
    hide Count;
    var i := SomebodyElse(s.calls, GlobalHoldersOf(o), CallsTo(o));
    var u := s;
    if s.calls[i].pc.Begin? { u := EnterRegistered(c, s0, s, i); }
    t := RunFromHost(c, s0, u, i, s.registry[o]);
    assert t.calls == s.calls[i := Call(o, Running, 1, Some(s.registry[o]))];
    CountUpdate(s.calls, i, t.calls[i], GlobalHoldersOf(o));
    CountUpdate(s.calls, i, t.calls[i], CallsTo(o));
  }

  lemma {:induction false} Pile(c: Config, s0: State, s: State, o: Origin, n: nat) returns (t: State)
    requires Reaches(c, s0, s) && Piling(c, s, o, n) && c.fetcher.perHostLimit.Some?
    requires c.HostLimit() < c.GlobalLimit() && Count(s.calls, CallsTo(o)) > c.HostLimit()
    ensures Reaches(c, s0, t) && Count(t.calls, GlobalHoldersOf(o)) > c.HostLimit()
    decreases c.HostLimit() + 1 - n
  {
    t := s;
    if n <= c.HostLimit() {
      var u := PileOne(c, s0, s, o, n);
      t := Pile(c, s0, u, o, n + 1);
    }
  }

  lemma AnotherCall(calls: seq<Call>, o: Origin, x: nat) returns (i: nat)
    requires x < |calls| && Count(calls, CallsTo(o)) >= 2
    ensures i < |calls| && i != x && calls[i].origin == o
  {
    var elsewhere := calls[x].(origin := Origin(o.scheme + "s", o.host, o.port));
    CountUpdate(calls, x, elsewhere, CallsTo(o));
    i := CountSome(calls[x := elsewhere], CallsTo(o));
  }

  /** The registry fills up, last with the origin of `x`, which has already looked it up in vain. */
  lemma FillUp(c: Config, s: State, x: nat) returns (t: State)
    requires c.Valid() && c.fetcher.perHostLimit.Some? && Init(c, s) && x < |s.calls|
    requires |Origins(s.calls)| >= c.registryCapacity && Count(s.calls, CallsTo(s.calls[x].origin)) >= 2
    ensures Reaches(c, s, t) && Filling(c, t, x)
    ensures s.calls[x].origin in t.registry && |t.registry| == c.registryCapacity
    ensures |t.calls| == |s.calls| && forall j | 0 <= j < |s.calls| :: t.calls[j].origin == s.calls[j].origin
  {
    var o := s.calls[x].origin;
    assert Reaches(c, s, s) by { assert Run(c, [s], []); }
    var u := LookUp(c, s, s, x);
    SameOrigins(s.calls, u.calls);
    var v := Fill(c, s, u, x);
    SameOriginsSameCount(s.calls, v.calls, o);
    var y := AnotherCall(v.calls, o, x);
    t := FillOne(c, s, v, x, y);
    assert |t.registry.Keys| == |v.registry.Keys| + 1;
  }

  lemma SlipsIntoPile(c: Config, s0: State, s: State, x: nat) returns (t: State)
    requires Reaches(c, s0, s) && Filling(c, s, x) && c.Valid()
    requires s.calls[x].origin in s.registry && |s.registry| == c.registryCapacity
    ensures Reaches(c, s0, t) && Piling(c, t, s.calls[x].origin, 1)
    ensures |t.calls| == |s.calls| && forall j | 0 <= j < |s.calls| :: t.calls[j].origin == s.calls[j].origin
  {
    CountNone(s.calls, GlobalHoldersOf(s.calls[x].origin));
    t := SlipBy(c, s0, s, x);
    CountUpdate(s.calls, x, t.calls[x], GlobalHoldersOf(s.calls[x].origin));
  }

  lemma Overshot(c: Config, s: State)
    requires c.Valid() && c.fetcher.perHostLimit.Some? && Init(c, s) && !CannotOvershoot(c, s)
    ensures !CapHolds(c, s)
  {
    var o: Origin :| Count(s.calls, CallsTo(o)) > c.HostLimit();
    var x := CountSome(s.calls, CallsTo(o));
    var full := FillUp(c, s, x);
    var t := SlipsIntoPile(c, s, full, x);
    SameOriginsSameCount(s.calls, t.calls, o);
    var u := Pile(c, s, t, o, 1);
  }

  /**
    For every configuration with a per-host cap and every set of calls: no schedule takes an
    origin past the cap exactly when the global cap is no larger, or no origin has more calls
    than the cap, or there are fewer origins than registry entries.
  */
  lemma PerHostCapHoldsIff(c: Config, s: State)
    requires c.Valid() && c.fetcher.perHostLimit.Some? && Init(c, s)
    ensures CapHolds(c, s) <==> CannotOvershoot(c, s)
  {
    if CannotOvershoot(c, s) {
      forall t, o: Origin | Reaches(c, s, t) ensures Count(t.calls, GlobalHoldersOf(o)) <= c.HostLimit() {
        CapHoldsAt(c, s, t, o);
      }
    } else {
      Overshot(c, s);
    }
  }

  // ── With the settings as deployed ─────────────────────────────────────────────

  const MILLISECOND: Retry.Duration := Retry.NANOS_PER_MILLI

  /** The fetcher's defaults and its registry capacity. */
  const DEPLOYED: Config :=
    Config(Retry.FetcherConfig(3, 500 * MILLISECOND, 8000 * MILLISECOND, 256, Some(16)), 1024)

  function Port(n: nat): Origin { Origin("https", "rdap.example", n) }

  /** One call to each of `n` origins. */
  function Spread(n: nat): seq<Call> {
    if n == 0 then [] else Spread(n - 1) + [Call(Port(n - 1), Begin, 0, None)]
  }

  /** The same and `extra` more calls to the first of them. */
  function Crowded(n: nat, extra: nat): seq<Call> {
    if extra == 0 then Spread(n) else Crowded(n, extra - 1) + [Call(Port(0), Begin, 0, None)]
  }

  /** Seventeen calls to one origin and one to each of 1023 others. */
  function Rush(): State { State(Crowded(1024, 16), map[], [], 256, 0, map[], 0) }

  lemma {:induction false} SpreadOrigins(n: nat)
    ensures |Spread(n)| == n && forall i | 0 <= i < n :: Spread(n)[i] == Call(Port(i), Begin, 0, None)
  {
    if n > 0 { SpreadOrigins(n - 1); }
  }

  lemma {:induction false} PortsDiffer(n: nat)
    ensures |set i | 0 <= i < n :: Port(i)| == n
  {
    if n > 0 {
      PortsDiffer(n - 1);
      assert (set i | 0 <= i < n :: Port(i)) == (set i | 0 <= i < n - 1 :: Port(i)) + {Port(n - 1)};
      assert Port(n - 1) !in set i | 0 <= i < n - 1 :: Port(i) by {
        assert forall i | 0 <= i < n - 1 :: Port(i).port != Port(n - 1).port;
      }
    }
  }

  predicate Unstarted(call: Call) { call.pc == Begin && call.attempt == 0 && call.semaphore == None }

  lemma {:induction false} CrowdedCalls(n: nat, extra: nat)
    ensures Spread(n) <= Crowded(n, extra)
    ensures forall i | 0 <= i < |Crowded(n, extra)| :: Unstarted(Crowded(n, extra)[i])
  {
    SpreadOrigins(n);
    if extra > 0 { CrowdedCalls(n, extra - 1); }
  }

  lemma {:induction false} CrowdCount(n: nat, extra: nat)
    ensures Count(Crowded(n, extra), CallsTo(Port(0))) == Count(Spread(n), CallsTo(Port(0))) + extra
  {
    if extra > 0 {
      CrowdCount(n, extra - 1);
      assert Crowded(n, extra)[..|Crowded(n, extra)| - 1] == Crowded(n, extra - 1);
    }
  }

  lemma {:induction false} CountAtLeastOne(calls: seq<Call>, i: nat, t: Tally)
    requires i < |calls| && Counts(t, calls[i])
    ensures Count(calls, t) >= 1
  {
    if i < |calls| - 1 { CountAtLeastOne(calls[..|calls| - 1], i, t); }
  }

  lemma CrowdedOrigins(n: nat, extra: nat)
    ensures |Origins(Crowded(n, extra))| >= n
  {
    SpreadOrigins(n);
    CrowdedCalls(n, extra);
    PortsDiffer(n);
    var ports := set i | 0 <= i < n :: Port(i);
    forall i | 0 <= i < n ensures Port(i) in Origins(Crowded(n, extra)) {
      assert Crowded(n, extra)[i] == Spread(n)[i];
    }
    SubsetIsSmaller(ports, Origins(Crowded(n, extra)));
  }

  lemma CrowdAtFirst(n: nat, extra: nat)
    requires n > 0
    ensures Count(Crowded(n, extra), CallsTo(Port(0))) > extra
  {
    SpreadOrigins(n);
    CrowdCount(n, extra);
    CountAtLeastOne(Spread(n), 0, CallsTo(Port(0)));
  }

  /** With the default settings some schedule takes an origin past its cap of sixteen. */
  lemma DeployedCapIsPassed()
    ensures DEPLOYED.Valid() && Init(DEPLOYED, Rush()) && !CapHolds(DEPLOYED, Rush())
  {
    hide Count, Crowded, CapHolds, Spread;
    CrowdedOrigins(1024, 16);
    CrowdAtFirst(1024, 16);
    CrowdedCalls(1024, 16);
    PerHostCapHoldsIff(DEPLOYED, Rush());
  }
}
