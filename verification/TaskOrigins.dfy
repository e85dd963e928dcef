/** What put a task where it is: why it looks again, why it fetches, and why it was turned away. */
module TaskOrigins {
  import opened SingleFlight
  import opened LostWakeup
  import opened Revalidation

  /** In this step task `i` goes on by itself. */
  predicate Moves(s: State, a: Action, i: nat) { a.Advance? && a.task == i && i < |s.tasks| }

  /**
    The last step that brought task `i` to a point of kind `p`, neither the start of a query nor
    that of a spawned refresh: the task's own step, or its drop.
  */
  lemma {:induction false} FindEntry(states: seq<State>, acts: seq<Action>, k: nat, i: nat, p: Pc -> bool)
    returns (e: nat)
    requires Run(states, acts) && Init(states[0]) && k <= |acts| && !p(Lookup(false)) && !p(RateLimit)
    requires i < |states[k].tasks| && p(states[k].tasks[i].pc)
    ensures e < k && i < |states[e].tasks| && !p(states[e].tasks[i].pc)
    ensures i < |states[e + 1].tasks| && p(states[e + 1].tasks[i].pc)
    ensures Moves(states[e], acts[e], i) || acts[e] == Cancel(i)
  {
    e := k - 1;
    if !Moves(states[e], acts[e], i) && acts[e] != Cancel(i) { OthersUnmoved(states[e], acts[e], i); }
    if i < |states[e].tasks| && p(states[e].tasks[i].pc) { e := FindEntry(states, acts, e, i, p); }
  }

  predicate Ended(pc: Pc, answer: Answer) { (pc.Dropping() || pc.Returned?) && pc.answer == answer }

  predicate EndsWith(s: State, task: Task, choice: Choice, answer: Answer) {
    match answer
    case RateLimited => task.pc.RateLimit? && !choice.permitted
    case Refreshed => task.background && (task.pc.Storing? || (task.pc.RateLimit? && !choice.permitted))
    case Upstream(outcome, f) =>
      !task.background && task.pc == Storing(f) && f < |s.fetches| && s.fetches[f].outcome == outcome
    case Dropped => false
    case _ => true
  }

  /** What the task's own step has to have been to lead to `pc`. */
  predicate LeadsTo(s: State, task: Task, choice: Choice, pc: Pc) {
    match pc
    case Lookup(_) =>
      || (task.pc.CloneNotify? && task.Key() !in s.inFlight)
      || (task.pc.Blocked? && task.pc.notify < |s.wakeups| && s.wakeups[task.pc.notify] > task.pc.ticket)
    case Fetching => task.pc.RateLimit? && choice.permitted
    case Storing(f) => task.pc.Fetching? && f == |s.fetches|
    case RemoveSlot(answer) => EndsWith(s, task, choice, answer)
    case NotifyWaiters(answer) => task.pc.RemoveSlot? && task.pc.answer == answer
    case Returned(answer) =>
      || EndsWith(s, task, choice, answer)
      || (task.pc.NotifyWaiters? && task.pc.answer == answer)
    case _ => true
  }

  lemma ReadingOrigins(s: State, i: nat, choice: Choice)
    requires Enabled(s, Advance(i, choice)) && s.tasks[i].pc.Reading()
    ensures i < |NextReading(s, i).tasks|
    ensures LeadsTo(s, s.tasks[i], choice, NextReading(s, i).tasks[i].pc)
  {
  }

  lemma ClaimingOrigins(s: State, i: nat, choice: Choice)
    requires Enabled(s, Advance(i, choice)) && s.tasks[i].pc.Claiming()
    ensures i < |NextClaiming(s, i, choice).tasks|
    ensures LeadsTo(s, s.tasks[i], choice, NextClaiming(s, i, choice).tasks[i].pc)
  {
  }

  lemma AwaitingOrigins(s: State, i: nat, choice: Choice)
    requires Enabled(s, Advance(i, choice)) && s.tasks[i].pc.Awaiting()
    ensures i < |NextAwaiting(s, i, choice).tasks|
    ensures LeadsTo(s, s.tasks[i], choice, NextAwaiting(s, i, choice).tasks[i].pc)
  {
  }

  lemma LeadingOrigins(s: State, i: nat, choice: Choice)
    requires Enabled(s, Advance(i, choice)) && s.tasks[i].pc.Leading()
    ensures i < |NextLeading(s, i, choice).tasks|
    ensures LeadsTo(s, s.tasks[i], choice, NextLeading(s, i, choice).tasks[i].pc)
  {
    hide EntryFor;
  }

  lemma DroppingOrigins(s: State, i: nat, choice: Choice)
    requires Enabled(s, Advance(i, choice)) && s.tasks[i].pc.Dropping()
    ensures i < |NextDropping(s, i, choice).tasks|
    ensures LeadsTo(s, s.tasks[i], choice, NextDropping(s, i, choice).tasks[i].pc)
  {
  }

  lemma StepOrigin(s: State, i: nat, choice: Choice)
    requires Enabled(s, Advance(i, choice))
    ensures i < |Next(s, Advance(i, choice)).tasks|
    ensures LeadsTo(s, s.tasks[i], choice, Next(s, Advance(i, choice)).tasks[i].pc)
  {
    hide NextReading, NextClaiming, NextAwaiting, NextLeading, NextDropping, LeadsTo;
    var pc := s.tasks[i].pc;
    if pc.Reading() { ReadingOrigins(s, i, choice); }
    else if pc.Claiming() { ClaimingOrigins(s, i, choice); }
    else if pc.Awaiting() { AwaitingOrigins(s, i, choice); }
    else if pc.Leading() { LeadingOrigins(s, i, choice); }
    else { DroppingOrigins(s, i, choice); }
  }

  lemma CancelOrigin(s: State, i: nat)
    requires Enabled(s, Cancel(i))
    ensures i < |Next(s, Cancel(i)).tasks| && Ended(Next(s, Cancel(i)).tasks[i].pc, Dropped)
  {
  }

  /** The step `FindEntry` gives, with what it has to have been. */
  lemma FindOrigin(states: seq<State>, acts: seq<Action>, k: nat, i: nat, p: Pc -> bool) returns (e: nat)
    requires Run(states, acts) && Init(states[0]) && k <= |acts| && !p(Lookup(false)) && !p(RateLimit)
    requires i < |states[k].tasks| && p(states[k].tasks[i].pc)
    ensures e < k && i < |states[e + 1].tasks| && p(states[e + 1].tasks[i].pc)
    ensures if Moves(states[e], acts[e], i)
            then LeadsTo(states[e], states[e].tasks[i], acts[e].choice, states[e + 1].tasks[i].pc)
            else Ended(states[e + 1].tasks[i].pc, Dropped)
    ensures i < |states[e].tasks| && !p(states[e].tasks[i].pc)
  {
    hide Next, LeadsTo, Ended;
    e := FindEntry(states, acts, k, i, p);
    if Moves(states[e], acts[e], i) { StepOrigin(states[e], i, acts[e].choice); } else { CancelOrigin(states[e], i); }
  }

  /** A follower looks again only when it found the slot already gone, or was woken after it registered. */
  lemma SecondLookHasCause(states: seq<State>, acts: seq<Action>, k: nat, i: nat) returns (e: nat)
    requires Run(states, acts) && Init(states[0]) && k <= |acts|
    requires i < |states[k].tasks| && states[k].tasks[i].pc == Lookup(true)
    ensures e < k && Moves(states[e], acts[e], i)
    ensures var s, task := states[e], states[e].tasks[i];
            || (task.pc.CloneNotify? && task.Key() !in s.inFlight)
            || (task.pc.Blocked? && task.pc.notify < |s.wakeups| && s.wakeups[task.pc.notify] > task.pc.ticket)
  {
    hide Next;
    e := FindOrigin(states, acts, k, i, pc => pc == Lookup(true));
  }

  /** Nobody is at the network without a permit of the rate limiter, taken in its own step before. */
  lemma FetchesArePermitted(states: seq<State>, acts: seq<Action>, k: nat, i: nat) returns (e: nat)
    requires Run(states, acts) && Init(states[0]) && k <= |acts|
    requires i < |states[k].tasks| && states[k].tasks[i].pc == Fetching
    ensures e < k && Moves(states[e], acts[e], i)
    ensures states[e].tasks[i].pc == RateLimit && acts[e].choice.permitted
  {
    hide Next;
    e := FindOrigin(states, acts, k, i, pc => pc == Fetching);
  }

  /** A query is turned away only by the limiter, and a refresh ends unstored only if the limiter refused it. */
  lemma TurnedAwayByLimiter(states: seq<State>, acts: seq<Action>, k: nat, i: nat, answer: Answer) returns (e: nat)
    requires Run(states, acts) && Init(states[0]) && k <= |acts| && (answer == RateLimited || answer == Refreshed)
    requires i < |states[k].tasks| && Ended(states[k].tasks[i].pc, answer)
    ensures e < k && Moves(states[e], acts[e], i)
    ensures || (states[e].tasks[i].pc == RateLimit && !acts[e].choice.permitted)
            || (answer == Refreshed && states[e].tasks[i].pc.Storing?)
  {
    hide Next;
    e := FindOrigin(states, acts, k, i, pc => Ended(pc, answer));
  }

  lemma FindOwnFetch(states: seq<State>, acts: seq<Action>, k: nat, i: nat, f: nat) returns (e: nat)
    requires Run(states, acts) && Init(states[0]) && k <= |acts|
    requires i < |states[k].tasks| && states[k].tasks[i].pc == Storing(f)
    ensures e < k && Moves(states[e], acts[e], i) && states[e].tasks[i].pc == Fetching && f == |states[e].fetches|
    ensures f < |states[k].fetches| && states[k].fetches[f].outcome == acts[e].choice.outcome
  {
    hide Next;
    e := FindOrigin(states, acts, k, i, pc => pc == Storing(f));
    FetchIsLogged(states[e], acts[e], i);
    HistoryGrowsAlong(states, acts, e + 1, k);
  }

  /** A query is answered with the outcome of the one fetch it made itself. */
  lemma UpstreamIsOwnFetch(states: seq<State>, acts: seq<Action>, k: nat, i: nat) returns (e: nat)
    requires Run(states, acts) && Init(states[0]) && k <= |acts| && i < |states[k].tasks|
    requires states[k].tasks[i].pc.Returned? && states[k].tasks[i].pc.answer.Upstream?
    ensures e < k && Moves(states[e], acts[e], i) && states[e].tasks[i].pc == Fetching
    ensures states[k].tasks[i].pc.answer == Upstream(acts[e].choice.outcome, |states[e].fetches|)
  {
    var answer := states[k].tasks[i].pc.answer;
    hide Next, CanAdvance, Enabled;
    var m := FindOrigin(states, acts, k, i, pc => Ended(pc, answer));
    e := FindOwnFetch(states, acts, m, i, answer.fetch);
  }
}
