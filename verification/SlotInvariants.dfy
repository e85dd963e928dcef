/** Refresh slots, guards and notifies: what every step of the shared cache keeps. */
module SlotInvariants {
  import opened Wrappers
  import opened SingleFlight

  /** A slot belongs to the live guard of one task, and so does an un-notified notify. */
  predicate SlotsOwned(s: State) {
    && |s.owners| == |s.wakeups|
    && (forall k | k in s.inFlight ::
          && s.inFlight[k] < |s.owners|
          && var o := s.owners[s.inFlight[k]];
             o < |s.tasks| && s.tasks[o].Key() == k && s.tasks[o].guard == Some(s.inFlight[k])
                 && s.tasks[o].HoldsSlot())
    && (forall n | 0 <= n < |s.wakeups| ::
          && s.wakeups[n] <= 1
          && (s.wakeups[n] == 0 ==> s.owners[n] < |s.tasks| && s.tasks[s.owners[n]].guard == Some(n)))
  }

  /** Where a task may hold a guard or know a notify. */
  predicate TaskSlotOk(s: State, i: nat, task: Task) {
    && (task.guard.Some? ==>
          && (task.pc.SpawnRefresh? || task.pc.Leading() || task.pc.Dropping())
          && task.guard.value < |s.owners| && task.guard.value < |s.wakeups|
          && s.owners[task.guard.value] == i && s.wakeups[task.guard.value] == 0)
    && (task.HoldsSlot() ==> task.Key() in s.inFlight && s.inFlight[task.Key()] == task.guard.value)
    && (task.pc.SpawnRefresh? || task.pc.Dropping() ==> task.guard.Some?)
    && (task.pc.Register? ==> task.pc.notify < |s.wakeups|)
    && (task.pc.Blocked? ==> task.pc.notify < |s.wakeups| && task.pc.ticket <= s.wakeups[task.pc.notify])
  }

  predicate TasksSlotOk(s: State) {
    forall i | 0 <= i < |s.tasks| :: TaskSlotOk(s, i, s.tasks[i])
  }

  predicate SlotInv(s: State) { SlotsOwned(s) && TasksSlotOk(s) }

  /** The step left slots and guards alone, and its own task is still in order. */
  predicate Quiet(s: State, t: State, i: nat)
    requires i < |s.tasks|
  {
    && t.inFlight == s.inFlight && t.owners == s.owners && t.wakeups == s.wakeups
    && |t.tasks| == |s.tasks| && t.tasks == s.tasks[i := t.tasks[i]]
    && t.tasks[i].query == s.tasks[i].query && t.tasks[i].guard == s.tasks[i].guard
    && t.tasks[i].HoldsSlot() == s.tasks[i].HoldsSlot()
    && TaskSlotOk(t, i, t.tasks[i])
  }

  lemma QuietKeepsSlots(s: State, t: State, i: nat)
    requires i < |s.tasks| && SlotInv(s) && Quiet(s, t, i)
    ensures SlotInv(t)
  {
    forall j | 0 <= j < |t.tasks| ensures TaskSlotOk(t, j, t.tasks[j]) {
      assert TaskSlotOk(s, j, s.tasks[j]);
    }
  }

  lemma ReadingIsQuiet(s: State, i: nat)
    requires i < |s.tasks| && s.tasks[i].pc.Reading() && TaskSlotOk(s, i, s.tasks[i])
    ensures Quiet(s, NextReading(s, i), i)
  {
  }

  lemma AwaitingIsQuiet(s: State, i: nat, choice: Choice)
    requires i < |s.tasks| && s.tasks[i].pc.Awaiting() && CanAdvance(s, i, choice)
    requires SlotsOwned(s) && TaskSlotOk(s, i, s.tasks[i])
    ensures Quiet(s, NextAwaiting(s, i, choice), i)
  {
  }

  lemma StoringIsQuiet(s: State, i: nat, choice: Choice)
    requires i < |s.tasks| && s.tasks[i].pc.Storing? && CanAdvance(s, i, choice) && TaskSlotOk(s, i, s.tasks[i])
    ensures Quiet(s, NextLeading(s, i, choice), i)
  {
    hide EntryFor;
  }

  lemma LeadingIsQuiet(s: State, i: nat, choice: Choice)
    requires i < |s.tasks| && s.tasks[i].pc.Leading() && CanAdvance(s, i, choice) && TaskSlotOk(s, i, s.tasks[i])
    ensures Quiet(s, NextLeading(s, i, choice), i)
  {
    if s.tasks[i].pc.Storing? { StoringIsQuiet(s, i, choice); }
  }

  lemma DenialIsQuiet(s: State, i: nat, choice: Choice)
    requires i < |s.tasks| && CanAdvance(s, i, choice) && TaskSlotOk(s, i, s.tasks[i])
    requires s.tasks[i].pc.CheckLength? || (s.tasks[i].pc.ClaimEntry? && s.tasks[i].Key() in s.inFlight)
    ensures Quiet(s, NextClaiming(s, i, choice), i)
  {
  }

  lemma CancelIsQuiet(s: State, i: nat)
    requires i < |s.tasks| && s.tasks[i].pc.Cancellable() && TaskSlotOk(s, i, s.tasks[i])
    ensures Quiet(s, Next(s, Cancel(i)), i)
  {
  }

  /** The step gave task `i` a new notify and the free slot of its key. */
  predicate Grants(s: State, t: State, i: nat)
    requires i < |s.tasks|
  {
    var n, key := |s.owners|, s.tasks[i].Key();
    && key !in s.inFlight && s.tasks[i].guard == None
    && t.inFlight == s.inFlight[key := n] && t.owners == s.owners + [i] && t.wakeups == s.wakeups + [0]
    && |t.tasks| == |s.tasks| && t.tasks == s.tasks[i := t.tasks[i]]
    && t.tasks[i].query == s.tasks[i].query && t.tasks[i].guard == Some(n)
    && (t.tasks[i].pc.SpawnRefresh? || t.tasks[i].pc.RateLimit?)
  }

  lemma ClaimGrants(s: State, i: nat, choice: Choice)
    requires i < |s.tasks| && CanAdvance(s, i, choice) && TaskSlotOk(s, i, s.tasks[i])
    requires s.tasks[i].pc.ClaimEntry? && s.tasks[i].Key() !in s.inFlight
    ensures Grants(s, NextClaiming(s, i, choice), i)
  {
  }

  lemma GrantKeepsSlotOwner(s: State, t: State, i: nat, k: string)
    requires i < |s.tasks| && SlotsOwned(s) && Grants(s, t, i) && k in t.inFlight
    ensures t.inFlight[k] < |t.owners|
    ensures var o := t.owners[t.inFlight[k]];
            o < |t.tasks| && t.tasks[o].Key() == k && t.tasks[o].guard == Some(t.inFlight[k]) && t.tasks[o].HoldsSlot()
  {
    if k in s.inFlight {
      assert t.owners[s.inFlight[k]] == s.owners[s.inFlight[k]] != i;
    }
  }

  lemma GrantKeepsNotifyOwner(s: State, t: State, i: nat, m: nat)
    requires i < |s.tasks| && SlotsOwned(s) && Grants(s, t, i) && m < |t.wakeups|
    ensures t.wakeups[m] <= 1
    ensures t.wakeups[m] == 0 ==> t.owners[m] < |t.tasks| && t.tasks[t.owners[m]].guard == Some(m)
  {
    if m < |s.owners| {
      assert t.wakeups[m] == s.wakeups[m] && t.owners[m] == s.owners[m];
    }
  }

  lemma GrantKeepsOwners(s: State, t: State, i: nat)
    requires i < |s.tasks| && SlotsOwned(s) && Grants(s, t, i)
    ensures SlotsOwned(t)
  {
    forall k | k in t.inFlight
      ensures t.inFlight[k] < |t.owners|
      ensures var o := t.owners[t.inFlight[k]];
              o < |t.tasks| && t.tasks[o].Key() == k && t.tasks[o].guard == Some(t.inFlight[k])
                  && t.tasks[o].HoldsSlot()
    {
      GrantKeepsSlotOwner(s, t, i, k);
    }
    forall m | 0 <= m < |t.wakeups|
      ensures t.wakeups[m] <= 1
      ensures t.wakeups[m] == 0 ==> t.owners[m] < |t.tasks| && t.tasks[t.owners[m]].guard == Some(m)
    {
      GrantKeepsNotifyOwner(s, t, i, m);
    }
  }

  lemma GrantKeepsTasks(s: State, t: State, i: nat)
    requires i < |s.tasks| && SlotInv(s) && Grants(s, t, i)
    ensures TasksSlotOk(t)
  {
    forall j | 0 <= j < |t.tasks| ensures TaskSlotOk(t, j, t.tasks[j]) {
      assert TaskSlotOk(s, j, s.tasks[j]);
    }
  }

  lemma SpawnKeepsOwners(s: State, i: nat, choice: Choice)
    requires i < |s.tasks| && CanAdvance(s, i, choice) && SlotInv(s) && s.tasks[i].pc.SpawnRefresh?
    ensures SlotsOwned(NextClaiming(s, i, choice))
  {
    assert TaskSlotOk(s, i, s.tasks[i]);
  }

  lemma SpawnKeepsTask(s: State, i: nat, choice: Choice, j: nat)
    requires i < |s.tasks| && CanAdvance(s, i, choice) && TasksSlotOk(s) && s.tasks[i].pc.SpawnRefresh?
    requires j < |NextClaiming(s, i, choice).tasks|
    ensures TaskSlotOk(NextClaiming(s, i, choice), j, NextClaiming(s, i, choice).tasks[j])
  {
    assert TaskSlotOk(s, i, s.tasks[i]);
    if j < |s.tasks| { assert TaskSlotOk(s, j, s.tasks[j]); }
  }

  lemma SpawnKeepsSlots(s: State, i: nat, choice: Choice)
    requires i < |s.tasks| && CanAdvance(s, i, choice) && SlotInv(s) && s.tasks[i].pc.SpawnRefresh?
    ensures SlotInv(NextClaiming(s, i, choice))
  {
    SpawnKeepsOwners(s, i, choice);
    var t := NextClaiming(s, i, choice);
    forall j | 0 <= j < |t.tasks| ensures TaskSlotOk(t, j, t.tasks[j]) { SpawnKeepsTask(s, i, choice, j); }
  }

  lemma RemoveKeepsOwners(s: State, i: nat, choice: Choice)
    requires i < |s.tasks| && CanAdvance(s, i, choice) && SlotInv(s) && s.tasks[i].pc.RemoveSlot?
    ensures SlotsOwned(NextDropping(s, i, choice))
    ensures s.tasks[i].Key() in s.inFlight && Some(s.inFlight[s.tasks[i].Key()]) == s.tasks[i].guard
  {
    assert TaskSlotOk(s, i, s.tasks[i]);
  }

  lemma RemoveKeepsSlots(s: State, i: nat, choice: Choice)
    requires i < |s.tasks| && CanAdvance(s, i, choice) && SlotInv(s) && s.tasks[i].pc.RemoveSlot?
    ensures SlotInv(NextDropping(s, i, choice))
    ensures s.tasks[i].Key() in s.inFlight && Some(s.inFlight[s.tasks[i].Key()]) == s.tasks[i].guard
  {
    hide SlotsOwned;
    RemoveKeepsOwners(s, i, choice);
    assert TaskSlotOk(s, i, s.tasks[i]);
    var t := NextDropping(s, i, choice);
    forall j | 0 <= j < |t.tasks| ensures TaskSlotOk(t, j, t.tasks[j]) {
      assert TaskSlotOk(s, j, s.tasks[j]);
    }
  }

  lemma NotifyKeepsOwners(s: State, i: nat, choice: Choice)
    requires i < |s.tasks| && CanAdvance(s, i, choice) && SlotInv(s) && s.tasks[i].pc.NotifyWaiters?
    ensures SlotsOwned(NextDropping(s, i, choice))
  {
    assert TaskSlotOk(s, i, s.tasks[i]);
  }

  lemma NotifyKeepsSlots(s: State, i: nat, choice: Choice)
    requires i < |s.tasks| && CanAdvance(s, i, choice) && SlotInv(s) && s.tasks[i].pc.NotifyWaiters?
    ensures SlotInv(NextDropping(s, i, choice))
  {
    NotifyKeepsOwners(s, i, choice);
    hide SlotsOwned;
    assert TaskSlotOk(s, i, s.tasks[i]);
    var t := NextDropping(s, i, choice);
    forall j | 0 <= j < |t.tasks| ensures TaskSlotOk(t, j, t.tasks[j]) {
      assert TaskSlotOk(s, j, s.tasks[j]);
    }
  }

  // ── Wake-ups ──────────────────────────────────────────────────────────────────

  /** Wake-up counts stay, a new one is added, or the task's own notify is notified. */
  predicate WakeupsFollow(s: State, u: State, task: Task) {
    || u.wakeups == s.wakeups
    || u.wakeups == s.wakeups + [0]
    || (task.pc.NotifyWaiters? && task.guard.Some? && task.guard.value < |s.wakeups|
        && u.wakeups == s.wakeups[task.guard.value := s.wakeups[task.guard.value] + 1])
  }

  lemma ClaimingWakeups(s: State, i: nat, choice: Choice)
    requires i < |s.tasks| && CanAdvance(s, i, choice)
    ensures WakeupsFollow(s, NextClaiming(s, i, choice), s.tasks[i])
  {
  }

  lemma LeadingWakeups(s: State, i: nat, choice: Choice)
    requires i < |s.tasks| && CanAdvance(s, i, choice)
    ensures WakeupsFollow(s, NextLeading(s, i, choice), s.tasks[i])
  {
  }

  lemma DroppingWakeups(s: State, i: nat, choice: Choice)
    requires i < |s.tasks| && CanAdvance(s, i, choice)
    ensures WakeupsFollow(s, NextDropping(s, i, choice), s.tasks[i])
  {
  }

  lemma WakeupsStep(s: State, a: Action)
    requires Enabled(s, a)
    ensures if a.Advance? then WakeupsFollow(s, Next(s, a), s.tasks[a.task]) else Next(s, a).wakeups == s.wakeups
  {
    if a.Advance? {
      var pc := s.tasks[a.task].pc;
      if pc.Claiming() { ClaimingWakeups(s, a.task, a.choice); }
      else if pc.Leading() { LeadingWakeups(s, a.task, a.choice); }
      else if pc.Dropping() { DroppingWakeups(s, a.task, a.choice); }
    }
  }

  lemma EnvironmentKeepsSlots(s: State, a: Action)
    requires (a.Tick? || a.Evict?) && Enabled(s, a) && SlotInv(s)
    ensures SlotInv(Next(s, a))
  {
    forall j | 0 <= j < |s.tasks| ensures TaskSlotOk(Next(s, a), j, s.tasks[j]) {
      assert TaskSlotOk(s, j, s.tasks[j]);
    }
  }

  lemma AdvanceKeepsSlots(s: State, i: nat, choice: Choice)
    requires Enabled(s, Advance(i, choice)) && SlotInv(s)
    ensures SlotInv(Next(s, Advance(i, choice)))
  {
    var t := Next(s, Advance(i, choice));
    var task := s.tasks[i];
    if task.pc.Reading() {
      ReadingIsQuiet(s, i);
      QuietKeepsSlots(s, t, i);
    } else if task.pc.Awaiting() {
      AwaitingIsQuiet(s, i, choice);
      QuietKeepsSlots(s, t, i);
    } else if task.pc.Leading() {
      LeadingIsQuiet(s, i, choice);
      QuietKeepsSlots(s, t, i);
    } else if task.pc.RemoveSlot? {
      RemoveKeepsSlots(s, i, choice);
    } else if task.pc.NotifyWaiters? {
      NotifyKeepsSlots(s, i, choice);
    } else if task.pc.SpawnRefresh? {
      SpawnKeepsSlots(s, i, choice);
    } else if task.pc.ClaimEntry? && task.Key() !in s.inFlight {
      ClaimGrants(s, i, choice);
      GrantKeepsOwners(s, t, i);
      GrantKeepsTasks(s, t, i);
    } else {
      DenialIsQuiet(s, i, choice);
      QuietKeepsSlots(s, t, i);
    }
  }

  lemma SlotStep(s: State, a: Action)
    requires Enabled(s, a) && SlotInv(s)
    ensures SlotInv(Next(s, a))
  {
    match a
    case Tick(_) => EnvironmentKeepsSlots(s, a);
    case Evict(_) => EnvironmentKeepsSlots(s, a);
    case Cancel(i) =>
      CancelIsQuiet(s, i);
      QuietKeepsSlots(s, Next(s, a), i);
    case Advance(i, choice) =>
      AdvanceKeepsSlots(s, i, choice);
  }
}
