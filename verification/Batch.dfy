/**
  The concurrent availability batch: names run in chunks, tasks of a chunk finish in any
  order, and each writes its answer into the slot of its own name.
*/
module Batch {
  import opened Arith
  import opened Wrappers

  /** What one spawned task carries. */
  datatype Task = Task(idx: nat, name: string)

  /** Answer of the task for name `idx`; `None` if the task panics. */
  type Oracle<!R> = (nat, string) -> Option<R>

  function Limit(concurrency: Option<nat>): (limit: nat)
    ensures limit >= 1
    ensures concurrency.None? ==> limit == 10
    ensures concurrency.Some? && concurrency.value >= 1 ==> limit == concurrency.value
    ensures concurrency == Some(0) ==> limit == 1
  {
    Max(if concurrency.Some? then concurrency.value else 10, 1)
  }

  /** The indices whose task does not panic, in order. */
  function Surviving<R>(names: seq<string>, ask: Oracle<R>): (positions: seq<nat>)
    ensures forall k | 0 <= k < |positions| :: positions[k] < |names| && ask(positions[k], names[positions[k]]).Some?
  {
    if names == [] then []
    else
      var n := |names| - 1;
      Surviving(names[..n], ask) + (if ask(n, names[n]).Some? then [n] else [])
  }

  function Answers<R>(names: seq<string>, ask: Oracle<R>): seq<R> {
    var positions := Surviving(names, ask);
    seq(|positions|, k requires 0 <= k < |positions| => ask(positions[k], names[positions[k]]).value)
  }

  /** `output.into_iter().flatten()`. */
  function Flatten<R>(output: seq<Option<R>>): seq<R> {
    if output == [] then []
    else
      var n := |output| - 1;
      Flatten(output[..n]) + (if output[n].Some? then [output[n].value] else [])
  }

  /** The surviving indices are strictly increasing and are all the indices that survive. */
  lemma {:induction false} SurvivingInOrder<R>(names: seq<string>, ask: Oracle<R>)
    ensures forall k, m | 0 <= k < m < |Surviving(names, ask)| :: Surviving(names, ask)[k] < Surviving(names, ask)[m]
    ensures forall i: nat | i < |names| :: ask(i, names[i]).Some? <==> i in Surviving(names, ask)
  {
    if names != [] {
      var n := |names| - 1;
      SurvivingInOrder(names[..n], ask);
      var front := Surviving(names[..n], ask);
      assert forall k | 0 <= k < |front| :: front[k] < n;
      assert forall i: nat | i < n :: names[..n][i] == names[i];
    }
  }

  lemma {:induction false} FlattenedSlots<R>(output: seq<Option<R>>, names: seq<string>, ask: Oracle<R>)
    requires |output| == |names| && forall i: nat | i < |names| :: output[i] == ask(i, names[i])
    ensures Flatten(output) == Answers(names, ask)
  {
    if names != [] {
      var n := |names| - 1;
      FlattenedSlots(output[..n], names[..n], ask);
      var front := Surviving(names[..n], ask);
      forall k | 0 <= k < |front| ensures names[..n][front[k]] == names[front[k]] {}
    }
  }

  lemma {:induction false} PositionsGrow(positions: seq<nat>, k: nat)
    requires k < |positions| && forall i, j | 0 <= i < j < |positions| :: positions[i] < positions[j]
    ensures k <= positions[k]
  {
    if k > 0 { PositionsGrow(positions, k - 1); }
  }

  lemma {:induction false} PositionsGapless(positions: seq<nat>, k: nat)
    requires k < |positions| && forall i, j | 0 <= i < j < |positions| :: positions[i] < positions[j]
    requires forall i: nat | i <= k :: i in positions
    ensures positions[k] == k
  {
    PositionsGrow(positions, k);
    assert k in positions;
    var m :| 0 <= m < |positions| && positions[m] == k;
    if k > 0 { PositionsGapless(positions, k - 1); }
    assert m >= k;
  }

  lemma {:induction false} PositionsDense(positions: seq<nat>, k: nat)
    requires k < |positions| && forall i, j | 0 <= i < j < |positions| :: positions[i] < positions[j]
    requires positions[k] == k
    ensures forall i | 0 <= i <= k :: positions[i] == i
  {
    if k > 0 {
      PositionsGrow(positions, k - 1);
      PositionsDense(positions, k - 1);
    }
  }

  /** Entry `k` of the answers is that of name `k` exactly when no task up to `k` panicked. */
  lemma AnswerBelongsToName<R>(names: seq<string>, ask: Oracle<R>, k: nat)
    requires k < |Surviving(names, ask)|
    ensures k <= Surviving(names, ask)[k] && |Answers(names, ask)| == |Surviving(names, ask)|
    ensures var p := Surviving(names, ask)[k]; Some(Answers(names, ask)[k]) == ask(p, names[p])
    ensures Surviving(names, ask)[k] == k <==> forall i: nat | i <= k :: i < |names| && ask(i, names[i]).Some?
  {
    SurvivingInOrder(names, ask);
    PositionsGrow(Surviving(names, ask), k);
    var positions := Surviving(names, ask);
    if positions[k] == k {
      PositionsDense(positions, k);
      forall i: nat | i <= k ensures i < |names| && ask(i, names[i]).Some? { assert positions[i] == i; }
    } else if forall i: nat | i <= k :: i < |names| && ask(i, names[i]).Some? {
      assert forall i: nat | i <= k :: ask(i, names[i]).Some? && i in positions;
      PositionsGapless(positions, k);
    }
  }

  /** An oracle whose first task panics and whose others answer with their name. */
  function FirstPanics(idx: nat, name: string): Option<string> { if idx == 0 then None else Some(name) }

  /** Of two names the first one's task panics, and the only answer, at its place, is the second one's. */
  lemma PanicShiftsAnswers()
    ensures Answers(["a.example", "b.example"], FirstPanics) == ["b.example"]
  {
    var names := ["a.example", "b.example"];
    assert names[..1] == ["a.example"] && names[..1][..0] == [];
    assert Surviving(names[..1], FirstPanics) == [];
    assert Surviving(names, FirstPanics) == [1];
  }

  /** Without a panic there is one answer a name; with one, the list is shorter. */
  lemma {:induction false} OneAnswerPerNameIff<R>(names: seq<string>, ask: Oracle<R>)
    ensures |Answers(names, ask)| <= |names|
    ensures |Answers(names, ask)| == |names| <==> forall i: nat | i < |names| :: ask(i, names[i]).Some?
  {
    if names != [] {
      var n := |names| - 1;
      OneAnswerPerNameIff(names[..n], ask);
      assert forall i: nat | i < n :: names[..n][i] == names[i];
    }
  }

  /** The tasks of the chunk `names[base..end]`. */
  ghost function ChunkTasks(names: seq<string>, base: nat, end: nat): set<Task>
    requires base <= end <= |names|
  {
    set i | base <= i < end :: Task(i, names[i])
  }

  /** The slots below `end` that are not `pending` hold their answers; all others are empty. */
  ghost predicate Settled<R>(output: seq<Option<R>>, names: seq<string>, ask: Oracle<R>, end: nat, pending: set<nat>,
      writes: multiset<nat>) {
    && |output| == |names|
    && (forall i: nat | i >= |names| :: writes[i] == 0)
    && forall i: nat | i < |names| ::
         && output[i] == (if i < end && i !in pending then ask(i, names[i]) else None)
         && writes[i] == if output[i].Some? then 1 else 0
  }

  /** If no task panics every answer is that of the name at its own index. */
  lemma InOrderWithoutPanic<R>(names: seq<string>, ask: Oracle<R>)
    ensures (forall i: nat | i < |names| :: ask(i, names[i]).Some?) ==>
              && |Answers(names, ask)| == |names|
              && forall k: nat | k < |names| :: Some(Answers(names, ask)[k]) == ask(k, names[k])
  {
    OneAnswerPerNameIff(names, ask);
    if forall i: nat | i < |names| :: ask(i, names[i]).Some? {
      forall k: nat | k < |names| ensures Some(Answers(names, ask)[k]) == ask(k, names[k]) {
        AnswerBelongsToName(names, ask, k);
      }
    }
  }

  lemma AllSettled<R>(output: seq<Option<R>>, names: seq<string>, ask: Oracle<R>, writes: multiset<nat>)
    requires Settled(output, names, ask, |names|, {}, writes)
    ensures Flatten(output) == Answers(names, ask)
    ensures forall i: nat :: writes[i] == if i < |names| && ask(i, names[i]).Some? then 1 else 0
  {
    FlattenedSlots(output, names, ask);
  }

  method Spawn(names: seq<string>, base: nat, end: nat) returns (tasks: set<Task>)
    requires base <= end <= |names|
    ensures tasks == ChunkTasks(names, base, end) && |tasks| == end - base
  {
    tasks := {};
    for i := 0 to end - base
      invariant tasks == ChunkTasks(names, base, base + i) && |tasks| == i
    {
      tasks := tasks + {Task(base + i, names[base + i])};
    }
  }

  ghost function Indices(tasks: set<Task>): set<nat> { set t | t in tasks :: t.idx }

  /** Before any task of a chunk has finished. */
  lemma ChunkPending<R>(output: seq<Option<R>>, names: seq<string>, ask: Oracle<R>, base: nat, end: nat,
      writes: multiset<nat>)
    requires base <= end <= |names| && Settled(output, names, ask, base, {}, writes)
    ensures Settled(output, names, ask, end, Indices(ChunkTasks(names, base, end)), writes)
  {
    var tasks := ChunkTasks(names, base, end);
    assert forall i: nat | base <= i < end :: Task(i, names[i]) in tasks && Task(i, names[i]).idx in Indices(tasks);
  }

  /** One task finishes: its slot was empty and now holds its answer. */
  lemma TaskFinishes<R>(output: seq<Option<R>>, names: seq<string>, ask: Oracle<R>, base: nat, end: nat,
                        tasks: set<Task>, task: Task, writes: multiset<nat>)
    requires base <= end <= |names| && tasks <= ChunkTasks(names, base, end) && task in tasks
    requires Settled(output, names, ask, end, Indices(tasks), writes)
    ensures task.idx < |output| && output[task.idx].None?
    ensures var answer := ask(task.idx, task.name);
            Settled(output[task.idx := answer], names, ask, end, Indices(tasks - {task}),
                    if answer.Some? then writes + multiset{task.idx} else writes)
  {
    assert task.idx in Indices(tasks);
    forall i: nat | i < |names| ensures i in Indices(tasks - {task}) <==> i in Indices(tasks) && i != task.idx {
      if i in Indices(tasks) && i != task.idx {
        var t :| t in tasks && t.idx == i;
        assert t in tasks - {task};
      }
    }
  }

  method JoinAll<R>(output: array<Option<R>>, names: seq<string>, ask: Oracle<R>, ghost base: nat, ghost end: nat,
                    spawned: set<Task>, ghost before: multiset<nat>)
    returns (ghost writes: multiset<nat>)
    requires base <= end <= |names| && spawned == ChunkTasks(names, base, end)
    requires Settled(output[..], names, ask, base, {}, before)
    modifies output
    ensures Settled(output[..], names, ask, end, {}, writes)
  {
    var tasks := spawned;
    writes := before;
    ChunkPending(output[..], names, ask, base, end, writes);
    while tasks != {}
      invariant tasks <= spawned
      invariant Settled(output[..], names, ask, end, Indices(tasks), writes)
    {
      var task :| task in tasks;
      ghost var slots := output[..];
      TaskFinishes(slots, names, ask, base, end, tasks, task, writes);
      match ask(task.idx, task.name) {
        case Some(answer) =>
          output[task.idx] := Some(answer);
          writes := writes + multiset{task.idx};
        case None =>
      }
      assert output[..] == slots[task.idx := ask(task.idx, task.name)];
      tasks := tasks - {task};
    }
    assert Indices({}) == {};
  }

  /**
    Whatever order the tasks of a chunk finish in, the answers are those of the surviving
    names in the order of the list; no slot is written twice, and no more than the limit
    of tasks are outstanding.
  */
  method DomainAvailableBatch<R>(names: seq<string>, concurrency: Option<nat>, ask: Oracle<R>)
    returns (answers: seq<R>, ghost writes: multiset<nat>, ghost peak: nat)
    ensures answers == Answers(names, ask) && |answers| == |Surviving(names, ask)|
    ensures forall k | 0 <= k < |answers| ::
              var p := Surviving(names, ask)[k]; Some(answers[k]) == ask(p, names[p])
    ensures (forall i: nat | i < |names| :: ask(i, names[i]).Some?) ==>
              |answers| == |names| && forall k: nat | k < |answers| :: Some(answers[k]) == ask(k, names[k])
    ensures forall i: nat :: writes[i] == if i < |names| && ask(i, names[i]).Some? then 1 else 0
    ensures peak <= Limit(concurrency)
  {
    var limit := Limit(concurrency);
    var output := new Option<R>[|names|](_ => None);
    writes, peak := multiset{}, 0;
    var base := 0;
    while base < |names|
      invariant Settled(output[..], names, ask, Min(base, |names|), {}, writes)
      invariant peak <= limit
      decreases |names| - base
    {
      var end := Min(base + limit, |names|);
      var tasks := Spawn(names, base, end);
      peak := Max(peak, |tasks|);
      writes := JoinAll(output, names, ask, base, end, tasks, writes);
      base := base + limit;
    }
    AllSettled(output[..], names, ask, writes);
    InOrderWithoutPanic(names, ask);
    return Flatten(output[..]), writes, peak;
  }
}
