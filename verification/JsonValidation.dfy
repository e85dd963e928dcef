/**
  Response validation: the iterative structural walk with its explicit stack, the
  RDAP field limits, and the pipeline that runs both.
*/
module JsonValidation {
  import opened Arith
  import opened Wrappers

  /** A parsed document. An object's names and values are parallel; string length is in bytes. */
  datatype Json =
    | Null
    | Bool(truth: bool)
    | Number(text: string)
    | String(utf8: seq<bv8>)
    | Array(items: seq<Json>)
    | Object(names: seq<string>, values: seq<Json>)

  datatype ValidationError =
    | JsonTooLarge
    | TooManyArrayItems
    | TooManyObjectFields
    | StringTooLong
    | RecursionTooDeep
    | TooManyEntities
    | TooManyLinks
    | TooManyEvents
    | InvalidStructure

  datatype Limits = Limits(
    maxJsonSize: nat,
    maxArrayLength: nat,
    maxObjectFields: nat,
    maxStringLength: nat,
    maxRecursionDepth: nat,
    maxEntities: nat,
    maxLinks: nat,
    maxEvents: nat)

  function Children(node: Json): (nodes: seq<Json>)
    ensures forall i | 0 <= i < |nodes| :: nodes[i] < node
  {
    match node
    case Array(items) => items
    case Object(_, values) => values
    case _ => []
  }

  // ── What the limits mean ──────────────────────────────────────────────────────

  /** The node reached from `root` by successive child indices. */
  function NodeAt(root: Json, path: seq<nat>): Option<Json>
    decreases |path|
  {
    if path == [] then Some(root)
    else if path[0] < |Children(root)| then NodeAt(Children(root)[path[0]], path[1..])
    else None
  }

  predicate SizeOk(node: Json, limits: Limits) {
    && (node.Array? ==> |node.items| <= limits.maxArrayLength)
    && (node.Object? ==> |node.values| <= limits.maxObjectFields)
    && (node.String? ==> |node.utf8| <= limits.maxStringLength)
  }

  /** Every node of the document is within its size limit and no deeper than the depth limit. */
  ghost predicate WithinLimits(root: Json, depth: nat, limits: Limits) {
    forall path: seq<nat> | NodeAt(root, path).Some? ::
      SizeOk(NodeAt(root, path).value, limits) && (path == [] || depth + |path| <= limits.maxRecursionDepth)
  }

  /** `node`, at `depth`, breaks the limit that `error` reports. */
  predicate Breaks(node: Json, depth: nat, limits: Limits, error: ValidationError) {
    match error
    case TooManyArrayItems => node.Array? && |node.items| > limits.maxArrayLength
    case TooManyObjectFields => node.Object? && |node.values| > limits.maxObjectFields
    case StringTooLong => node.String? && |node.utf8| > limits.maxStringLength
    case RecursionTooDeep => Children(node) != [] && depth + 1 > limits.maxRecursionDepth
    case _ => false
  }

  // ── The recursive definition ──────────────────────────────────────────────────

  function OwnError(node: Json, depth: nat, limits: Limits): Option<ValidationError> {
    match node
    case Array(items) =>
      if |items| > limits.maxArrayLength then Some(TooManyArrayItems)
      else if items != [] && depth + 1 > limits.maxRecursionDepth then Some(RecursionTooDeep)
      else None
    case Object(_, values) =>
      if |values| > limits.maxObjectFields then Some(TooManyObjectFields)
      else if values != [] && depth + 1 > limits.maxRecursionDepth then Some(RecursionTooDeep)
      else None
    case String(utf8) => if |utf8| > limits.maxStringLength then Some(StringTooLong) else None
    case _ => None
  }

  /** First error in the order of the walk: a node before its children, children from last to first. */
  function FirstError(node: Json, depth: nat, limits: Limits): Option<ValidationError>
    decreases node, 1
  {
    var own := OwnError(node, depth, limits);
    if own.Some? then own
    else match node
      case Array(items) => FirstErrorIn(items, depth + 1, limits)
      case Object(_, values) => FirstErrorIn(values, depth + 1, limits)
      case _ => None
  }

  function FirstErrorIn(nodes: seq<Json>, depth: nat, limits: Limits): Option<ValidationError>
    decreases nodes, 0
  {
    if nodes == [] then None
    else
      var last := FirstError(nodes[|nodes| - 1], depth, limits);
      if last.Some? then last else FirstErrorIn(nodes[..|nodes| - 1], depth, limits)
  }

  function NodeCount(node: Json): nat
    decreases node, 1
  {
    match node
    case Array(items) => 1 + NodeCountIn(items)
    case Object(_, values) => 1 + NodeCountIn(values)
    case _ => 1
  }

  function NodeCountIn(nodes: seq<Json>): nat
    decreases nodes, 0
  {
    if nodes == [] then 0 else NodeCountIn(nodes[..|nodes| - 1]) + NodeCount(nodes[|nodes| - 1])
  }

  /** A node without an error of its own is within limits exactly when its children are, one level down. */
  lemma WithinLimitsByChildren(node: Json, depth: nat, limits: Limits)
    requires OwnError(node, depth, limits).None?
    ensures WithinLimits(node, depth, limits)
       <==> forall i | 0 <= i < |Children(node)| :: WithinLimits(Children(node)[i], depth + 1, limits)
  {
    var children := Children(node);
    if WithinLimits(node, depth, limits) {
      forall i, path: seq<nat> | 0 <= i < |children| && NodeAt(children[i], path).Some?
        ensures SizeOk(NodeAt(children[i], path).value, limits)
        ensures path == [] || depth + 1 + |path| <= limits.maxRecursionDepth
      {
        assert ([i] + path)[1..] == path;
        assert NodeAt(node, [i] + path) == NodeAt(children[i], path);
      }
    }
    if forall i | 0 <= i < |children| :: WithinLimits(children[i], depth + 1, limits) {
      forall path: seq<nat> | NodeAt(node, path).Some?
        ensures SizeOk(NodeAt(node, path).value, limits) && (path == [] || depth + |path| <= limits.maxRecursionDepth)
      {
        if path != [] { assert NodeAt(node, path) == NodeAt(children[path[0]], path[1..]); }
      }
    }
  }

  /** The recursive definition accepts exactly the documents within limits. */
  lemma {:induction false} NoErrorIffWithinLimits(node: Json, depth: nat, limits: Limits)
    ensures FirstError(node, depth, limits).None? <==> WithinLimits(node, depth, limits)
    decreases node, 1
  {
    var children := Children(node);
    NoErrorInIffAllWithin(node, children, depth + 1, limits);
    if OwnError(node, depth, limits).Some? {
      assert NodeAt(node, []) == Some(node);
      if SizeOk(node, limits) {
        assert NodeAt(children[0], []) == Some(children[0]);
        var first: seq<nat> := [0];
        assert first[1..] == [];
        assert NodeAt(node, first).Some?;
      }
    } else {
      assert FirstError(node, depth, limits) == FirstErrorIn(children, depth + 1, limits);
      WithinLimitsByChildren(node, depth, limits);
    }
  }

  lemma {:induction false} NoErrorInIffAllWithin(parent: Json, nodes: seq<Json>, depth: nat, limits: Limits)
    requires forall i | 0 <= i < |nodes| :: nodes[i] < parent
    ensures FirstErrorIn(nodes, depth, limits).None?
        <==> forall i | 0 <= i < |nodes| :: WithinLimits(nodes[i], depth, limits)
    decreases parent, 0, |nodes|
  {
    if nodes != [] {
      var n := |nodes| - 1;
      NoErrorIffWithinLimits(nodes[n], depth, limits);
      NoErrorInIffAllWithin(parent, nodes[..n], depth, limits);
      forall i | 0 <= i < n ensures nodes[..n][i] == nodes[i] {}
    }
  }

  lemma {:induction false} NoErrorInMember(nodes: seq<Json>, i: nat, depth: nat, limits: Limits)
    requires FirstErrorIn(nodes, depth, limits).None? && i < |nodes|
    ensures FirstError(nodes[i], depth, limits).None?
  {
    if i < |nodes| - 1 { NoErrorInMember(nodes[..|nodes| - 1], i, depth, limits); }
  }

  /** A document without an error has none at any of its nodes. */
  lemma {:induction false} NoErrorAnywhere(node: Json, path: seq<nat>, depth: nat, limits: Limits)
    requires FirstError(node, depth, limits).None? && NodeAt(node, path).Some?
    ensures OwnError(NodeAt(node, path).value, depth + |path|, limits).None?
    decreases |path|
  {
    if path != [] {
      NoErrorInMember(Children(node), path[0], depth + 1, limits);
      NoErrorAnywhere(Children(node)[path[0]], path[1..], depth + 1, limits);
    }
  }

  /** The walk comes to the node at `q` before the one at `p`: a node before its children, later children first. */
  predicate VisitedBefore(q: seq<nat>, p: seq<nat>)
    decreases |q|
  {
    p != [] && (q == [] || q[0] > p[0] || (q[0] == p[0] && VisitedBefore(q[1..], p[1..])))
  }

  /** `node`, at `depth`, breaks no limit. */
  ghost predicate Fits(node: Json, depth: nat, limits: Limits) {
    forall error :: !Breaks(node, depth, limits, error)
  }

  /** No node visited before the one at `path` breaks a limit. */
  ghost predicate ClearBefore(node: Json, path: seq<nat>, depth: nat, limits: Limits) {
    forall q: seq<nat> | NodeAt(node, q).Some? && VisitedBefore(q, path) ::
      Fits(NodeAt(node, q).value, depth + |q|, limits)
  }

  ghost predicate Clear(node: Json, depth: nat, limits: Limits) {
    forall q: seq<nat> | NodeAt(node, q).Some? :: Fits(NodeAt(node, q).value, depth + |q|, limits)
  }

  lemma OwnErrorTells(node: Json, depth: nat, limits: Limits)
    ensures Fits(node, depth, limits) <==> OwnError(node, depth, limits).None?
    ensures OwnError(node, depth, limits).Some? ==> Breaks(node, depth, limits, OwnError(node, depth, limits).value)
    ensures OwnError(node, depth, limits) == Some(RecursionTooDeep) ==> SizeOk(node, limits)
  {
    if OwnError(node, depth, limits).Some? {
      assert Breaks(node, depth, limits, OwnError(node, depth, limits).value);
    } else {
      forall error ensures !Breaks(node, depth, limits, error) {}
    }
  }

  lemma ClearWithoutError(node: Json, depth: nat, limits: Limits)
    requires FirstError(node, depth, limits).None?
    ensures Clear(node, depth, limits)
  {
    hide FirstError, OwnError, Fits;
    forall q: seq<nat> | NodeAt(node, q).Some? ensures Fits(NodeAt(node, q).value, depth + |q|, limits) {
      NoErrorAnywhere(node, q, depth, limits);
      OwnErrorTells(NodeAt(node, q).value, depth + |q|, limits);
    }
  }

  lemma ClearUpTo(node: Json, i: nat, rest: seq<nat>, depth: nat, limits: Limits)
    requires Fits(node, depth, limits) && i < |Children(node)|
    requires ClearBefore(Children(node)[i], rest, depth + 1, limits)
    requires forall j | i < j < |Children(node)| :: Clear(Children(node)[j], depth + 1, limits)
    ensures ClearBefore(node, [i] + rest, depth, limits)
  {
    hide Fits, Children;
    var path := [i] + rest;
    assert path[1..] == rest;
    forall q: seq<nat> | NodeAt(node, q).Some? && VisitedBefore(q, path)
      ensures Fits(NodeAt(node, q).value, depth + |q|, limits)
    {
      if q != [] { assert NodeAt(node, q) == NodeAt(Children(node)[q[0]], q[1..]); }
    }
  }

  function OrElse(first: Option<ValidationError>, second: Option<ValidationError>): Option<ValidationError> {
    if first.Some? then first else second
  }

  lemma FirstErrorByParts(node: Json, depth: nat, limits: Limits)
    ensures FirstError(node, depth, limits)
         == OrElse(OwnError(node, depth, limits), FirstErrorIn(Children(node), depth + 1, limits))
  {
  }

  /** `path` leads to the first node of the walk that breaks a limit, and `error` says which. */
  ghost predicate IsFirstBroken(node: Json, path: seq<nat>, depth: nat, limits: Limits, error: ValidationError) {
    && NodeAt(node, path).Some?
    && Breaks(NodeAt(node, path).value, depth + |path|, limits, error)
    && (error == RecursionTooDeep ==> SizeOk(NodeAt(node, path).value, limits))
    && ClearBefore(node, path, depth, limits)
  }

  lemma FirstBrokenBelow(
    node: Json, i: nat, rest: seq<nat>, depth: nat, limits: Limits, error: ValidationError)
    requires Fits(node, depth, limits) && i < |Children(node)|
    requires IsFirstBroken(Children(node)[i], rest, depth + 1, limits, error)
    requires forall j | i < j < |Children(node)| :: Clear(Children(node)[j], depth + 1, limits)
    ensures IsFirstBroken(node, [i] + rest, depth, limits, error)
  {
    ClearUpTo(node, i, rest, depth, limits);
    hide Fits, Clear, ClearBefore, Children, Breaks, SizeOk;
    var path := [i] + rest;
    assert path[1..] == rest;
    assert NodeAt(node, path) == NodeAt(Children(node)[i], rest);
    assert depth + |path| == depth + 1 + |rest|;
  }

  /**
    Every reported error has a node that breaks exactly that limit, the first such node of the
    walk: all those visited before it break none. Depth is only reported of a node of fair size.
  */
  lemma {:induction false} ErrorHasWitness(node: Json, depth: nat, limits: Limits) returns (path: seq<nat>)
    requires FirstError(node, depth, limits).Some?
    ensures IsFirstBroken(node, path, depth, limits, FirstError(node, depth, limits).value)
    decreases node, 1
  {
    path := [];
    OwnErrorTells(node, depth, limits);
    FirstErrorByParts(node, depth, limits);
    hide FirstError, FirstErrorIn, OwnError, Breaks, SizeOk, Fits;
    if OwnError(node, depth, limits).None? {
      var i, rest := ErrorInHasWitness(node, Children(node), depth + 1, limits);
      FirstBrokenBelow(node, i, rest, depth, limits, FirstError(node, depth, limits).value);
      path := [i] + rest;
    }
  }

  lemma {:induction false} ErrorInHasWitness(parent: Json, nodes: seq<Json>, depth: nat, limits: Limits)
    returns (i: nat, path: seq<nat>)
    requires FirstErrorIn(nodes, depth, limits).Some? && forall j | 0 <= j < |nodes| :: nodes[j] < parent
    ensures i < |nodes| && IsFirstBroken(nodes[i], path, depth, limits, FirstErrorIn(nodes, depth, limits).value)
    ensures forall j | i < j < |nodes| :: Clear(nodes[j], depth, limits)
    decreases parent, 0, |nodes|
  {
    hide IsFirstBroken, Clear;
    i := |nodes| - 1;
    if FirstError(nodes[i], depth, limits).Some? {
      path := ErrorHasWitness(nodes[i], depth, limits);
    } else {
      ClearWithoutError(nodes[i], depth, limits);
      i, path := ErrorInHasWitness(parent, nodes[..i], depth, limits);
    }
  }

  // ── The iterative walk ────────────────────────────────────────────────────────

  type Stack = seq<(Json, nat)>

  function AtDepth(nodes: seq<Json>, depth: nat): Stack {
    seq(|nodes|, i requires 0 <= i < |nodes| => (nodes[i], depth))
  }

  /** What the walk will find, popping from the end of `stack`. */
  function FirstErrorOn(stack: Stack, limits: Limits): Option<ValidationError> {
    if stack == [] then None
    else
      var top := stack[|stack| - 1];
      var error := FirstError(top.0, top.1, limits);
      if error.Some? then error else FirstErrorOn(stack[..|stack| - 1], limits)
  }

  function NodesOn(stack: Stack): nat {
    if stack == [] then 0 else NodesOn(stack[..|stack| - 1]) + NodeCount(stack[|stack| - 1].0)
  }

  lemma {:induction false} PushedChildren(stack: Stack, nodes: seq<Json>, depth: nat, limits: Limits)
    ensures FirstErrorOn(stack + AtDepth(nodes, depth), limits)
         == OrElse(FirstErrorIn(nodes, depth, limits), FirstErrorOn(stack, limits))
    ensures NodesOn(stack + AtDepth(nodes, depth)) == NodesOn(stack) + NodeCountIn(nodes)
  {
    if nodes == [] {
      assert stack + AtDepth(nodes, depth) == stack;
    } else {
      var n := |nodes| - 1;
      PushedChildren(stack, nodes[..n], depth, limits);
      assert (stack + AtDepth(nodes, depth))[..|stack| + n] == stack + AtDepth(nodes[..n], depth);
    }
  }

  /** Widest fan-out a container may have, at least 1. */
  function Fanout(limits: Limits): nat { Max(1, Max(limits.maxArrayLength, limits.maxObjectFields)) }

  /** How many entries may wait below one at this depth. */
  function Room(depth: nat, limits: Limits): nat { depth * (Fanout(limits) - 1) }

  lemma RoomGrows(depth: nat, limits: Limits)
    ensures Room(depth + 1, limits) == Room(depth, limits) + Fanout(limits) - 1
  {
  }

  /** Entry `k` of the stack is at a depth that leaves room for the `k` entries below it. */
  predicate Roomy(stack: Stack, limits: Limits) {
    forall k | 0 <= k < |stack| :: k <= Room(stack[k].1, limits) && stack[k].1 <= limits.maxRecursionDepth
  }

  function StackBound(limits: Limits): nat { Room(limits.maxRecursionDepth, limits) + 1 }

  lemma MulMonotone(a: nat, b: nat, c: nat)
    requires a <= b
    ensures a * c <= b * c
  {
    assert b * c == a * c + (b - a) * c;
  }

  lemma RoomyIsBounded(stack: Stack, limits: Limits)
    requires Roomy(stack, limits)
    ensures |stack| <= StackBound(limits)
  {
    if stack != [] {
      var k := |stack| - 1;
      MulMonotone(stack[k].1, limits.maxRecursionDepth, Fanout(limits) - 1);
    }
  }

  lemma PushedIsRoomy(stack: Stack, nodes: seq<Json>, depth: nat, limits: Limits)
    requires Roomy(stack, limits) && 1 <= depth <= limits.maxRecursionDepth && |nodes| <= Fanout(limits)
    requires |stack| <= Room(depth - 1, limits)
    ensures Roomy(stack + AtDepth(nodes, depth), limits)
  {
    RoomGrows(depth - 1, limits);
    hide Room, Fanout;
  }

  /** The push loops of the array and object branches. */
  method PushAll(stack: Stack, nodes: seq<Json>, depth: nat, limits: Limits) returns (pushed: Stack)
    requires Roomy(stack, limits) && 1 <= depth <= limits.maxRecursionDepth && |nodes| <= Fanout(limits)
    requires |stack| <= Room(depth - 1, limits)
    ensures pushed == stack + AtDepth(nodes, depth) && Roomy(pushed, limits)
    ensures FirstErrorOn(pushed, limits)
         == OrElse(FirstErrorIn(nodes, depth, limits), FirstErrorOn(stack, limits))
    ensures NodesOn(pushed) == NodesOn(stack) + NodeCountIn(nodes)
  {
    PushedChildren(stack, nodes, depth, limits);
    PushedIsRoomy(stack, nodes, depth, limits);
    hide FirstErrorOn, FirstErrorIn, NodesOn, NodeCountIn, Roomy, Room;
    pushed := stack;
    for i := 0 to |nodes|
      invariant pushed == stack + AtDepth(nodes, depth)[..i]
    {
      pushed := pushed + [(nodes[i], depth)];
    }
    assert pushed == stack + AtDepth(nodes, depth);
  }

  /** What one pop leaves to do. */
  lemma PopStep(stack: Stack, limits: Limits)
    requires stack != []
    ensures var (node, depth), rest := stack[|stack| - 1], stack[..|stack| - 1];
            && NodesOn(stack) == NodesOn(rest) + 1 + NodeCountIn(Children(node))
            && FirstErrorOn(stack, limits)
               == if OwnError(node, depth, limits).Some? then OwnError(node, depth, limits)
                  else OrElse(FirstErrorIn(Children(node), depth + 1, limits), FirstErrorOn(rest, limits))
  {
  }

  /** The stack after one turn that finds no error: the top entry gives way to its children. */
  function Popped(stack: Stack): Stack
    requires stack != []
  {
    var (node, depth) := stack[|stack| - 1];
    stack[..|stack| - 1] + AtDepth(Children(node), depth + 1)
  }

  lemma NothingPushed(stack: Stack)
    requires stack != []
    ensures Children(stack[|stack| - 1].0) == [] ==> Popped(stack) == stack[..|stack| - 1]
  {
  }

  lemma PoppedIsRoomy(stack: Stack, limits: Limits)
    requires stack != [] && Roomy(stack, limits)
    requires OwnError(stack[|stack| - 1].0, stack[|stack| - 1].1, limits).None?
    ensures Roomy(Popped(stack), limits)
  {
    var (node, depth) := stack[|stack| - 1];
    if Children(node) == [] {
      NothingPushed(stack);
    } else {
      PushedIsRoomy(stack[..|stack| - 1], Children(node), depth + 1, limits);
    }
  }

  /** What one turn leaves to find and to visit. */
  lemma PoppedKeeps(stack: Stack, limits: Limits)
    requires stack != [] && Roomy(stack, limits)
    ensures var (node, depth) := stack[|stack| - 1];
            && NodesOn(Popped(stack)) + 1 == NodesOn(stack)
            && Roomy(stack[..|stack| - 1], limits)
            && (Children(node) != [] ==> |stack| - 1 <= Room(depth, limits))
            && (OwnError(node, depth, limits).Some? ==> FirstErrorOn(stack, limits) == OwnError(node, depth, limits))
            && (OwnError(node, depth, limits).None? ==>
                  Roomy(Popped(stack), limits) && FirstErrorOn(Popped(stack), limits) == FirstErrorOn(stack, limits))
  {
    var (node, depth) := stack[|stack| - 1];
    hide FirstErrorOn, FirstErrorIn, NodesOn, NodeCountIn, Room;
    PopStep(stack, limits);
    PushedChildren(stack[..|stack| - 1], Children(node), depth + 1, limits);
    if OwnError(node, depth, limits).None? { PoppedIsRoomy(stack, limits); }
  }

  /** One turn of the walk: pop the top entry, check it, push its children. */
  method Visit(stack: Stack, limits: Limits) returns (step: Result<Stack, ValidationError>)
    requires stack != [] && Roomy(stack, limits)
    ensures step.Err? ==> FirstErrorOn(stack, limits) == Some(step.error)
    ensures step == if OwnError(stack[|stack| - 1].0, stack[|stack| - 1].1, limits).Some?
                    then Err(OwnError(stack[|stack| - 1].0, stack[|stack| - 1].1, limits).value)
                    else Ok(Popped(stack))
    ensures step.Ok? ==> Roomy(step.value, limits)
    ensures step.Ok? ==> FirstErrorOn(step.value, limits) == FirstErrorOn(stack, limits)
    ensures step.Ok? ==> NodesOn(step.value) + 1 == NodesOn(stack)
    ensures NodesOn(stack) >= 1
  {
    var top := |stack| - 1;
    var (node, depth) := stack[top];
    var rest := stack[..top];
    PoppedKeeps(stack, limits);
    NothingPushed(stack);
    assert Popped(stack) == rest + AtDepth(Children(node), depth + 1);
    hide FirstErrorOn, FirstErrorIn, NodesOn, NodeCountIn, Roomy, Room, Popped, AtDepth;
    match node {
      case Array(items) =>
        if |items| > limits.maxArrayLength { return Err(TooManyArrayItems); }
        if items != [] {
          var next := depth + 1;
          if next > limits.maxRecursionDepth { return Err(RecursionTooDeep); }
          rest := PushAll(rest, items, next, limits);
        }
      case Object(_, values) =>
        if |values| > limits.maxObjectFields { return Err(TooManyObjectFields); }
        if values != [] {
          var next := depth + 1;
          if next > limits.maxRecursionDepth { return Err(RecursionTooDeep); }
          rest := PushAll(rest, values, next, limits);
        }
      case String(utf8) =>
        if |utf8| > limits.maxStringLength { return Err(StringTooLong); }
      case _ =>
    }
    NothingPushed(stack);
    return Ok(rest);
  }

  lemma PoppedHasFewer(stack: Stack)
    requires stack != []
    ensures NodesOn(Popped(stack)) + 1 == NodesOn(stack)
  {
    var (node, depth) := stack[|stack| - 1];
    PushedChildren(stack[..|stack| - 1], Children(node), depth + 1, Limits(0, 0, 0, 0, 0, 0, 0, 0));
  }

  /** The largest stack of a walk that goes on from `stack`. */
  ghost function Peak(stack: Stack, limits: Limits): nat
    decreases NodesOn(stack)
  {
    if stack == [] then 0
    else if OwnError(stack[|stack| - 1].0, stack[|stack| - 1].1, limits).Some? then |stack|
    else
      PoppedHasFewer(stack);
      Max(|stack|, Peak(Popped(stack), limits))
  }

  lemma {:induction false} PeakIsBounded(stack: Stack, limits: Limits)
    requires Roomy(stack, limits)
    ensures Peak(stack, limits) <= StackBound(limits)
    decreases NodesOn(stack)
  {
    RoomyIsBounded(stack, limits);
    if stack != [] && OwnError(stack[|stack| - 1].0, stack[|stack| - 1].1, limits).None? {
      PoppedIsRoomy(stack, limits);
      PoppedHasFewer(stack);
      PeakIsBounded(Popped(stack), limits);
    }
  }

  lemma SingletonStack(root: Json, limits: Limits)
    ensures var stack: Stack := [(root, 0)];
            && FirstErrorOn(stack, limits) == FirstError(root, 0, limits)
            && NodesOn(stack) == NodeCount(root)
            && Roomy(stack, limits)
  {
    var stack: Stack := [(root, 0)];
    assert stack[..0] == [];
  }

  /**
    The walk returns what the recursive definition does, pops no node twice (and every
    node when it accepts), and its stack never outgrows D * (W - 1) + 1 entries.
  */
  method ValidateJsonStructure(root: Json, limits: Limits)
    returns (result: Result<(), ValidationError>, ghost pops: nat, ghost peak: nat)
    ensures result == match FirstError(root, 0, limits) case None => Ok(()) case Some(error) => Err(error)
    ensures pops <= NodeCount(root) && (result.Ok? ==> pops == NodeCount(root))
    ensures peak == Peak([(root, 0)], limits) <= StackBound(limits)
  {
    var stack: Stack := [(root, 0)];
    pops, peak := 0, 1;
    SingletonStack(root, limits);
    PeakIsBounded(stack, limits);
    hide FirstError, Roomy, Room;
    while stack != []
      invariant FirstErrorOn(stack, limits) == FirstError(root, 0, limits)
      invariant pops + NodesOn(stack) == NodeCount(root)
      invariant Roomy(stack, limits)
      invariant |stack| <= peak && Max(peak, Peak(stack, limits)) == Peak([(root, 0)], limits)
      decreases NodesOn(stack)
    {
      var step := Visit(stack, limits);
      pops := pops + 1;
      match step {
        case Err(error) => return Err(error), pops, peak;
        case Ok(pushed) => stack := pushed;
      }
      peak := Max(peak, |stack|);
    }
    return Ok(()), pops, peak;
  }

  // ── The bound is attained ─────────────────────────────────────────────────────

  /** A container of the wider kind the limits allow; member names are all different. */
  function Container(nodes: seq<Json>, limits: Limits): Json {
    if limits.maxArrayLength >= limits.maxObjectFields then Array(nodes)
    else Object(seq(|nodes|, i requires 0 <= i < |nodes| => seq(i, _ => 'a')), nodes)
  }

  /** `levels` full containers, each nested in the last place of the one around it. */
  function Tower(levels: nat, limits: Limits): Json {
    if levels == 0 then Null
    else Container(seq(Fanout(limits) - 1, _ => Null) + [Tower(levels - 1, limits)], limits)
  }

  lemma NullsAreFine(nodes: seq<Json>, depth: nat, limits: Limits)
    requires forall i | 0 <= i < |nodes| :: nodes[i] == Null
    ensures FirstErrorIn(nodes, depth, limits).None?
  {
  }

  /** The widest container allowed breaks no limit while it may nest. */
  lemma {:induction false} TowerIsFine(levels: nat, depth: nat, limits: Limits)
    requires depth + levels <= limits.maxRecursionDepth
    requires Max(limits.maxArrayLength, limits.maxObjectFields) >= 1
    ensures FirstError(Tower(levels, limits), depth, limits).None?
  {
    if levels > 0 {
      var nulls := seq(Fanout(limits) - 1, _ => Null);
      var nodes := nulls + [Tower(levels - 1, limits)];
      assert Tower(levels, limits) == Container(nodes, limits) && Children(Container(nodes, limits)) == nodes;
      TowerIsFine(levels - 1, depth + 1, limits);
      NullsAreFine(nulls, depth + 1, limits);
      assert nodes[..|nodes| - 1] == nulls;
    }
  }

  /** The stack with the innermost container on top, its earlier siblings waiting below it. */
  function Waiting(rest: Stack, depth: nat, limits: Limits): Stack {
    rest + AtDepth(seq(Fanout(limits) - 1, _ => Null), depth)
  }

  lemma TowerOpens(rest: Stack, levels: nat, depth: nat, limits: Limits)
    requires levels > 0 && depth + levels <= limits.maxRecursionDepth
    requires Max(limits.maxArrayLength, limits.maxObjectFields) >= 1
    ensures var stack := rest + [(Tower(levels, limits), depth)];
            && OwnError(Tower(levels, limits), depth, limits).None?
            && Popped(stack) == Waiting(rest, depth + 1, limits) + [(Tower(levels - 1, limits), depth + 1)]
  {
    var nodes := seq(Fanout(limits) - 1, _ => Null) + [Tower(levels - 1, limits)];
    var stack := rest + [(Tower(levels, limits), depth)];
    assert Children(Tower(levels, limits)) == nodes;
    assert stack[..|stack| - 1] == rest;
  }

  lemma PeakFalls(stack: Stack, limits: Limits)
    requires stack != [] && OwnError(stack[|stack| - 1].0, stack[|stack| - 1].1, limits).None?
    ensures Peak(stack, limits) >= |stack| && Peak(stack, limits) >= Peak(Popped(stack), limits)
  {
  }

  lemma TowerStep(rest: Stack, levels: nat, depth: nat, limits: Limits)
    requires levels > 0 && depth + levels <= limits.maxRecursionDepth
    requires Max(limits.maxArrayLength, limits.maxObjectFields) >= 1
    ensures Peak(rest + [(Tower(levels, limits), depth)], limits)
         >= Peak(Waiting(rest, depth + 1, limits) + [(Tower(levels - 1, limits), depth + 1)], limits)
    ensures |Waiting(rest, depth + 1, limits)| == |rest| + Fanout(limits) - 1
  {
    hide Peak, OwnError, NodesOn, Popped;
    TowerOpens(rest, levels, depth, limits);
    PeakFalls(rest + [(Tower(levels, limits), depth)], limits);
  }

  lemma GroundFloor(rest: Stack, depth: nat, limits: Limits)
    ensures Peak(rest + [(Tower(0, limits), depth)], limits) >= |rest| + Room(0, limits) + 1
  {
    hide Peak, NodesOn;
    PeakFalls(rest + [(Tower(0, limits), depth)], limits);
  }

  /** Each level leaves all but one of its children waiting on the stack. */
  lemma {:induction false} TowerPiles(rest: Stack, levels: nat, depth: nat, limits: Limits)
    requires depth + levels <= limits.maxRecursionDepth
    requires Max(limits.maxArrayLength, limits.maxObjectFields) >= 1
    ensures Peak(rest + [(Tower(levels, limits), depth)], limits) >= |rest| + Room(levels, limits) + 1
    decreases levels
  {
    hide Peak, Tower, Waiting, Room, Fanout;
    if levels == 0 {
      GroundFloor(rest, depth, limits);
    } else {
      RoomGrows(levels - 1, limits);
      TowerStep(rest, levels, depth, limits);
      TowerPiles(Waiting(rest, depth + 1, limits), levels - 1, depth + 1, limits);
    }
  }

  /** Under every limits some accepted document takes the stack to its bound. */
  lemma BoundIsAttained(limits: Limits) returns (root: Json)
    ensures FirstError(root, 0, limits).None?
    ensures Peak([(root, 0)], limits) == StackBound(limits)
  {
    var wide := Max(limits.maxArrayLength, limits.maxObjectFields) >= 1;
    root := if wide then Tower(limits.maxRecursionDepth, limits) else Null;
    SingletonStack(root, limits);
    PeakIsBounded([(root, 0)], limits);
    if wide {
      TowerIsFine(limits.maxRecursionDepth, 0, limits);
      TowerPiles([], limits.maxRecursionDepth, 0, limits);
      assert [] + [(root, 0)] == [(root, 0)];
    }
  }

  // ── RDAP field limits ─────────────────────────────────────────────────────────

  /** Length of the named member if it is an array, else 0. */
  function ArrayLen(names: seq<string>, values: seq<Json>, key: string): nat {
    if names == [] || values == [] then 0
    else if names[0] == key then (if values[0].Array? then |values[0].items| else 0)
    else ArrayLen(names[1..], values[1..], key)
  }

  function ValidateRdapObject(value: Json, limits: Limits): Result<(), ValidationError> {
    match value
    case Object(names, values) =>
      if ArrayLen(names, values, "entities") > limits.maxEntities then Err(TooManyEntities)
      else if ArrayLen(names, values, "links") > limits.maxLinks then Err(TooManyLinks)
      else if ArrayLen(names, values, "events") > limits.maxEvents then Err(TooManyEvents)
      else if ArrayLen(names, values, "remarks") > limits.maxArrayLength then Err(TooManyArrayItems)
      else if ArrayLen(names, values, "notices") > limits.maxArrayLength then Err(TooManyArrayItems)
      else if ArrayLen(names, values, "nameservers") > limits.maxArrayLength then Err(TooManyArrayItems)
      else Ok(())
    case _ => Ok(())
  }

  /** Member `i` is the first of that name. */
  predicate FirstNamed(names: seq<string>, values: seq<Json>, key: string, i: nat) {
    i < |names| && i < |values| && names[i] == key && forall j | 0 <= j < i :: names[j] != key
  }

  /** The member of that name, if there is one and it is an array, has at most `limit` items. */
  predicate FieldOk(value: Json, key: string, limit: nat) {
    value.Object? ==>
      forall i | 0 <= i < |value.names| ::
        FirstNamed(value.names, value.values, key, i) && value.values[i].Array? ==> |value.values[i].items| <= limit
  }

  /** The length measured is that of the first member of the name, and 0 if it is no array or there is none. */
  lemma {:induction false} ArrayLenIsFirst(names: seq<string>, values: seq<Json>, key: string, i: nat)
    ensures FirstNamed(names, values, key, i) ==>
              ArrayLen(names, values, key) == if values[i].Array? then |values[i].items| else 0
    ensures (forall j | 0 <= j < |names| :: !FirstNamed(names, values, key, j)) ==> ArrayLen(names, values, key) == 0
  {
    if names != [] && values != [] && names[0] != key {
      ArrayLenIsFirst(names[1..], values[1..], key, if i > 0 then i - 1 else 0);
      forall j | 0 <= j < |names| - 1 && FirstNamed(names[1..], values[1..], key, j)
        ensures FirstNamed(names, values, key, j + 1)
      {
        forall m | 0 <= m < j + 1 ensures names[m] != key { if m > 0 { assert names[m] == names[1..][m - 1]; } }
      }
      if FirstNamed(names, values, key, i) {
        forall m | 0 <= m < i - 1 ensures names[1..][m] != key { assert names[1..][m] == names[m + 1]; }
        assert FirstNamed(names[1..], values[1..], key, i - 1);
      }
    } else if names != [] && values != [] {
      assert FirstNamed(names, values, key, 0);
    }
  }

  lemma FieldOkIffShort(value: Json, key: string, limit: nat)
    requires value.Object?
    ensures FieldOk(value, key, limit) <==> ArrayLen(value.names, value.values, key) <= limit
  {
    if i :| 0 <= i < |value.names| && FirstNamed(value.names, value.values, key, i) {
      ArrayLenIsFirst(value.names, value.values, key, i);
    } else {
      ArrayLenIsFirst(value.names, value.values, key, 0);
    }
  }

  /** For every value the second stage reports the first of the six members, in this order, over its limit. */
  lemma ObjectVerdict(value: Json, limits: Limits)
    ensures ValidateRdapObject(value, limits)
         == if !FieldOk(value, "entities", limits.maxEntities) then Err(TooManyEntities)
            else if !FieldOk(value, "links", limits.maxLinks) then Err(TooManyLinks)
            else if !FieldOk(value, "events", limits.maxEvents) then Err(TooManyEvents)
            else if !FieldOk(value, "remarks", limits.maxArrayLength)
                    || !FieldOk(value, "notices", limits.maxArrayLength)
                    || !FieldOk(value, "nameservers", limits.maxArrayLength) then Err(TooManyArrayItems)
            else Ok(())
  {
    if value.Object? {
      FieldOkIffShort(value, "entities", limits.maxEntities);
      FieldOkIffShort(value, "links", limits.maxLinks);
      FieldOkIffShort(value, "events", limits.maxEvents);
      FieldOkIffShort(value, "remarks", limits.maxArrayLength);
      FieldOkIffShort(value, "notices", limits.maxArrayLength);
      FieldOkIffShort(value, "nameservers", limits.maxArrayLength);
      hide ArrayLen, FieldOk;
    }
  }

  // ── The pipeline ──────────────────────────────────────────────────────────────

  /** First failing stage of the pipeline, with the structural stage by its recursive definition. */
  function ResponseVerdict(size: nat, parsed: Option<Json>, limits: Limits): Result<Json, ValidationError> {
    if size > limits.maxJsonSize then Err(JsonTooLarge)
    else match parsed
      case None => Err(InvalidStructure)
      case Some(value) =>
        match FirstError(value, 0, limits)
        case Some(error) => Err(error)
        case None =>
          match ValidateRdapObject(value, limits)
          case Err(error) => Err(error)
          case Ok(_) => Ok(value)
  }

  /** `parsed` is what the JSON parser makes of the bytes, `None` if it rejects them. */
  method ValidateRdapResponse(size: nat, parsed: Option<Json>, limits: Limits)
    returns (result: Result<Json, ValidationError>)
    ensures result == ResponseVerdict(size, parsed, limits)
  {
    if size > limits.maxJsonSize { return Err(JsonTooLarge); }
    match parsed
    case None => return Err(InvalidStructure);
    case Some(value) =>
      var structure, _, _ := ValidateJsonStructure(value, limits);
      match structure
      case Err(error) => return Err(error);
      case Ok(_) =>
        match ValidateRdapObject(value, limits)
        case Err(error) => return Err(error);
        case Ok(_) => return Ok(value);
  }

  /** After the structural stage the remarks, notices and nameservers checks cannot fire. */
  lemma LaterArrayChecksAreDead(value: Json, limits: Limits)
    requires WithinLimits(value, 0, limits)
    ensures FieldOk(value, "remarks", limits.maxArrayLength)
            && FieldOk(value, "notices", limits.maxArrayLength)
            && FieldOk(value, "nameservers", limits.maxArrayLength)
    ensures ValidateRdapObject(value, limits) != Err(TooManyArrayItems)
  {
    if value.Object? {
      forall i | 0 <= i < |value.values| && value.values[i].Array?
        ensures |value.values[i].items| <= limits.maxArrayLength
      {
        var first: seq<nat> := [i];
        assert first[1..] == [];
        assert NodeAt(value, first) == NodeAt(value.values[i], []);
      }
    }
    ObjectVerdict(value, limits);
  }

  /** Past the structural stage the answer is told by the three members that have limits of their own. */
  lemma SoundDocumentVerdict(value: Json, limits: Limits)
    requires WithinLimits(value, 0, limits)
    ensures ValidateRdapObject(value, limits)
         == if !FieldOk(value, "entities", limits.maxEntities) then Err(TooManyEntities)
            else if !FieldOk(value, "links", limits.maxLinks) then Err(TooManyLinks)
            else if !FieldOk(value, "events", limits.maxEvents) then Err(TooManyEvents)
            else Ok(())
  {
    LaterArrayChecksAreDead(value, limits);
    ObjectVerdict(value, limits);
    hide FieldOk, WithinLimits;
  }

  /** The pipeline accepts exactly the parsed documents within every limit, unchanged. */
  lemma AcceptedIffWithinEveryLimit(size: nat, parsed: Option<Json>, limits: Limits)
    ensures ResponseVerdict(size, parsed, limits).Ok? <==>
              && size <= limits.maxJsonSize && parsed.Some?
              && WithinLimits(parsed.value, 0, limits)
              && FieldOk(parsed.value, "entities", limits.maxEntities)
              && FieldOk(parsed.value, "links", limits.maxLinks)
              && FieldOk(parsed.value, "events", limits.maxEvents)
    ensures ResponseVerdict(size, parsed, limits).Ok? ==> Some(ResponseVerdict(size, parsed, limits).value) == parsed
  {
    hide FieldOk, WithinLimits, FirstError;
    if parsed.Some? {
      NoErrorIffWithinLimits(parsed.value, 0, limits);
      if WithinLimits(parsed.value, 0, limits) { SoundDocumentVerdict(parsed.value, limits); }
    }
  }

  /** Every structural limit and the limits of the members before `key` in the coded order hold. */
  ghost predicate FineBefore(value: Json, key: string, limits: Limits) {
    && WithinLimits(value, 0, limits)
    && (key != "entities" ==> FieldOk(value, "entities", limits.maxEntities))
    && (key != "entities" && key != "links" ==> FieldOk(value, "links", limits.maxLinks))
  }

  ghost predicate BrokenFirst(value: Json, limits: Limits, error: ValidationError) {
    exists path :: IsFirstBroken(value, path, 0, limits, error)
  }

  lemma StructuralErrorIsNoMembers(value: Json, limits: Limits)
    requires FirstError(value, 0, limits).Some?
    ensures FirstError(value, 0, limits).value in
              {TooManyArrayItems, TooManyObjectFields, StringTooLong, RecursionTooDeep}
  {
    var path := ErrorHasWitness(value, 0, limits);
  }

  /**
    What each error of the pipeline tells its caller. A member error means that the whole
    document is structurally sound and that this member is the first over its limit; the other
    errors, too many array items included, name the limit that the first offending node of the
    walk breaks.
  */
  lemma VerdictTellsWhy(size: nat, parsed: Option<Json>, limits: Limits)
    ensures var verdict := ResponseVerdict(size, parsed, limits);
            && (verdict == Err(JsonTooLarge) <==> size > limits.maxJsonSize)
            && (verdict == Err(InvalidStructure) <==> size <= limits.maxJsonSize && parsed == None)
            && (size <= limits.maxJsonSize && parsed.Some? ==>
                  var value := parsed.value;
                  && (verdict == Err(TooManyEntities) <==>
                        FineBefore(value, "entities", limits) && !FieldOk(value, "entities", limits.maxEntities))
                  && (verdict == Err(TooManyLinks) <==>
                        FineBefore(value, "links", limits) && !FieldOk(value, "links", limits.maxLinks))
                  && (verdict == Err(TooManyEvents) <==>
                        FineBefore(value, "events", limits) && !FieldOk(value, "events", limits.maxEvents))
                  && (!WithinLimits(value, 0, limits) ==>
                        verdict.Err? && BrokenFirst(value, limits, verdict.error)))
  {
    hide FieldOk, WithinLimits, FirstError, IsFirstBroken, ValidateRdapObject;
    if size <= limits.maxJsonSize && parsed.Some? {
      var value := parsed.value;
      NoErrorIffWithinLimits(value, 0, limits);
      if WithinLimits(value, 0, limits) {
        SoundDocumentVerdict(value, limits);
      } else {
        var path := ErrorHasWitness(value, 0, limits);
        StructuralErrorIsNoMembers(value, limits);
      }
    }
  }
}
