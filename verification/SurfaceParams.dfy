/** surfaces/protocol.py: the explicit-stack check that section parameters are JSON-safe. */
module SurfaceParams {
  import opened Wrappers
  import opened PyObjects

  const MAX_SURFACE_PARAM_DEPTH: nat := 32

  // ------------------------------------------------------------------
  // The recursive meaning
  // ------------------------------------------------------------------

  predicate FiniteLeaf(leaf: Leaf) {
    leaf.FloatLeaf? ==> leaf.finite
  }

  ghost predicate StringKeys(c: Container)
    reads c
  {
    c.kind.DictKind? ==> forall i | 0 <= i < |c.keys| :: c.keys[i].StrKey?
  }

  /** Depth at most 32, and a finite leaf or a string-keyed container of safe children. */
  ghost predicate Safe(v: Value, depth: nat, heap: set<Container>)
    reads heap
    decreases if depth <= MAX_SURFACE_PARAM_DEPTH then MAX_SURFACE_PARAM_DEPTH + 1 - depth else 0
  {
    depth <= MAX_SURFACE_PARAM_DEPTH &&
    match v
    case Scalar(leaf, _) => FiniteLeaf(leaf)
    case Foreign(_) => false
    case Node(c) =>
      c in heap && StringKeys(c) && forall i | 0 <= i < |c.items| :: Safe(c.items[i], depth + 1, heap)
  }

  /** The same, said of every walk through the graph instead of by recursion. */
  ghost predicate FineAt(v: Value, depth: nat, path: seq<nat>, heap: set<Container>)
    reads heap
  {
    var r := At(v, path, heap);
    r.Some? ==>
      && depth + |path| <= MAX_SURFACE_PARAM_DEPTH
      && match r.value
         case Scalar(leaf, _) => FiniteLeaf(leaf)
         case Foreign(_) => false
         case Node(c) => c in heap && StringKeys(c)
  }

  /** A value is safe iff no walk goes deeper than the bound or meets a bad value;
      in particular nothing safe contains itself. */
  lemma SafeIffEveryPathFine(v: Value, depth: nat, heap: set<Container>)
    ensures Safe(v, depth, heap) <==> forall path :: FineAt(v, depth, path, heap)
  {
    if Safe(v, depth, heap) {
      forall path ensures FineAt(v, depth, path, heap) {
        SafePathFine(v, depth, path, heap);
      }
    } else {
      var path := UnsafePath(v, depth, heap);
    }
  }

  lemma {:induction false} SafePathFine(v: Value, depth: nat, path: seq<nat>, heap: set<Container>)
    requires Safe(v, depth, heap)
    ensures FineAt(v, depth, path, heap)
    decreases |path|
  {
    if path != [] && v.Node? && path[0] < |v.ref.items| {
      SafePathFine(v.ref.items[path[0]], depth + 1, path[1..], heap);
    }
  }

  lemma {:induction false} UnsafePath(v: Value, depth: nat, heap: set<Container>) returns (path: seq<nat>)
    requires !Safe(v, depth, heap)
    ensures !FineAt(v, depth, path, heap)
    decreases if depth <= MAX_SURFACE_PARAM_DEPTH then MAX_SURFACE_PARAM_DEPTH + 1 - depth else 0
  {
    path := [];
    if FineAt(v, depth, path, heap) {
      var i :| 0 <= i < |v.ref.items| && !Safe(v.ref.items[i], depth + 1, heap);
      var rest := UnsafePath(v.ref.items[i], depth + 1, heap);
      path := [i] + rest;
      assert path[1..] == rest;
    }
  }

  // ------------------------------------------------------------------
  // The stack and what it stands for
  // ------------------------------------------------------------------

  datatype Entry = Entry(value: Value, depth: nat, exiting: bool)

  /** Every pending entry of the stack is safe at its depth. */
  ghost predicate PendingSafe(stack: seq<Entry>, heap: set<Container>)
    reads heap
  {
    stack == [] ||
    (var e := stack[|stack| - 1];
     PendingSafe(stack[..|stack| - 1], heap) && (e.exiting || Safe(e.value, e.depth, heap)))
  }

  ghost predicate ChildOf(v: Value, c: Container)
    reads c
  {
    exists i :: 0 <= i < |c.items| && c.items[i] == v
  }

  /** `path` is a chain of containers of the heap, none of them twice. */
  ghost predicate Chain(path: seq<Container>, heap: set<Container>)
    reads heap
  {
    && (forall i | 0 <= i < |path| :: path[i] in heap)
    && (forall i | 0 < i < |path| :: ChildOf(Node(path[i]), path[i - 1]))
    && (forall i, j | 0 <= i < j < |path| :: path[i] != path[j])
  }

  /** The exit markers of `stack` are `path`, outermost first, and each pending
      entry is a child of the container whose marker is the nearest below it. */
  ghost predicate Layout(stack: seq<Entry>, path: seq<Container>, heap: set<Container>)
    reads heap
    decreases |stack|
  {
    if stack == [] then path == []
    else
      var e, rest := stack[|stack| - 1], stack[..|stack| - 1];
      if e.exiting then
        && path != [] && e == Entry(Node(path[|path| - 1]), |path| - 1, true)
        && Layout(rest, path[..|path| - 1], heap)
      else
        && e.depth == |path| && InHeap(e.value, heap)
        && (path != [] ==> path[|path| - 1] in heap && ChildOf(e.value, path[|path| - 1]))
        && Layout(rest, path, heap)
  }

  /** Size of the tree that unfolding `v` down to the depth bound visits. */
  ghost function Weight(v: Value, depth: nat, heap: set<Container>): nat
    reads heap
    decreases if depth <= MAX_SURFACE_PARAM_DEPTH then MAX_SURFACE_PARAM_DEPTH + 1 - depth else 0, 0
  {
    if depth <= MAX_SURFACE_PARAM_DEPTH && v.Node? && v.ref in heap then 2 + Weights(v.ref.items, depth + 1, heap) else 1
  }

  ghost function Weights(vs: seq<Value>, depth: nat, heap: set<Container>): nat
    reads heap
    decreases if depth <= MAX_SURFACE_PARAM_DEPTH then MAX_SURFACE_PARAM_DEPTH + 1 - depth else 0, 1 + |vs|
  {
    if vs == [] then 0 else Weight(vs[0], depth, heap) + Weights(vs[1..], depth, heap)
  }

  ghost function StackWeight(stack: seq<Entry>, heap: set<Container>): nat
    reads heap
  {
    if stack == [] then 0
    else
      var e := stack[|stack| - 1];
      StackWeight(stack[..|stack| - 1], heap) + if e.exiting then 1 else Weight(e.value, e.depth, heap)
  }

  lemma Pushed(stack: seq<Entry>, e: Entry, heap: set<Container>)
    ensures PendingSafe(stack + [e], heap) <==> PendingSafe(stack, heap) && (e.exiting || Safe(e.value, e.depth, heap))
    ensures StackWeight(stack + [e], heap) == StackWeight(stack, heap) + if e.exiting then 1 else Weight(e.value, e.depth, heap)
  {
    assert (stack + [e])[..|stack|] == stack;
  }

  // ------------------------------------------------------------------
  // Why the early rejection of a cycle never changes the answer
  // ------------------------------------------------------------------

  lemma {:induction false} SafeAlong(path: seq<Container>, i: nat, k: nat, depth: nat, heap: set<Container>)
    requires Chain(path, heap) && i <= k < |path|
    requires Safe(Node(path[i]), depth, heap)
    ensures Safe(Node(path[k]), depth + (k - i), heap)
    decreases k - i
  {
    if i < k {
      assert ChildOf(Node(path[i + 1]), path[i]);
      SafeAlong(path, i + 1, k, depth + 1, heap);
    }
  }

  /** A container that contains itself is unsafe at every depth. */
  lemma {:induction false} CycleIsUnsafe(path: seq<Container>, i: nat, depth: nat, heap: set<Container>)
    requires Chain(path, heap) && i < |path| && ChildOf(Node(path[i]), path[|path| - 1])
    ensures !Safe(Node(path[i]), depth, heap)
    decreases if depth <= MAX_SURFACE_PARAM_DEPTH then MAX_SURFACE_PARAM_DEPTH + 1 - depth else 0
  {
    if Safe(Node(path[i]), depth, heap) {
      SafeAlong(path, i, |path| - 1, depth, heap);
      CycleIsUnsafe(path, i, depth + (|path| - i), heap);
    }
  }

  /** A pending child of the innermost open container that is itself open is unsafe. */
  lemma OpenChildIsUnsafe(path: seq<Container>, c: Container, heap: set<Container>)
    requires Chain(path, heap) && c in path && ChildOf(Node(c), path[|path| - 1])
    ensures !Safe(Node(c), |path|, heap)
  {
    var i :| 0 <= i < |path| && path[i] == c;
    CycleIsUnsafe(path, i, |path|, heap);
  }

  // ------------------------------------------------------------------
  // The walk
  // ------------------------------------------------------------------

  /** What holds between two turns of the loop. */
  ghost predicate Walking(stack: seq<Entry>, active: set<Container>, path: seq<Container>, heap: set<Container>)
    reads heap
  {
    Layout(stack, path, heap) && Chain(path, heap) && active == set c | c in path
  }

  lemma LeaveContainer(stack: seq<Entry>, active: set<Container>, path: seq<Container>, heap: set<Container>)
    requires stack != [] && stack[|stack| - 1].exiting && Walking(stack, active, path, heap)
    ensures path != [] && stack[|stack| - 1].value == Node(path[|path| - 1])
    ensures path[|path| - 1] in active
    ensures Walking(stack[..|stack| - 1], active - {path[|path| - 1]}, path[..|path| - 1], heap)
  {
    var outer := path[..|path| - 1];
    forall i | 0 < i < |outer| ensures ChildOf(Node(outer[i]), outer[i - 1]) {
      assert ChildOf(Node(path[i]), path[i - 1]);
    }
  }

  lemma OpenContainer(path: seq<Container>, active: set<Container>, c: Container, heap: set<Container>)
    requires Chain(path, heap) && active == (set x | x in path) && c in heap && c !in active
    requires path != [] ==> ChildOf(Node(c), path[|path| - 1])
    ensures Chain(path + [c], heap) && active + {c} == set x | x in path + [c]
  {
    var inner := path + [c];
    forall i | 0 < i < |inner| ensures ChildOf(Node(inner[i]), inner[i - 1]) {
      if i < |path| {
        assert ChildOf(Node(path[i]), path[i - 1]);
      }
    }
  }

  method JsonSafe(value: Value, ghost heap: set<Container>) returns (ok: bool)
    requires ClosedHeap(heap) && InHeap(value, heap)
    ensures ok <==> Safe(value, 0, heap)
  {
    var stack := [Entry(value, 0, false)];
    var active: set<Container> := {};
    ghost var path: seq<Container> := [];
    Pushed([], stack[0], heap);
    while |stack| > 0
      invariant Walking(stack, active, path, heap)
      invariant PendingSafe(stack, heap) <==> Safe(value, 0, heap)
      decreases StackWeight(stack, heap)
    {
      var e := stack[|stack| - 1];
      if e.exiting {
        LeaveContainer(stack, active, path, heap);
        assert e.value.ref in active; // the removal from the set never fails
        active := active - {e.value.ref};
        path := path[..|path| - 1];
        stack := stack[..|stack| - 1];
        continue;
      }
      stack := stack[..|stack| - 1];
      if e.depth > MAX_SURFACE_PARAM_DEPTH { return false; }
      match e.value
      case Scalar(leaf, _) =>
        if !FiniteLeaf(leaf) { return false; }
      case Foreign(_) =>
        return false;
      case Node(current) =>
        if current in active {
          OpenChildIsUnsafe(path, current, heap);
          return false;
        }
        var entered := EnterContainer(current, e.depth, stack, path, heap);
        if entered.None? { return false; }
        OpenContainer(path, active, current, heap);
        active := active + {current};
        stack := entered.value;
        path := path + [current];
    }
    ok := true;
  }

  /** Push the exit marker and then the children, last child first. */
  method EnterContainer(current: Container, depth: nat, stack: seq<Entry>, ghost path: seq<Container>, ghost heap: set<Container>)
    returns (r: Option<seq<Entry>>)
    requires ClosedHeap(heap) && current in heap && depth == |path| <= MAX_SURFACE_PARAM_DEPTH
    requires Layout(stack, path, heap)
    ensures r.None? ==> !Safe(Node(current), depth, heap)
    ensures r.Some? ==> Layout(r.value, path + [current], heap)
    ensures r.Some? ==> (PendingSafe(r.value, heap) <==> PendingSafe(stack, heap) && Safe(Node(current), depth, heap))
    ensures r.Some? ==> StackWeight(r.value, heap) < StackWeight(stack, heap) + Weight(Node(current), depth, heap)
  {
    var marker := Entry(Node(current), depth, true);
    var pushed := stack + [marker];
    PushMarker(stack, path, current, depth, heap);
    var i := |current.items|;
    while i > 0
      invariant 0 <= i <= |current.items|
      invariant ChildrenPushed(stack, pushed, path + [current], depth, i, heap)
    {
      i := i - 1;
      if current.kind.DictKind? && !current.keys[i].StrKey? {
        return None;
      }
      PushChild(stack, pushed, path + [current], depth, i, heap);
      pushed := pushed + [Entry(current.items[i], depth + 1, false)];
    }
    assert current.items[0..] == current.items;
    r := Some(pushed);
  }

  /** The children from number `i` on of the innermost container have been pushed on `stack`. */
  ghost predicate ChildrenPushed(stack: seq<Entry>, pushed: seq<Entry>, path: seq<Container>, depth: nat, i: nat, heap: set<Container>)
    requires path != [] && path[|path| - 1] in heap && i <= |path[|path| - 1].items|
    requires ClosedHeap(heap)
    reads heap
  {
    var c := path[|path| - 1];
    && Layout(pushed, path, heap)
    && (c.kind.DictKind? ==> forall k | i <= k < |c.items| :: c.keys[k].StrKey?)
    && (PendingSafe(pushed, heap) <==>
        PendingSafe(stack, heap) && forall k | i <= k < |c.items| :: Safe(c.items[k], depth + 1, heap))
    && StackWeight(pushed, heap) == StackWeight(stack, heap) + 1 + Weights(c.items[i..], depth + 1, heap)
  }

  lemma PushMarker(stack: seq<Entry>, path: seq<Container>, current: Container, depth: nat, heap: set<Container>)
    requires ClosedHeap(heap) && current in heap && depth == |path| <= MAX_SURFACE_PARAM_DEPTH && Layout(stack, path, heap)
    ensures ChildrenPushed(stack, stack + [Entry(Node(current), depth, true)], path + [current], depth, |current.items|, heap)
  {
    var marker := Entry(Node(current), depth, true);
    Pushed(stack, marker, heap);
    assert (path + [current])[..|path|] == path && (stack + [marker])[..|stack|] == stack;
    assert current.items[|current.items|..] == [];
  }

  lemma PushChild(stack: seq<Entry>, pushed: seq<Entry>, path: seq<Container>, depth: nat, i: nat, heap: set<Container>)
    requires path != [] && path[|path| - 1] in heap && i < |path[|path| - 1].items|
    requires ClosedHeap(heap) && depth + 1 == |path|
    requires path[|path| - 1].kind.DictKind? ==> path[|path| - 1].keys[i].StrKey?
    requires ChildrenPushed(stack, pushed, path, depth, i + 1, heap)
    ensures ChildrenPushed(stack, pushed + [Entry(path[|path| - 1].items[i], depth + 1, false)], path, depth, i, heap)
  {
    var c := path[|path| - 1];
    var child := Entry(c.items[i], depth + 1, false);
    assert (pushed + [child])[..|pushed|] == pushed;
    assert InHeap(c.items[i], heap) && ChildOf(c.items[i], c);
    Pushed(pushed, child, heap);
    assert c.items[i..] == [c.items[i]] + c.items[i + 1..];
  }
}
