/** persistence.py: the memoised deep clone of JSON-shaped state. */
module StateClone {
  import opened Wrappers
  import opened PyObjects

  /** The `memo` dict from source identity to clone. */
  class Memo {
    var table: map<Container, Container>

    constructor ()
      ensures table == map[]
    {
      table := map[];
    }
  }

  // ------------------------------------------------------------------
  // What a clone is
  // ------------------------------------------------------------------

  /** Values on which the focused clone gives up. */
  ghost predicate Rejected(v: Value)
    reads if v.Node? then {v.ref} else {}
  {
    match v
    case Scalar(_, exact) => !exact
    case Node(c) => !c.exact || (c.kind.DictKind? && exists i :: 0 <= i < |c.keys| && !ExactString(c.keys[i]))
    case Foreign(_) => true
  }

  predicate ExactString(k: Key) {
    k.StrKey? && k.exact
  }

  ghost predicate RejectedAt(v: Value, path: seq<nat>, heap: set<Container>)
    reads heap
  {
    var r := At(v, path, heap);
    r.Some? && InHeap(r.value, heap) && Rejected(r.value)
  }

  ghost predicate Mirrors(table: map<Container, Container>, v: Value, w: Value) {
    match v
    case Scalar(_, exact) => exact && w == v
    case Node(c) => c in table && w == Node(table[c])
    case Foreign(_) => false
  }

  ghost predicate MirrorsAll(table: map<Container, Container>, vs: seq<Value>, ws: seq<Value>) {
    |vs| == |ws| && forall i | 0 <= i < |vs| :: Mirrors(table, vs[i], ws[i])
  }

  ghost predicate CopyOf(table: map<Container, Container>, c: Container, d: Container)
    reads c, d
  {
    && c.exact && d.exact && d.kind == c.kind && d.keys == c.keys
    && (forall i | 0 <= i < |c.keys| :: ExactString(c.keys[i]))
    && MirrorsAll(table, c.items, d.items)
  }

  ghost predicate Extends(table: map<Container, Container>, table': map<Container, Container>) {
    forall c | c in table :: c in table' && table'[c] == table[c]
  }

  /** The memo maps source containers one-to-one to containers outside the source. */
  ghost predicate MemoOk(table: map<Container, Container>, heap: set<Container>) {
    && table.Keys <= heap
    && (forall c | c in table :: table[c] !in heap)
    && (forall c, c' | c in table && c' in table && table[c] == table[c'] :: c == c')
  }

  /** Everything entered since `base` is a finished copy. */
  ghost predicate Finished(base: map<Container, Container>, table: map<Container, Container>)
    reads set c | c in table :: c, set c | c in table :: table[c]
  {
    forall c | c in table && c !in base :: CopyOf(table, c, table[c])
  }

  /** `d` is a copy of `c` up to its first `n` entries. */
  ghost predicate PartialCopy(table: map<Container, Container>, c: Container, d: Container, n: nat)
    requires n <= |c.items| && (c.kind.DictKind? ==> n <= |c.keys|)
    reads c, d
  {
    && d.exact && d.kind == c.kind
    && (c.kind.ListKind? ==> d.keys == [])
    && (c.kind.DictKind? ==> d.keys == c.keys[..n] && forall i | 0 <= i < n :: ExactString(c.keys[i]))
    && MirrorsAll(table, c.items[..n], d.items)
  }

  lemma MirrorsMonotone(table: map<Container, Container>, table': map<Container, Container>, vs: seq<Value>, ws: seq<Value>)
    requires Extends(table, table') && MirrorsAll(table, vs, ws)
    ensures MirrorsAll(table', vs, ws)
  {
  }

  // ------------------------------------------------------------------
  // The walk
  // ------------------------------------------------------------------

  /** One call of the recursive clone. None stands for the raised error. */
  method CloneJsonTree(value: Value, memo: Memo, ghost heap: set<Container>) returns (r: Option<Value>)
    requires ClosedHeap(heap) && InHeap(value, heap) && MemoOk(memo.table, heap)
    modifies memo
    ensures Extends(old(memo.table), memo.table) && MemoOk(memo.table, heap)
    ensures forall c | c in memo.table && c !in old(memo.table) :: fresh(memo.table[c])
    ensures r.Some? ==> Mirrors(memo.table, value, r.value) && Finished(old(memo.table), memo.table)
    ensures r.None? ==> exists path :: RejectedAt(value, path, heap)
    decreases heap - memo.table.Keys, 1
  {
    match value
    case Scalar(_, exact) =>
      assert !exact ==> RejectedAt(value, [], heap);
      r := if exact then Some(value) else None;
    case Foreign(_) =>
      assert RejectedAt(value, [], heap);
      r := None;
    case Node(src) =>
      if !src.exact {
        assert RejectedAt(value, [], heap);
        r := None;
      } else if src in memo.table {
        r := Some(Node(memo.table[src]));
      } else {
        r := CloneContainer(src, memo, heap);
      }
  }

  /** The list and dict branches for a container that is not in the memo yet. */
  method CloneContainer(src: Container, memo: Memo, ghost heap: set<Container>) returns (r: Option<Value>)
    requires ClosedHeap(heap) && src in heap && src.exact && MemoOk(memo.table, heap) && src !in memo.table
    modifies memo
    ensures Extends(old(memo.table), memo.table) && MemoOk(memo.table, heap)
    ensures forall c | c in memo.table && c !in old(memo.table) :: fresh(memo.table[c])
    ensures r.Some? ==> Mirrors(memo.table, Node(src), r.value) && Finished(old(memo.table), memo.table)
    ensures r.None? ==> exists path :: RejectedAt(Node(src), path, heap)
    decreases heap - memo.table.Keys, 0
  {
    var cloned := new Container(src.kind, true);
    memo.table := memo.table[src := cloned];
    assert src in heap - old(memo.table).Keys && src !in heap - memo.table.Keys;
    var ok := FillEntries(src, cloned, memo, heap, old(memo.table));
    if !ok { return None; }
    assert src.items[..|src.items|] == src.items;
    r := Some(Node(cloned));
  }

  /** The loop over the entries of `src`. */
  method FillEntries(src: Container, cloned: Container, memo: Memo, ghost heap: set<Container>, ghost base: map<Container, Container>)
    returns (ok: bool)
    requires ClosedHeap(heap) && src in heap && src.exact
    requires Filling(base, memo.table, heap, src, cloned, 0)
    modifies memo, cloned
    ensures Extends(old(memo.table), memo.table) && MemoOk(memo.table, heap)
    ensures forall c | c in memo.table && c !in old(memo.table) :: fresh(memo.table[c])
    ensures ok ==> Filling(base, memo.table, heap, src, cloned, |src.items|)
    ensures !ok ==> exists path :: RejectedAt(Node(src), path, heap)
    decreases heap - memo.table.Keys, 3
  {
    var i := 0;
    while i < |src.items|
      invariant 0 <= i <= |src.items|
      invariant Filling(base, memo.table, heap, src, cloned, i) && Extends(old(memo.table), memo.table)
      invariant forall c | c in memo.table && c !in old(memo.table) :: fresh(memo.table[c])
    {
      ok := CloneEntry(src, cloned, i, memo, heap, base);
      if !ok { return; }
      i := i + 1;
    }
    ok := true;
  }

  /** What holds between two entries of the container `src` that is being filled. */
  ghost predicate Filling(base: map<Container, Container>, table: map<Container, Container>, heap: set<Container>,
                          src: Container, cloned: Container, n: nat)
    requires src in heap && ClosedHeap(heap) && n <= |src.items|
    reads heap, cloned, set c | c in table :: table[c]
  {
    && src !in base && src in table && table[src] == cloned
    && Extends(base, table) && MemoOk(table, heap)
    && PartialCopy(table, src, cloned, n)
    && forall c | c in table && c !in base && c != src :: CopyOf(table, c, table[c])
  }

  /** One turn of the loop: clone entry `n` of `src` and store it in `cloned`. */
  method CloneEntry(src: Container, cloned: Container, n: nat, memo: Memo, ghost heap: set<Container>,
                    ghost base: map<Container, Container>)
    returns (ok: bool)
    requires ClosedHeap(heap) && src in heap && src.exact && n < |src.items|
    requires Filling(base, memo.table, heap, src, cloned, n)
    modifies memo, cloned
    ensures Extends(old(memo.table), memo.table) && MemoOk(memo.table, heap)
    ensures forall c | c in memo.table && c !in old(memo.table) :: fresh(memo.table[c])
    ensures ok ==> Filling(base, memo.table, heap, src, cloned, n + 1)
    ensures !ok ==> exists path :: RejectedAt(Node(src), path, heap)
    decreases heap - memo.table.Keys, 2
  {
    if src.kind.DictKind? && !ExactString(src.keys[n]) {
      assert RejectedAt(Node(src), [], heap);
      return false;
    }
    assert InHeap(src.items[n], heap);
    var child := CloneJsonTree(src.items[n], memo, heap);
    if child.None? {
      ghost var path :| RejectedAt(src.items[n], path, heap);
      assert ([n] + path)[1..] == path;
      assert RejectedAt(Node(src), [n] + path, heap);
      return false;
    }
    MirrorsMonotone(old(memo.table), memo.table, src.items[..n], cloned.items);
    forall c | c in memo.table && c !in base && c != src
      ensures CopyOf(memo.table, c, memo.table[c])
    {
      if c in old(memo.table) {
        MirrorsMonotone(old(memo.table), memo.table, c.items, memo.table[c].items);
      }
    }
    AppendEntry(src, cloned, n, child.value, memo.table);
    ok := true;
  }

  /** `cloned.append(child)`, or `cloned[key] = child` for a key that is new to the clone. */
  method AppendEntry(src: Container, cloned: Container, i: nat, child: Value, ghost table: map<Container, Container>)
    requires src.WellFormed() && i < |src.items| && src != cloned
    requires src.kind.DictKind? ==> ExactString(src.keys[i])
    requires PartialCopy(table, src, cloned, i) && Mirrors(table, src.items[i], child)
    modifies cloned
    ensures PartialCopy(table, src, cloned, i + 1)
  {
    assert src.items[..i + 1] == src.items[..i] + [src.items[i]];
    if src.kind.DictKind? {
      assert src.keys[i] !in cloned.keys;
      assert src.keys[..i + 1] == src.keys[..i] + [src.keys[i]];
      cloned.keys := cloned.keys + [src.keys[i]];
    }
    cloned.items := cloned.items + [child];
  }

  // ------------------------------------------------------------------
  // What the caller gets, said without the memo
  // ------------------------------------------------------------------

  /** Equal as far as one can see without following a reference. */
  ghost predicate SameFace(v: Value, w: Value)
    reads if v.Node? then {v.ref} else {}, if w.Node? then {w.ref} else {}
  {
    if v.Node? && w.Node? then
      v.ref.kind == w.ref.kind && w.ref.exact && v.ref.keys == w.ref.keys && |v.ref.items| == |w.ref.items|
    else v == w
  }

  /** Two walks along `path` end at values that look the same. */
  ghost predicate AgreeAt(v: Value, heap: set<Container>, w: Value, copies: set<Container>, path: seq<nat>)
    reads heap, copies
  {
    var a, b := At(v, path, heap), At(w, path, copies);
    && a.Some? == b.Some?
    && (a.Some? ==> && InHeap(a.value, heap) && InHeap(b.value, copies) && a.value.Node? == b.value.Node?
                    && SameFace(a.value, b.value))
  }

  /** Two paths meet in the same container on both sides or on neither. */
  ghost predicate AliasAlike(v: Value, heap: set<Container>, w: Value, copies: set<Container>, p: seq<nat>, q: seq<nat>)
    reads heap, copies
  {
    var a, b := At(v, p, heap), At(v, q, heap);
    a.Some? && b.Some? && a.value.Node? && b.value.Node? ==>
      (a == b <==> At(w, p, copies) == At(w, q, copies))
  }

  /** `w` is the graph of `v` again: same leaves, keys, order, sharing and cycles. */
  ghost predicate FaithfulClone(v: Value, heap: set<Container>, w: Value, copies: set<Container>)
    reads heap, copies
  {
    && (forall path :: AgreeAt(v, heap, w, copies, path))
    && (forall p, q :: AliasAlike(v, heap, w, copies, p, q))
  }

  lemma {:induction false} PathsMirror(table: map<Container, Container>, heap: set<Container>, copies: set<Container>,
                                       v: Value, w: Value, path: seq<nat>)
    requires ClosedHeap(heap) && MemoOk(table, heap) && Finished(map[], table)
    requires copies == set c | c in table :: table[c]
    requires Mirrors(table, v, w)
    ensures At(v, path, heap).Some? == At(w, path, copies).Some?
    ensures At(v, path, heap).Some? ==> Mirrors(table, At(v, path, heap).value, At(w, path, copies).value)
    decreases |path|
  {
    if path != [] && v.Node? {
      assert CopyOf(table, v.ref, w.ref);
      if path[0] < |v.ref.items| {
        PathsMirror(table, heap, copies, v.ref.items[path[0]], w.ref.items[path[0]], path[1..]);
      }
    }
  }

  lemma MirrorsMeanFaithful(table: map<Container, Container>, heap: set<Container>, copies: set<Container>, v: Value, w: Value)
    requires ClosedHeap(heap) && MemoOk(table, heap) && Finished(map[], table)
    requires copies == set c | c in table :: table[c]
    requires Mirrors(table, v, w)
    ensures FaithfulClone(v, heap, w, copies)
    ensures forall path :: !RejectedAt(v, path, heap)
  {
    forall path
      ensures AgreeAt(v, heap, w, copies, path) && !RejectedAt(v, path, heap)
    {
      PathsMirror(table, heap, copies, v, w, path);
      var a := At(v, path, heap);
      if a.Some? && a.value.Node? {
        assert CopyOf(table, a.value.ref, table[a.value.ref]);
      }
    }
    forall p, q
      ensures AliasAlike(v, heap, w, copies, p, q)
    {
      PathsMirror(table, heap, copies, v, w, p);
      PathsMirror(table, heap, copies, v, w, q);
    }
  }

  /** The whole clone. None stands for falling back to the general deep copy,
      which happens exactly when some reachable value is rejected. */
  method CloneState(value: Container, ghost heap: set<Container>) returns (r: Option<Container>, ghost copies: set<Container>)
    requires ClosedHeap(heap) && value in heap
    ensures fresh(copies)
    ensures r.Some? ==> r.value in copies && FaithfulClone(Node(value), heap, Node(r.value), copies)
    ensures r.None? <==> exists path :: RejectedAt(Node(value), path, heap)
  {
    var memo := new Memo();
    var cloned := CloneJsonTree(Node(value), memo, heap);
    if cloned.None? {
      return None, {};
    }
    copies := set c | c in memo.table :: memo.table[c];
    MirrorsMeanFaithful(memo.table, heap, copies, Node(value), cloned.value);
    r := Some(cloned.value.ref);
  }
}
