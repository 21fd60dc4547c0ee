/** The mutable Python objects that the two graph walks of the repository traverse.

    A value is a scalar, a list or dict with an identity, or anything else.
    `exact` says that `type(x)` is the built-in type itself and not a subclass:
    the state clone asks for exact types, the surface check for `isinstance`. */
module PyObjects {

  import opened Wrappers

  datatype Leaf =
    | NoneLeaf
    | BoolLeaf(b: bool)
    | IntLeaf(i: int)
    | FloatLeaf(finite: bool, payload: real)
    | StrLeaf(s: string)

  datatype Key = StrKey(s: string, exact: bool) | OtherKey(tag: nat)

  datatype Value =
    | Scalar(leaf: Leaf, exact: bool)
    | Node(ref: Container)
    | Foreign(tag: nat)

  datatype Kind = ListKind | DictKind

  /** A list, or a dict in insertion order: `keys[i]` maps to `items[i]`. */
  class Container {
    const kind: Kind
    const exact: bool
    var keys: seq<Key>
    var items: seq<Value>

    constructor (kind: Kind, exact: bool)
      ensures this.kind == kind && this.exact == exact
      ensures keys == [] && items == []
    {
      this.kind, this.exact := kind, exact;
      keys, items := [], [];
    }

    ghost predicate WellFormed()
      reads this
    {
      && (kind.ListKind? ==> keys == [])
      && (kind.DictKind? ==> |keys| == |items| && forall i, j :: 0 <= i < j < |keys| ==> keys[i] != keys[j])
    }
  }

  ghost predicate InHeap(v: Value, heap: set<Container>) {
    v.Node? ==> v.ref in heap
  }

  /** `heap` holds well-formed containers and everything they refer to. */
  ghost predicate ClosedHeap(heap: set<Container>)
    reads heap
  {
    forall c | c in heap :: c.WellFormed() && forall i | 0 <= i < |c.items| :: InHeap(c.items[i], heap)
  }

  /** The value reached from `v` by following item indices. */
  ghost function At(v: Value, path: seq<nat>, heap: set<Container>): (r: Option<Value>)
    reads heap
    decreases |path|
  {
    if path == [] then Some(v)
    else if v.Node? && v.ref in heap && path[0] < |v.ref.items| then At(v.ref.items[path[0]], path[1..], heap)
    else None
  }
}
