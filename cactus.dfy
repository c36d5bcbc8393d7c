/** An immutable cactus stack (parent-pointer tree), as in `src/lib.rs`.

    A handle is either empty or a node holding a value and the handle of its parent.
    Every node is immutable and is only ever created on top of an existing chain, so
    a handle is modelled as an inductive value: its chain is finite and acyclic by
    construction, and `Values()` (the values from the handle up to the root) is the
    abstract view against which every operation is specified. */
module CactusStack {
  import opened Wrappers

  datatype Cactus<T> = Empty | Node(val: T, parent: Cactus<T>)
  {
    /** The values from this handle towards the root, this handle's value first. */
    function Values(): seq<T>
      decreases this
    {
      match this
      case Empty => []
      case Node(v, p) => [v] + p.Values()
    }

    /** `Cactus::new`: the empty stack. */
    static function New(): (c: Cactus<T>)
      ensures c.Values() == []
    {
      Empty
    }

    /** `is_empty`: the handle holds no node. */
    function IsEmpty(): (b: bool)
      ensures b <==> Values() == []
    {
      Empty?
    }

    /** `child`: a fresh node holding `v` whose parent is this handle's node.
        The receiver is a value, so it is untouched. */
    function Child(v: T): (c: Cactus<T>)
      ensures c.Values() == [v] + Values()
      ensures c.Val() == Some(v)
      ensures c.Parent() == Some(this)
      ensures !c.IsEmpty()
    {
      Node(v, this)
    }

    /** `parent`: `None` on an empty handle, otherwise the handle of the parent node
        (which is itself empty when this node is a root). */
    function Parent(): (r: Option<Cactus<T>>)
      ensures r.None? <==> Values() == []
      ensures r.Some? ==> r.value.Values() == Values()[1..]
    {
      match this
      case Empty => None
      case Node(_, p) => Some(p)
    }

    /** `val`: `None` on an empty handle, otherwise the value of the node, which is
        the first of `Values()`. */
    function Val(): (r: Option<T>)
      ensures r.None? <==> Values() == []
      ensures r.Some? ==> Values() != [] && r.value == Values()[0]
    {
      match this
      case Empty => None
      case Node(v, _) => Some(v)
    }

    /** `take_or_clone_val`: consumes the handle and yields its value. `sole` stands
        for `Rc::try_unwrap` succeeding (this handle is the node's only owner), in
        which case the value is moved out; otherwise it is cloned. Either way the
        caller receives the node's value. */
    function TakeOrCloneVal(sole: bool): (r: Option<T>)
      ensures r.None? <==> Values() == []
      ensures r.Some? ==> Values() != [] && r.value == Values()[0]
    {
      match this
      case Empty => None
      case Node(v, _) =>
        if sole then Some(v)  // moved out of the unwrapped node
        else Some(v)          // a clone of the shared node's value
    }

    /** `nodes`: an iterator over the handles from this one towards the root. */
    method Nodes() returns (it: NodesIter<T>)
      ensures fresh(it) && it.Valid()
      ensures it.start == this && it.next == this && it.yielded == []
    {
      it := new NodesIter(this);
    }

    /** `vals`: an iterator over the values from this handle towards the root. */
    method Vals() returns (it: ValsIter<T>)
      ensures fresh(it) && it.Valid()
      ensures it.start == this && it.next == this && it.yielded == []
    {
      it := new ValsIter(this);
    }

    /** `len`: counts the items the values iterator yields until it is exhausted. */
    method Len() returns (n: nat)
      ensures n == |Values()|
    {
      var it := Vals();
      n := 0;
      while true
        invariant it.Valid() && it.start == this
        invariant n == |it.yielded|
        decreases |it.next.Values()|
      {
        var x := it.Next();
        if x.None? {
          break;
        }
        n := n + 1;
      }
    }
  }

  /** The handles `nodes()` yields from `c`: `c` itself, then each ancestor, never
      the empty handle past the root. */
  function Suffixes<T>(c: Cactus<T>): seq<Cactus<T>>
  {
    match c
    case Empty => []
    case Node(_, p) => [c] + Suffixes(p)
  }

  /** `CactusValsIter`: its only real state is the cursor `next`. `start` is the
      handle the iterator was made from and `yielded` what it has produced so far. */
  class ValsIter<T> {
    var next: Cactus<T>
    ghost const start: Cactus<T>
    ghost var yielded: seq<T>

    ghost predicate Valid()
      reads this
    {
      yielded + next.Values() == start.Values()
    }

    constructor (c: Cactus<T>)
      ensures Valid()
      ensures start == c && next == c && yielded == []
    {
      next := c;
      start := c;
      yielded := [];
    }

    /** `CactusValsIter::next`: yields the cursor's value and moves the cursor to the
        parent; once past the root it yields `None` and stays exhausted. */
    method Next() returns (r: Option<T>)
      requires Valid()
      modifies this
      ensures Valid()
      ensures r.None? <==> old(next).Empty?
      ensures r.None? ==> next == old(next) && yielded == old(yielded) && yielded == start.Values()
      ensures r.Some? ==> r.value == old(next).val && next == old(next).parent
      ensures r.Some? ==> yielded == old(yielded) + [r.value]
      ensures r.Some? ==> |old(yielded)| < |start.Values()| && r.value == start.Values()[|old(yielded)|]
    {
      match next
      case Empty =>
        r := None;
      case Node(v, p) =>
        next := p;
        yielded := yielded + [v];
        r := Some(v);
    }
  }

  /** `CactusNodesIter`: like `ValsIter`, but yields handles. */
  class NodesIter<T> {
    var next: Cactus<T>
    ghost const start: Cactus<T>
    ghost var yielded: seq<Cactus<T>>

    ghost predicate Valid()
      reads this
    {
      yielded + Suffixes(next) == Suffixes(start)
    }

    constructor (c: Cactus<T>)
      ensures Valid()
      ensures start == c && next == c && yielded == []
    {
      next := c;
      start := c;
      yielded := [];
    }

    /** `CactusNodesIter::next`: yields a handle on the cursor's node and moves the
        cursor to the parent. The k-th handle yielded holds `start.Values()[k..]`. */
    method Next() returns (r: Option<Cactus<T>>)
      requires Valid()
      modifies this
      ensures Valid()
      ensures r.None? <==> old(next).Empty?
      ensures r.None? ==> next == old(next) && yielded == old(yielded)
      ensures r.None? ==> |yielded| == |start.Values()|
      ensures r.Some? ==> r.value == old(next) && next == old(next).parent
      ensures r.Some? ==> yielded == old(yielded) + [r.value]
      ensures r.Some? ==> !r.value.IsEmpty()
      ensures r.Some? ==> |old(yielded)| < |start.Values()|
      ensures r.Some? ==> r.value.Values() == start.Values()[|old(yielded)|..]
    {
      SuffixesLength(start);
      match next
      case Empty =>
        r := None;
      case Node(_, p) =>
        SuffixesAt(start, |yielded|);
        r := Some(next);
        next := p;
        yielded := yielded + [r.value];
    }
  }

  lemma {:induction false} SuffixesLength<T>(c: Cactus<T>)
    ensures |Suffixes(c)| == |c.Values()|
  {
    match c
    case Empty =>
    case Node(_, p) => SuffixesLength(p);
  }

  /** The k-th handle `nodes()` yields is non-empty and holds the values `k..` of
      the handle iterated over. */
  lemma {:induction false} SuffixesAt<T>(c: Cactus<T>, k: nat)
    requires k < |c.Values()|
    ensures |Suffixes(c)| == |c.Values()|
    ensures Suffixes(c)[k].Node?
    ensures Suffixes(c)[k].Values() == c.Values()[k..]
  {
    SuffixesLength(c);
    match c
    case Node(_, p) =>
      if k > 0 {
        SuffixesAt(p, k - 1);
      }
  }

  /** Handles are equal exactly when their value sequences are: the value sequence
      determines the handle. */
  lemma {:induction false} EqualIffSameValues<T>(a: Cactus<T>, b: Cactus<T>)
    ensures a == b <==> a.Values() == b.Values()
  {
    if a.Values() == b.Values() {
      match a
      case Empty =>
      case Node(x, p) =>
        assert b.Values()[0] == x;
        assert p.Values() == a.Values()[1..] == b.Values()[1..] == b.parent.Values();
        EqualIffSameValues(p, b.parent);
    }
  }

  /** `PartialEq::eq`: unequal lengths answer false; otherwise the two value
      iterators are zipped and compared pairwise, stopping at the first mismatch. */
  method Eq<T(==)>(a: Cactus<T>, b: Cactus<T>) returns (r: bool)
    ensures r <==> a.Values() == b.Values()
  {
    var la := a.Len();
    var lb := b.Len();
    if la != lb {
      return false;
    }
    var xs := a.Vals();
    var ys := b.Vals();
    while true
      invariant xs.Valid() && xs.start == a
      invariant ys.Valid() && ys.start == b
      invariant xs.yielded == ys.yielded
      decreases |xs.next.Values()|
    {
      var x := xs.Next();
      if x.None? {
        return true;
      }
      var y := ys.Next();
      if y.None? {
        return true;
      }
      if x.value != y.value {
        return false;
      }
    }
  }

  /** The values rendered one by one with `render`, in order. */
  function Rendered<T>(vs: seq<T>, render: T -> string): (r: seq<string>)
    ensures |r| == |vs|
    ensures forall i :: 0 <= i < |vs| ==> r[i] == render(vs[i])
  {
    if vs == [] then [] else [render(vs[0])] + Rendered(vs[1..], render)
  }

  /** The parts separated by ", ". */
  function Join(parts: seq<string>): string
  {
    if |parts| == 0 then ""
    else if |parts| == 1 then parts[0]
    else parts[0] + ", " + Join(parts[1..])
  }

  /** The `Debug` rendering of a handle: its values from self to root, each rendered
      by `render`, separated by ", " and wrapped in "Cactus[" and "]". */
  function DebugString<T>(c: Cactus<T>, render: T -> string): string
  {
    "Cactus[" + Join(Rendered(c.Values(), render)) + "]"
  }

  lemma {:induction false} JoinSnoc(parts: seq<string>, s: string)
    ensures Join(parts + [s]) == if parts == [] then s else Join(parts) + ", " + s
  {
    if |parts| > 1 {
      assert (parts + [s])[1..] == parts[1..] + [s];
      JoinSnoc(parts[1..], s);
    }
  }

  lemma RenderedSnoc<T>(vs: seq<T>, v: T, render: T -> string)
    ensures Rendered(vs + [v], render) == Rendered(vs, render) + [render(v)]
  {
  }

  /** `Debug::fmt`: writes "Cactus[", then every value of the values iterator with
      ", " before all but the first, then "]". */
  method Fmt<T>(c: Cactus<T>, render: T -> string) returns (s: string)
    ensures s == DebugString(c, render)
  {
    s := "Cactus[";
    var it := c.Vals();
    var i := 0;
    while true
      invariant it.Valid() && it.start == c
      invariant i == |it.yielded|
      invariant s == "Cactus[" + Join(Rendered(it.yielded, render))
      decreases |it.next.Values()|
    {
      ghost var before := it.yielded;
      var x := it.Next();
      if x.None? {
        break;
      }
      if i > 0 {
        s := s + ", ";
      }
      s := s + render(x.value);
      i := i + 1;
      RenderedSnoc(before, x.value, render);
      JoinSnoc(Rendered(before, render), render(x.value));
    }
    s := s + "]";
  }
}
