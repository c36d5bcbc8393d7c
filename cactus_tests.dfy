/** The doc-tests and unit tests of `src/lib.rs`, stated against the model: the
    methods exercise the contracts of `Len`, `Eq` and `Fmt`, the lemmas the pure
    operations. */
module CactusTests {
  import opened Wrappers
  import opened CactusStack

  /** Pushes the values of `vs` on top of `h`, first value first. */
  function PushAll<T>(h: Cactus<T>, vs: seq<T>): Cactus<T>
    decreases |vs|
  {
    if vs == [] then h else PushAll(h.Child(vs[0]), vs[1..])
  }

  function Reversed<T>(s: seq<T>): seq<T>
  {
    if s == [] then [] else Reversed(s[1..]) + [s[0]]
  }

  /** After any sequence of pushes the values run in reverse push order, ahead of
      the values that were already there; so the length grows by one per push. */
  lemma {:induction false} PushAllReverses<T>(h: Cactus<T>, vs: seq<T>)
    ensures PushAll(h, vs).Values() == Reversed(vs) + h.Values()
    ensures |PushAll(h, vs).Values()| == |vs| + |h.Values()|
    decreases |vs|
  {
    if vs != [] {
      PushAllReverses(h.Child(vs[0]), vs[1..]);
      ReversedLength(vs[1..]);
    }
  }

  lemma {:induction false} ReversedLength<T>(s: seq<T>)
    ensures |Reversed(s)| == |s|
  {
    if s != [] {
      ReversedLength(s[1..]);
    }
  }

  /** `parent` undoes `child`, whatever the handle and the value. */
  lemma ParentUndoesChild<T>(h: Cactus<T>, v: T)
    ensures h.Child(v).Parent() == Some(h)
    ensures h.Child(v).Val() == Some(v)
    ensures |h.Child(v).Values()| == |h.Values()| + 1
  {
  }

  /** Crate documentation: two stacks grown from one node share it as their parent
      and differ. */
  lemma Branching()
    ensures var c := Cactus<int>.New().Child(1);
            && c.Child(2) != c.Child(3)
            && c.Child(2).Parent() == c.Child(3).Parent() == Some(c)
            && c.Child(2).Values() == [2, 1]
            && c.Child(3).Values() == [3, 1]
  {
  }

  /** `test_simple`. */
  method SimpleTest()
  {
    var r := Cactus<int>.New();
    assert r.IsEmpty();
    var n := r.Len();
    assert n == 0;
    assert r.Val().None? && r.Parent().None?;
    var r2 := r.Child(2);
    assert !r2.IsEmpty();
    n := r2.Len();
    assert n == 1;
    assert r2.Val() == Some(2);
    var r3 := r2.Parent().value;
    assert r3.IsEmpty();
    n := r3.Len();
    assert n == 0;
    var r4 := r.Child(3);
    n := r4.Len();
    assert n == 1;
    assert r4.Val() == Some(3);
    assert r4.Parent().value.IsEmpty();
    var r6 := r4.Child(4);
    n := r6.Len();
    assert n == 2;
    assert r6.Val() == Some(4);
    assert r6.Parent().value.Val() == Some(3);
  }

  /** `test_vals`, checked by draining the values iterator. */
  method ValsTest()
  {
    var c := Cactus<int>.New().Child(3).Child(2).Child(1);
    var it := c.Vals();
    var x := it.Next();
    assert x == Some(1);
    x := it.Next();
    assert x == Some(2);
    x := it.Next();
    assert x == Some(3);
    x := it.Next();
    assert x.None?;
    x := it.Next();
    assert x.None?;
  }

  /** `test_vals_nodes`: the second and third handles `nodes()` yields. */
  method NodesTest()
  {
    var c := Cactus<int>.New().Child(3).Child(2).Child(1);
    var it := c.Nodes();
    var h := it.Next();
    assert h == Some(c);
    h := it.Next();
    assert h == Some(Cactus<int>.New().Child(3).Child(2));
    h := it.Next();
    assert h == Some(Cactus<int>.New().Child(3));
    h := it.Next();
    assert h.None?;
  }

  /** `test_eq`: equality is by values, not by which nodes were allocated. */
  method EqTest()
  {
    var c1 := Cactus<int>.New().Child(1).Child(2);
    var c2 := Cactus<int>.New().Child(1).Child(2);
    var b := Eq(c1, c2);
    assert b;
    var c3 := Cactus<int>.New().Child(2).Child(2);
    b := Eq(c1, c3);
    assert c1.Values()[1] != c3.Values()[1];
    assert !b;
  }

  function ShowDigit(n: int): string
  {
    if 0 <= n <= 9 then [(('0' as int) + n) as char] else "?"
  }

  /** `test_debug`. */
  method DebugTest()
  {
    var c := Cactus<int>.New().Child(3).Child(2).Child(1);
    var s := Fmt(c, ShowDigit);
    assert ShowDigit(1) == "1" && ShowDigit(2) == "2" && ShowDigit(3) == "3";
    assert Rendered(c.Values(), ShowDigit) == ["1", "2", "3"];
    assert Join(["3"]) == "3";
    assert Join(["2", "3"]) == "2, 3";
    assert Join(["1", "2", "3"]) == "1, 2, 3";
    assert s == "Cactus[1, 2, 3]";
  }

  /** `test_take_or_clone_val`: `c2` owns its node alone, `c` is still shared with
      `c1`'s node, and `c1` is alone again once the others are consumed. */
  lemma TakeOrCloneTest()
    ensures var c := Cactus<int>.New().Child(4).Child(3);
            && c.Child(1).TakeOrCloneVal(true) == Some(1)
            && c.TakeOrCloneVal(false) == Some(3)
            && c.Child(2).TakeOrCloneVal(true) == Some(2)
            && c.Parent().value.Val() == Some(4)
  {
  }
}
