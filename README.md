# Cactus stack

A model of `cactus`, an immutable cactus stack, also called a spaghetti stack or parent-pointer tree. A handle (`Cactus<T>`) holds either nothing or a node. A node holds a value and the handle of its parent. Pushing (`child`) creates a new node on top of an existing chain and changes nothing. Popping (`parent`) hands back the parent's handle. Many handles can share one ancestry.

Nodes are never mutated and are only ever attached on top of existing chains. So the model represents a handle as the inductive datatype `Cactus<T> = Empty | Node(val, parent)`. The chain is finite and acyclic by construction. The abstraction `Values()` lists the values from the handle up to the root, and every operation is specified against it.

- `wrappers.dfy`: module `Wrappers`, the `Option` type of the queries.
- `cactus.dfy`: module `CactusStack`.
  - The pure operations `new`, `is_empty`, `child`, `parent`, `val` and `take_or_clone_val` are functions.
  - The two iterators are classes `ValsIter` and `NodesIter`. Each has a mutable cursor field `next` and a `Next` method that moves it. Ghost fields record the start handle and what has been yielded so far. Their invariant is "yielded so far ++ what the cursor still holds == everything from the start".
  - `len`, `PartialEq::eq` and `Debug::fmt` are methods whose loops drain values iterators, as in the source. Each is proved against `Values()`.
- `cactus_tests.dfy`: module `CactusTests`, the crate's doc-tests and unit tests stated against the model. Also a lemma that any sequence of pushes yields its values in reverse push order.

## Model

| member | source | states |
|---|---|---|
| CactusStack.Cactus.New | src/lib.rs:82-84 | the new stack has no values |
| CactusStack.Cactus.IsEmpty | src/lib.rs:96-98 | true exactly when the handle has no values |
| CactusStack.Cactus.Child | src/lib.rs:115-119 | the child's values are `v` followed by the receiver's; its `val` is `Some(v)`, its `parent` is `Some(receiver)`, and it is not empty |
| CactusStack.Cactus.Parent | src/lib.rs:132-135 | `None` exactly for the empty handle; otherwise a handle holding all values but the first |
| CactusStack.Cactus.Val | src/lib.rs:147-149 | `None` exactly for the empty handle; otherwise the first value from self towards the root |
| CactusStack.Cactus.TakeOrCloneVal | src/lib.rs:190-195 | `None` exactly for the empty handle; otherwise the node's value, the same whether it is moved out (sole owner) or cloned (shared) |
| CactusStack.Cactus.Nodes | src/lib.rs:160-162 | a fresh node iterator whose cursor is the handle and which has yielded nothing |
| CactusStack.Cactus.Vals | src/lib.rs:173-175 | a fresh values iterator whose cursor is the handle and which has yielded nothing |
| CactusStack.Cactus.Len | src/lib.rs:101-103 | the count of items the values iterator yields before it is exhausted is the number of values from self to root |
| CactusStack.ValsIter.Next | src/lib.rs:221-230 | yields the cursor's value, which is the k-th value of the start handle on the k-th call, and moves the cursor to the parent; once past the root it returns `None` with nothing changed, and by then every value of the start handle has been yielded |
| CactusStack.NodesIter.Next | src/lib.rs:204-213 | yields a non-empty handle on the cursor's node, whose values on the k-th call are the start handle's values from k on, and moves the cursor to the parent; returns `None` only after as many handles as the start has values |
| CactusStack.SuffixesLength | src/lib.rs:160-162 | the node iterator yields as many handles as the start handle has values |
| CactusStack.SuffixesAt | src/lib.rs:207-212 | the k-th handle the node iterator yields is non-empty and holds the start handle's values from position k on |
| CactusStack.EqualIffSameValues | src/lib.rs:232-241 | two handles are the same value exactly when their value sequences are equal |
| CactusStack.Eq | src/lib.rs:232-241 | the length check followed by the pairwise walk answers true exactly when the two value sequences are equal, so it is reflexive, symmetric and transitive, whatever the sharing |
| CactusStack.Fmt | src/lib.rs:245-256 | the loop writes "Cactus[", the rendered values from self to root separated by ", ", then "]" |
| CactusStack.JoinSnoc | src/lib.rs:248-253 | appending one part to a ", "-joined list writes a separator only when the list was non-empty |
| CactusTests.PushAllReverses | src/lib.rs:287-291 | after pushing any sequence of values, the values run in reverse push order ahead of the old ones, and the length grows by one per push |
| CactusTests.ParentUndoesChild | src/lib.rs:269-284 | `h.child(v).parent()` is `Some(h)` and `h.child(v).val()` is `Some(v)`, and the length grows by one |
| CactusTests.Branching | src/lib.rs:54-62 | two children of one node differ, share that node as parent, and hold `[2, 1]` and `[3, 1]` |
| CactusTests.TakeOrCloneTest | src/lib.rs:317-325 | the unit-test scenario yields 1, 3 and 2, and the grandparent keeps its value 4 |

The methods `CactusTests.SimpleTest`, `ValsTest`, `NodesTest`, `EqTest` and `DebugTest` restate `test_simple`, `test_vals`, `test_vals_nodes`, `test_eq` and `test_debug` (src/lib.rs:262-315). Each is a sequence of calls followed by assertions of what the tests expect. The assertions are proved from the contracts above alone.

## Left out

- Reference counting, node reclamation and `Rc::try_unwrap` are not modelled. A handle is a value, so allocation identity and aliasing have no meaning in the model. Whether `take_or_clone_val` moves or clones is a `sole` parameter the caller supplies. Consuming the handle is not expressed.
- CactusStack.Cactus.TakeOrCloneVal: does not determine `sole` from the live handles, because the model has no node identities to count owners by.
- Rust lifetimes and the `&T` borrows returned by `val` and the values iterator are not modelled. The model hands out values.
- `Debug::fmt`'s `fmt::Formatter` and the propagation of write errors through `try!` are left out. `Fmt` builds the string. Each value's `{:?}` rendering is a `render` parameter.
- `len` returns `usize` in the source. The model's `nat` does not wrap, and wrapping would need more nodes than memory can hold.
- Handle equality uses Dafny's `==` on `T` in place of `T: PartialEq`. So it assumes the value type's equality is an equivalence.
- The derived `Clone` and `Default` impls and the marker `impl Eq` are not modelled. They add no behaviour.
- A pointer-identity fast path in equality, hashing of handles, a thread-safe variant, and a variant of take-or-clone that fails on aliasing are not in this version of the source. The model has none of them.
