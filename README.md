# JSAllCollection model

A Dafny model of `JSAllCollection`. This is the host object that the
JavaScriptCore bridge exposes to scripts as an HTML "all" collection. The
collection keeps an ordered vector of node instances, `m_nodes`. Scripts see
four members:

- `item(index)`: a bounds-checked lookup. When nothing is found it returns a null pointer, which scripts see as `undefined`;
- `add(node[, before])`: appends a node, or overwrites the position of `before`;
- `remove(index)`: erases by position, with no bounds check;
- `length`: the size of the vector.

A fixed name-to-property table decides which names the collection answers
itself. Every other name goes to the base host object.

The model is in `all_collection.dfy`, in module `AllCollection`:

- `AllCollection` is a class. Its field `nodes: seq<NodeRef>` stands for
  `m_nodes`. `InternalAdd`, `Add` and `Remove` change that field in place
  (`modifies this`). `Item` and `GetProperty` are read-only functions.
- `NodeRef` is a pointer to a node instance. `Null` is the null pointer.
- `Value` is a script argument. An `Object` carries the node instance
  stored as its private data. Every argument, object or primitive, also
  carries what its numeric conversion yields once cast to `size_t`: an
  `Index` (a `SizeT`, below 2^64), or `NoIndex` when the cast is undefined.
  Undefined casts come from NaN, an infinity, a number at or below −1, or a
  number of 2^64 or more. The number is truncated toward zero first, so −0.5
  gives index 0. `size_t` is taken to be 64 bits wide.
- `Completion` and `CallError` stand for "returned undefined" and the two
  errors that are thrown.
- `std::find` is the method `FindFirst`, a loop. It is proved against the
  recursive function `FirstIndex`. `vector::erase` and `vector::insert` are
  the functions `Erase` and `Insert`.

The model keeps two behaviours of the source as they are written:

- `add` reads the "before" instance from the first argument, not the
  second (all_collection.cc:92). So whenever exactly two arguments are given
  and the second is an object, "before" is the node being added.
- `internalAdd` with a non-null `before` erases the first occurrence of
  `before` and inserts `node` at that same position. The net effect is to
  overwrite that position, not to insert before it. `EraseThenInsertOverwrites`
  proves this.

Taken together, `add(node, other)` leaves the list unchanged when `node` is
present. When `node`'s instance is null, "before" is null too and the call
appends.

The model turns three kinds of undefined behaviour in the source into
preconditions:

- `internalAdd` with a `before` that is not in the list, which erases
  `end()`;
- `remove` with an index at or past the size;
- `item` or `remove` given an argument whose number cannot be cast to
  `size_t` (`NoIndex`). Arguments whose conversion gives a valid index are
  admitted, whether they are objects or primitives.

Two further cases of undefined behaviour are not made preconditions. Both
are listed under "Left out":

- `internalAdd` reuses an invalidated iterator;
- `item` dereferences a null instance.

## Model

| member | source | states |
|---|---|---|
| `AllCollection.FirstIndex` | bridge/bindings/jsc/DOM/all_collection.cc:117 | the result is the first position holding `x` (no earlier position holds it), and it equals the size exactly when `x` is absent |
| `AllCollection.FindFirst` | bridge/bindings/jsc/DOM/all_collection.cc:117 | the front-to-back search stops at the first position holding `x`, or at the end; its result equals `FirstIndex` |
| `AllCollection.Erase` | bridge/bindings/jsc/DOM/all_collection.cc:110 | erasing position `i` shortens the list by one, keeps everything before `i`, and shifts everything after `i` down by one |
| `AllCollection.Insert` | bridge/bindings/jsc/DOM/all_collection.cc:119 | inserting at `i` lengthens the list by one, puts `x` at `i`, keeps everything before `i`, and shifts the rest up by one |
| `AllCollection.EraseThenInsertOverwrites` | bridge/bindings/jsc/DOM/all_collection.cc:116-119 | erasing a position and inserting at the same position equals overwriting that one position: the length is unchanged and every other index is unchanged |
| `AllCollection.EraseUndoesInsert` | bridge/bindings/jsc/DOM/all_collection.cc:118-119 | a fact about the `Insert` and `Erase` helpers that model these two vector calls: for every list and position, erasing at the position just inserted at gives the list back |
| `AllCollection.EraseUndoesAppend` | bridge/bindings/jsc/DOM/all_collection.cc:120-121 | a fact about the append at these lines and the `Erase` helper: for every list, erasing the last position after an append gives the list back |
| `AllCollection.ReplaceFirstBySelfIsIdentity` | bridge/bindings/jsc/DOM/all_collection.cc:91-95 | overwriting the first occurrence of `x` with `x` leaves the list unchanged |
| `AllCollection.AddOperands` | bridge/bindings/jsc/DOM/all_collection.cc:70-93 | no arguments gives the "1 arguments required" error. A non-object first argument gives the "should be a object" error. Otherwise the node is the first argument's instance. "before" is that same instance when exactly two arguments are given and the second is an object, and null in every other case |
| `AllCollection.AddWithBeforeIsNoOp` | bridge/bindings/jsc/DOM/all_collection.cc:83-95 | `add` with two object arguments hands internalAdd a "before" that, when non-null, is the added node itself, so the list comes out unchanged |
| `AllCollection.PropertyMap` | bridge/bindings/jsc/DOM/all_collection.cc:41-49 | the table has exactly four names. Every collection property is reached by one of them, and distinct names reach distinct properties |
| `AllCollection.PropertyNames` | bridge/bindings/jsc/DOM/all_collection.cc:31-39 | the list holds exactly the table's names, with no repeats, in the order item, add, remove, length: the i-th name maps to the i-th property in declaration order |
| `AllCollection.AllCollection.GetProperty` | bridge/bindings/jsc/DOM/all_collection.cc:10-29 | a name falls through to the base host object exactly when it is not one of the four table names. `length` is the only name that yields a number, and that number is the list's size. `item`, `add` and `remove` yield their bound functions |
| `AllCollection.AllCollection.Item` | bridge/bindings/jsc/DOM/all_collection.cc:51-66 | the result is `None` (undefined to the script) when there is no argument or the index is at or past the size; otherwise it is the node at that index. The call reads and does not change the collection |
| `AllCollection.AllCollection.InternalAdd` | bridge/bindings/jsc/DOM/all_collection.cc:115-124 | a null `before` appends `node`. A `before` present in the list has its first position overwritten by `node`; the length and every other position are unchanged. This is the outcome of the usual library behaviour for the reused iterator |
| `AllCollection.AllCollection.Add` | bridge/bindings/jsc/DOM/all_collection.cc:68-98 | both argument errors throw and leave the list unchanged. Without a usable second argument, or with a null instance, the node is appended. With a second object argument and a non-null instance, the list is unchanged. A call that does not throw returns undefined |
| `AllCollection.AllCollection.Remove` | bridge/bindings/jsc/DOM/all_collection.cc:100-113 | no argument throws "1 arguments required" and changes nothing. Otherwise the node at the index is erased, the list shrinks by one, and later nodes shift down |

## Left out

- Conversion between script values and native values is not modelled: `JSValueToNumber` (including `valueOf`/`toString` on objects), `JSValueToObject`, `JSValueMakeNumber` and `JSObjectGetPrivate`. Each argument arrives already tagged as an object (with its private instance) or as a primitive, together with the result of its conversion to `size_t`. The model assumes this conversion does not change the collection. In the source, an object index's `valueOf`/`toString` runs script code after the argument is read and before the bounds check (all_collection.cc:57-60) or the erase (all_collection.cc:107-110). Such code could call `add` or `remove` on the same collection, and the model checks the index against the size at call time.
- How a thrown error object is built is not modelled. Only which of the two errors is thrown is kept.
- `AllCollection.AllCollection.Item`: returns the stored instance rather than its `object` field. A null instance stored by `add` (from an object without node private data) is returned as `Null`. The source dereferences it (all_collection.cc:65), which is undefined behaviour. The model does not make this a precondition.
- `AllCollection.AllCollection.Item`, `AllCollection.AllCollection.Remove`: an argument whose number cannot be cast to `size_t` is excluded by a precondition, because the cast is undefined behaviour. Examples are `item("a")`, `item(undefined)`, `remove(-1)` and `remove(1e20)`.
- `AllCollection.AllCollection.InternalAdd`: with a non-null `before`, the source passes `insert` the iterator that `erase` has just invalidated (all_collection.cc:118-119). Under the C++ standard that is undefined behaviour. The model gives what the usual vector implementation does: the erased position is reused, so the call replaces one element.
- `HostObject::getProperty`, the base lookup, is not part of this model. It is represented by the `Inherited(name)` outcome.
- The bound function objects (`m_item`, `m_add`, `m_remove`) and the collection's construction are not part of this model.
