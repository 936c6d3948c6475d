/**
 * A model of JSAllCollection, the host object behind `document.all`-style
 * collections in the JavaScriptCore bridge: an ordered list of node
 * instances with the script-visible members `item`, `add`, `remove` and
 * `length`.
 *
 * Script values are abstracted to tagged values, node instances to opaque
 * (possibly null) references, and thrown errors to an error kind.
 */
module AllCollection {

  // ---------------------------------------------------------------------
  // Values crossing the script boundary
  // ---------------------------------------------------------------------

  datatype Option<T> = None | Some(value: T)

  datatype Result<T, E> = Success(value: T) | Failure(error: E)

  /** A pointer to a node instance; `Null` is the null pointer. */
  datatype NodeRef = Null | Node(id: nat)

  /** The values of the native unsigned size type (64 bits wide). */
  type SizeT = n: int | 0 <= n < 0x1_0000_0000_0000_0000

  /**
   * What a script value's numeric conversion yields once cast to an unsigned
   * size: an index (the number truncated toward zero), or `NoIndex` when the
   * cast is undefined (NaN, an infinity, a number at or below -1, or one of
   * 2^64 or more; size_t is taken to be 64 bits wide).
   */
  datatype IndexConversion = Index(n: SizeT) | NoIndex

  /**
   * A script argument. An object carries the node instance stored as its
   * private data (`Null` when it has none); every value carries what its
   * numeric conversion yields as an index.
   */
  datatype Value = Object(node: NodeRef, asIndex: IndexConversion) | Primitive(asIndex: IndexConversion)

  /** The two errors `add` and `remove` throw. */
  datatype CallError = ArgumentsRequired | FirstArgumentNotObject

  /** How `add` and `remove` complete: returning undefined, or throwing. */
  datatype Completion = Undefined | Threw(error: CallError)

  /** The four members the collection itself answers. */
  datatype CollectionProperty = ItemProperty | AddProperty | RemoveProperty | LengthProperty

  /** What a property read yields. */
  datatype PropertyValue =
    | Function(property: CollectionProperty)  // the bound function for item/add/remove
    | Number(n: nat)                          // the value of length
    | Inherited(name: string)                 // deferred to the base host object

  // ---------------------------------------------------------------------
  // Sequence operations the vector supports
  // ---------------------------------------------------------------------

  /** The index of the first occurrence of `x` in `s`, or `|s|` when absent. */
  function FirstIndex(s: seq<NodeRef>, x: NodeRef): (k: nat)
    ensures k <= |s|
    ensures k < |s| <==> x in s
    ensures k < |s| ==> s[k] == x
    ensures forall j :: 0 <= j < k ==> s[j] != x
  {
    if s == [] then 0
    else if s[0] == x then 0
    else 1 + FirstIndex(s[1..], x)
  }

  /** A linear search from the front, as std::find does over the vector. */
  method FindFirst(s: seq<NodeRef>, x: NodeRef) returns (k: nat)
    ensures k <= |s|
    ensures k < |s| ==> s[k] == x
    ensures forall j :: 0 <= j < k ==> s[j] != x
    ensures k == FirstIndex(s, x)
  {
    k := 0;
    while k < |s| && s[k] != x
      invariant k <= |s|
      invariant forall j :: 0 <= j < k ==> s[j] != x
    {
      k := k + 1;
    }
  }

  /** `s` with the element at position `i` erased and the tail shifted down. */
  function Erase(s: seq<NodeRef>, i: nat): (r: seq<NodeRef>)
    requires i < |s|
    ensures |r| == |s| - 1
    ensures forall j :: 0 <= j < i ==> r[j] == s[j]
    ensures forall j :: i <= j < |r| ==> r[j] == s[j + 1]
  {
    s[..i] + s[i + 1..]
  }

  /** `s` with `x` inserted at position `i` and the tail shifted up. */
  function Insert(s: seq<NodeRef>, i: nat, x: NodeRef): (r: seq<NodeRef>)
    requires i <= |s|
    ensures |r| == |s| + 1
    ensures r[i] == x
    ensures forall j :: 0 <= j < i ==> r[j] == s[j]
    ensures forall j :: i < j < |r| ==> r[j] == s[j - 1]
  {
    s[..i] + [x] + s[i..]
  }

  /** Erasing a position and inserting at that same position overwrites it. */
  lemma EraseThenInsertOverwrites(s: seq<NodeRef>, i: nat, x: NodeRef)
    requires i < |s|
    ensures Insert(Erase(s, i), i, x) == s[i := x]
  {
  }

  /** Inserting and then erasing at the same position gives the list back. */
  lemma EraseUndoesInsert(s: seq<NodeRef>, i: nat, x: NodeRef)
    requires i <= |s|
    ensures Erase(Insert(s, i, x), i) == s
  {
  }

  /** Removing the last position after an append gives the list back. */
  lemma EraseUndoesAppend(s: seq<NodeRef>, x: NodeRef)
    ensures Erase(s + [x], |s|) == s
  {
  }

  /**
   * Replacing the first occurrence of `x` by `x` itself changes nothing:
   * this is what `add(node, other)` does, since it passes `node` as its own
   * "before" node.
   */
  lemma ReplaceFirstBySelfIsIdentity(s: seq<NodeRef>, x: NodeRef)
    requires x in s
    ensures s[FirstIndex(s, x) := x] == s
  {
  }

  // ---------------------------------------------------------------------
  // Argument handling of add
  // ---------------------------------------------------------------------

  /**
   * The (node, before) pair `add` hands to internalAdd, or the error it
   * throws. "before" is taken from the FIRST argument whenever exactly two
   * arguments are given and the second is an object.
   */
  function AddOperands(args: seq<Value>): (r: Result<(NodeRef, NodeRef), CallError>)
    ensures |args| < 1 <==> r == Failure(ArgumentsRequired)
    ensures r == Failure(FirstArgumentNotObject) <==> |args| >= 1 && !args[0].Object?
    ensures r.Success? ==> r.value.0 == args[0].node
    ensures r.Success? ==> r.value.1 == Null || r.value.1 == r.value.0
    ensures r.Success? && |args| == 2 && args[1].Object? ==> r.value.1 == r.value.0
    ensures r.Success? && (|args| != 2 || !args[1].Object?) ==> r.value.1 == Null
  {
    if |args| < 1 then Failure(ArgumentsRequired)
    else if !args[0].Object? then Failure(FirstArgumentNotObject)
    else
      var node := args[0].node;
      var hasBefore := |args| == 2 && args[1].Object?;
      Success((node, if hasBefore then node else Null))
  }

  /** Whether `add(args)` on a collection holding `nodes` is defined. */
  predicate AddDefined(nodes: seq<NodeRef>, args: seq<Value>)
  {
    var ops := AddOperands(args);
    ops.Success? && ops.value.1 != Null ==> ops.value.1 in nodes
  }

  /** A call of `add` with a second object argument leaves the list as it was. */
  lemma AddWithBeforeIsNoOp(nodes: seq<NodeRef>, args: seq<Value>)
    requires AddDefined(nodes, args)
    requires |args| == 2 && args[0].Object? && args[1].Object?
    ensures AddOperands(args).Success?
    ensures var ops := AddOperands(args);
            ops.value.1 != Null ==> nodes[FirstIndex(nodes, ops.value.1) := ops.value.0] == nodes
  {
    var ops := AddOperands(args);
    if ops.value.1 != Null {
      ReplaceFirstBySelfIsIdentity(nodes, ops.value.0);
    }
  }

  // ---------------------------------------------------------------------
  // Property table
  // ---------------------------------------------------------------------

  /** The four properties in declaration order. */
  const Properties: seq<CollectionProperty> := [ItemProperty, AddProperty, RemoveProperty, LengthProperty]

  /**
   * The static name -> property table: four names, each property reached
   * by exactly one of them.
   */
  function PropertyMap(): (m: map<string, CollectionProperty>)
    ensures |m| == 4
    ensures forall i :: 0 <= i < |Properties| ==> Properties[i] in m.Values
    ensures forall a, b :: a in m && b in m && a != b ==> m[a] != m[b]
  {
    var m := map["item" := ItemProperty, "add" := AddProperty,
                 "remove" := RemoveProperty, "length" := LengthProperty];
    assert m["item"] in m.Values && m["add"] in m.Values;
    assert m["remove"] in m.Values && m["length"] in m.Values;
    m
  }

  /**
   * The enumerable property names: the table's keys without repeats, the
   * i-th naming the i-th property in declaration order.
   */
  function PropertyNames(): (names: seq<string>)
    ensures |names| == |Properties|
    ensures forall i, j :: 0 <= i < j < |names| ==> names[i] != names[j]
    ensures forall name :: name in PropertyMap() <==> name in names
    ensures forall i :: 0 <= i < |names| ==> PropertyMap()[names[i]] == Properties[i]
  {
    ["item", "add", "remove", "length"]
  }

  // ---------------------------------------------------------------------
  // The collection
  // ---------------------------------------------------------------------

  class AllCollection {
    /** The ordered node instances (m_nodes). */
    var nodes: seq<NodeRef>

    /** Reading a property by name. */
    function GetProperty(name: string): (r: PropertyValue)
      reads this
      ensures r.Inherited? <==> name !in PropertyMap()
      ensures r.Inherited? ==> r.name == name
      ensures r.Number? <==> name == "length"
      ensures r.Number? ==> r.n == |nodes|
      ensures r.Function? ==> name in PropertyMap() && r.property == PropertyMap()[name]
                              && r.property != LengthProperty
    {
      if name in PropertyMap() then
        match PropertyMap()[name]
        case ItemProperty => Function(ItemProperty)
        case AddProperty => Function(AddProperty)
        case RemoveProperty => Function(RemoveProperty)
        case LengthProperty => Number(|nodes|)
      else
        Inherited(name)
    }

    /**
     * `item(index)`: the node at `index`, or `None` (undefined to the
     * script) when the argument is missing or the index is out of range.
     */
    function Item(args: seq<Value>): (r: Option<NodeRef>)
      reads this
      requires |args| >= 1 ==> args[0].asIndex.Index?
      ensures r.Some? <==> |args| >= 1 && args[0].asIndex.n < |nodes|
      ensures r.Some? ==> r.value == nodes[args[0].asIndex.n]
    {
      if |args| < 1 then None
      else
        var index := args[0].asIndex.n;
        if index >= |nodes| then None else Some(nodes[index])
    }

    /**
     * internalAdd: with a null `before`, append; otherwise erase the first
     * occurrence of `before` and insert `node` where it was.
     */
    method InternalAdd(node: NodeRef, before: NodeRef)
      requires before != Null ==> before in nodes
      modifies this
      ensures before == Null ==> nodes == old(nodes) + [node]
      ensures before != Null ==> nodes == old(nodes)[FirstIndex(old(nodes), before) := node]
    {
      if before != Null {
        var it := FindFirst(nodes, before);
        EraseThenInsertOverwrites(nodes, it, node);
        nodes := Erase(nodes, it);
        nodes := Insert(nodes, it, node);
      } else {
        nodes := nodes + [node];
      }
    }

    /** `add(node[, before])`. */
    method Add(args: seq<Value>) returns (r: Completion)
      requires AddDefined(nodes, args)
      modifies this
      ensures AddOperands(args).Failure? ==> r == Threw(AddOperands(args).error) && nodes == old(nodes)
      ensures AddOperands(args).Success? ==> r == Undefined
      ensures AddOperands(args).Success? && AddOperands(args).value.1 == Null ==>
                nodes == old(nodes) + [args[0].node]
      ensures AddOperands(args).Success? && AddOperands(args).value.1 != Null ==>
                nodes == old(nodes)
    {
      var ops := AddOperands(args);
      match ops
      case Failure(e) =>
        r := Threw(e);
      case Success((node, before)) =>
        if before != Null {
          AddWithBeforeIsNoOp(nodes, args);
        }
        InternalAdd(node, before);
        r := Undefined;
    }

    /** `remove(index)`: erase the node at `index`, without a bounds check. */
    method Remove(args: seq<Value>) returns (r: Completion)
      requires |args| >= 1 ==> args[0].asIndex.Index? && args[0].asIndex.n < |nodes|
      modifies this
      ensures |args| < 1 ==> r == Threw(ArgumentsRequired) && nodes == old(nodes)
      ensures |args| >= 1 ==> r == Undefined && nodes == Erase(old(nodes), args[0].asIndex.n)
    {
      if |args| < 1 {
        r := Threw(ArgumentsRequired);
        return;
      }
      var index := args[0].asIndex.n;
      nodes := Erase(nodes, index);
      r := Undefined;
    }
  }
}
