/** Deep copies of saga contexts on the heap (internal/domain/saga.go): a context is a tree of mutable maps
    and slices, and a copy shares no node with its source. */
module Clone {
  import opened Domain

  class MapNode {
    var fields: map<string, Value>
    constructor (fields: map<string, Value>)
      ensures this.fields == fields
    {
      this.fields := fields;
    }
  }

  class SliceNode {
    var items: seq<Value>
    constructor (items: seq<Value>)
      ensures this.items == items
    {
      this.items := items;
    }
  }

  /** A Go value of type any, as JSON decoding produces it. */
  datatype Value =
    | Text(text: string)
    | Slice(slice: SliceNode)
    | Map(node: MapNode?)

  datatype Contents = Items(items: seq<Value>) | Fields(fields: map<string, Value>) | Other

  /** What some nodes contain at one moment. */
  type Image = map<object, Contents>

  ghost function ContentsOf(node: object): Contents
    reads node
  {
    if node is SliceNode then Items((node as SliceNode).items)
    else if node is MapNode then Fields((node as MapNode).fields)
    else Other
  }

  ghost predicate Pictures(image: Image, nodes: set<object>)
    reads nodes
  {
    image.Keys == nodes && forall node :: node in nodes ==> image[node] == ContentsOf(node)
  }

  lemma {:induction false} HasPicture(nodes: set<object>)
    ensures exists image :: Pictures(image, nodes)
  {
    if nodes == {} {
      assert Pictures(map[], nodes);
    } else {
      var node :| node in nodes;
      HasPicture(nodes - {node});
      var image :| Pictures(image, nodes - {node});
      assert Pictures(image[node := ContentsOf(node)], nodes);
    }
  }

  ghost function ImageOf(nodes: set<object>): (image: Image)
    reads nodes
    ensures Pictures(image, nodes)
  {
    HasPicture(nodes);
    var image :| Pictures(image, nodes);
    image
  }

  /** With these contents, the value is this tree. */
  ghost predicate Depicts(image: Image, v: Value, tree: Json)
    decreases tree
  {
    match v
    case Text(text) => tree == Scalar(text)
    case Slice(slice) =>
      && slice in image && image[slice].Items? && tree.Array? && |image[slice].items| == |tree.items|
      && forall i :: 0 <= i < |tree.items| ==> Depicts(image, image[slice].items[i], tree.items[i])
    case Map(node) =>
      if node == null then tree == NilMap
      else
        && node in image && image[node].Fields? && tree.Object? && image[node].fields.Keys == tree.fields.Keys
        && forall key :: key in tree.fields ==> Depicts(image, image[node].fields[key], tree.fields[key])
  }

  /** The value is this tree, and all its nodes are in `nodes`. */
  ghost predicate Denotes(v: Value, tree: Json, nodes: set<object>)
    reads nodes
  {
    Depicts(ImageOf(nodes), v, tree)
  }

  /** The node is one of those that the value is made of. */
  ghost predicate Occurs(node: object, image: Image, v: Value, tree: Json)
    requires Depicts(image, v, tree)
    decreases tree
  {
    match v
    case Text(_) => false
    case Slice(slice) =>
      node == slice || exists i :: 0 <= i < |tree.items| && Occurs(node, image, image[slice].items[i], tree.items[i])
    case Map(m) =>
      && m != null
      && (node == m || exists key :: key in tree.fields && Occurs(node, image, image[m].fields[key], tree.fields[key]))
  }

  /** The images agree on the nodes that the value is made of. */
  ghost predicate SameWhereUsed(a: Image, b: Image, v: Value, tree: Json)
    requires Depicts(a, v, tree)
  {
    forall node :: node in a && Occurs(node, a, v, tree) ==> node in b && b[node] == a[node]
  }

  /** Changes to nodes that a value is not made of do not change it. */
  lemma {:induction false} Untouched(a: Image, b: Image, v: Value, tree: Json)
    requires Depicts(a, v, tree) && SameWhereUsed(a, b, v, tree)
    ensures Depicts(b, v, tree)
    decreases tree
  {
    match v
    case Text(_) =>
    case Slice(slice) =>
      assert Occurs(slice, a, v, tree);
      forall i | 0 <= i < |tree.items|
        ensures Depicts(b, a[slice].items[i], tree.items[i])
      {
        Untouched(a, b, a[slice].items[i], tree.items[i]);
      }
    case Map(m) =>
      if m != null {
        assert Occurs(m, a, v, tree);
        forall key | key in tree.fields
          ensures Depicts(b, a[m].fields[key], tree.fields[key])
        {
          Untouched(a, b, a[m].fields[key], tree.fields[key]);
        }
      }
  }

  /** Another length, or other keys. */
  predicate Resized(a: Contents, b: Contents) {
    match a
    case Items(items) => b.Items? ==> |b.items| != |items|
    case Fields(fields) => b.Fields? ==> b.fields.Keys != fields.Keys
    case Other => false
  }

  /** Resizing one node that a value is made of changes the value, wherever in it the node occurs. */
  lemma {:induction false} Corrupted(a: Image, b: Image, v: Value, tree: Json, node: object)
    requires Depicts(a, v, tree) && Occurs(node, a, v, tree)
    requires b.Keys == a.Keys && (forall o :: o in a && o != node ==> b[o] == a[o])
    requires node in a && Resized(a[node], b[node])
    ensures !Depicts(b, v, tree)
    decreases tree
  {
    match v
    case Slice(slice) =>
      if node != slice {
        var i :| 0 <= i < |tree.items| && Occurs(node, a, a[slice].items[i], tree.items[i]);
        Corrupted(a, b, a[slice].items[i], tree.items[i], node);
      }
    case Map(m) =>
      if node != m {
        var key :| key in tree.fields && Occurs(node, a, a[m].fields[key], tree.fields[key]);
        Corrupted(a, b, a[m].fields[key], tree.fields[key], node);
      }
  }

  /** A copy has empty maps where the source has nil maps. */
  ghost function Cloned(tree: Json): Json
    decreases tree, 1
  {
    match tree
    case Scalar(_) => tree
    case NilMap => Object(map[])
    case Array(items) => Array(seq(|items|, i requires 0 <= i < |items| => Cloned(items[i])))
    case Object(fields) => Object(ClonedFields(tree, fields.Keys))
  }

  ghost function ClonedFields(tree: Json, keys: set<string>): (r: map<string, Json>)
    requires tree.Object? && keys <= tree.fields.Keys
    ensures r.Keys == keys && forall key :: key in keys ==> r[key] == Cloned(tree.fields[key])
    decreases tree, 0, |keys|
  {
    if keys == {} then map[]
    else
      var key :| key in keys;
      ClonedFields(tree, keys - {key})[key := Cloned(tree.fields[key])]
  }

  /** What a copy is, node by node: equal scalars, arrays of the same length in the same order, maps with the same
      keys, and an empty map for a nil one. */
  ghost predicate SameTree(tree: Json, copy: Json)
    decreases tree
  {
    match tree
    case Scalar(text) => copy == Scalar(text)
    case NilMap => copy == Object(map[])
    case Array(items) =>
      copy.Array? && |copy.items| == |items| && forall i :: 0 <= i < |items| ==> SameTree(items[i], copy.items[i])
    case Object(fields) =>
      && copy.Object? && copy.fields.Keys == fields.Keys
      && forall key :: key in fields ==> SameTree(fields[key], copy.fields[key])
  }

  ghost predicate NoNilMap(tree: Json)
    decreases tree
  {
    match tree
    case Scalar(_) => true
    case NilMap => false
    case Array(items) => forall i :: 0 <= i < |items| ==> NoNilMap(items[i])
    case Object(fields) => forall key :: key in fields ==> NoNilMap(fields[key])
  }

  lemma {:induction false} ClonedIsSame(tree: Json)
    ensures SameTree(tree, Cloned(tree))
    decreases tree
  {
    match tree
    case Scalar(_) =>
    case NilMap =>
    case Array(items) =>
      forall i | 0 <= i < |items|
        ensures SameTree(items[i], Cloned(items[i]))
      {
        ClonedIsSame(items[i]);
      }
    case Object(fields) =>
      forall key | key in fields
        ensures SameTree(fields[key], Cloned(fields[key]))
      {
        ClonedIsSame(fields[key]);
      }
  }

  /** Without nil maps a copy is the very same tree. */
  lemma {:induction false} SameIsEqual(tree: Json, copy: Json)
    requires SameTree(tree, copy) && NoNilMap(tree)
    ensures copy == tree
    decreases tree
  {
    match tree
    case Scalar(_) =>
    case Array(items) =>
      forall i | 0 <= i < |items|
        ensures copy.items[i] == items[i]
      {
        SameIsEqual(items[i], copy.items[i]);
      }
      assert copy.items == items;
    case Object(fields) =>
      forall key | key in fields
        ensures copy.fields[key] == fields[key]
      {
        SameIsEqual(fields[key], copy.fields[key]);
      }
      assert copy.fields == fields;
  }

  /** A value denotes one tree. */
  lemma {:induction false} OneTree(image: Image, v: Value, a: Json, b: Json)
    requires Depicts(image, v, a) && Depicts(image, v, b)
    ensures a == b
    decreases a
  {
    match v
    case Text(_) =>
    case Slice(slice) =>
      forall i | 0 <= i < |a.items|
        ensures a.items[i] == b.items[i]
      {
        OneTree(image, image[slice].items[i], a.items[i], b.items[i]);
      }
      assert a.items == b.items;
    case Map(node) =>
      if node != null {
        forall key | key in a.fields
          ensures a.fields[key] == b.fields[key]
        {
          OneTree(image, image[node].fields[key], a.fields[key], b.fields[key]);
        }
        assert a.fields == b.fields;
      }
  }

  lemma CloneIsFaithful(tree: Json)
    ensures SameTree(tree, Cloned(tree)) && (NoNilMap(tree) ==> Cloned(tree) == tree)
  {
    ClonedIsSame(tree);
    if NoNilMap(tree) { SameIsEqual(tree, Cloned(tree)); }
  }

  /** The value is a copy of the tree, made of these nodes; the very same tree if there is no nil map in it. */
  ghost predicate IsCopy(v: Value, tree: Json, nodes: set<object>)
    reads nodes
  {
    && (exists copy :: Denotes(v, copy, nodes) && SameTree(tree, copy))
    && (NoNilMap(tree) ==> Denotes(v, tree, nodes))
  }

  lemma ClonesAreCopies(v: Value, tree: Json, nodes: set<object>)
    requires Denotes(v, Cloned(tree), nodes)
    ensures IsCopy(v, tree, nodes)
  {
    CloneIsFaithful(tree);
  }

  lemma DenotesMore(v: Value, tree: Json, nodes: set<object>, more: set<object>)
    requires Denotes(v, tree, nodes) && nodes <= more
    ensures Denotes(v, tree, more)
  {
    Untouched(ImageOf(nodes), ImageOf(more), v, tree);
  }

  /** A map is not a part of what it holds. */
  ghost predicate RootApart(v: Value, tree: Json, nodes: set<object>)
    requires Denotes(v, tree, nodes)
    reads nodes
  {
    v.Map? && v.node != null ==>
      forall key :: key in tree.fields ==> Denotes(v.node.fields[key], tree.fields[key], nodes - {v.node})
  }

  lemma ItemsDenoteMore(items: seq<Value>, trees: seq<Json>, nodes: set<object>, more: set<object>)
    requires |items| <= |trees| && nodes <= more
    requires forall j :: 0 <= j < |items| ==> Denotes(items[j], Cloned(trees[j]), nodes)
    ensures forall j :: 0 <= j < |items| ==> Denotes(items[j], Cloned(trees[j]), more)
  {
    forall j | 0 <= j < |items|
      ensures Denotes(items[j], Cloned(trees[j]), more)
    {
      DenotesMore(items[j], Cloned(trees[j]), nodes, more);
    }
  }

  lemma FieldsDenoteMore(fields: map<string, Value>, trees: map<string, Json>, nodes: set<object>, more: set<object>)
    requires fields.Keys <= trees.Keys && nodes <= more
    requires forall key :: key in fields ==> Denotes(fields[key], Cloned(trees[key]), nodes)
    ensures forall key :: key in fields ==> Denotes(fields[key], Cloned(trees[key]), more)
  {
    forall key | key in fields
      ensures Denotes(fields[key], Cloned(trees[key]), more)
    {
      DenotesMore(fields[key], Cloned(trees[key]), nodes, more);
    }
  }

  /** cloneValue. The copy is built of new nodes only. */
  method CloneValue(v: Value, ghost tree: Json, ghost nodes: set<object>)
    returns (copy: Value, ghost copied: set<object>)
    requires Denotes(v, tree, nodes)
    ensures fresh(copied) && Denotes(copy, Cloned(tree), copied) && RootApart(copy, Cloned(tree), copied)
    ensures SameTree(tree, Cloned(tree)) && (NoNilMap(tree) ==> Denotes(copy, tree, copied))
    decreases tree, 2
  {
    match v {
      case Text(text) => copy, copied := v, {};
      case Map(node) => copy, copied := CloneMap(node, tree, nodes);
      case Slice(slice) => copy, copied := CloneSlice(slice, tree, nodes);
    }
    CloneIsFaithful(tree);
  }

  /** The slice case of cloneValue. */
  method CloneSlice(slice: SliceNode, ghost tree: Json, ghost nodes: set<object>)
    returns (copy: Value, ghost copied: set<object>)
    requires Denotes(Slice(slice), tree, nodes)
    ensures fresh(copied) && Denotes(copy, Cloned(tree), copied) && copy.Slice?
    decreases tree, 0
  {
    var items := [];
    copied := {};
    for i := 0 to |slice.items|
      invariant |items| == i && fresh(copied)
      invariant forall j :: 0 <= j < i ==> Denotes(items[j], Cloned(tree.items[j]), copied)
    {
      ghost var more;
      var item;
      item, more := CloneValue(slice.items[i], tree.items[i], nodes);
      ItemsDenoteMore(items, tree.items, copied, copied + more);
      DenotesMore(item, Cloned(tree.items[i]), more, copied + more);
      items := items + [item];
      copied := copied + more;
    }
    var result := new SliceNode(items);
    ItemsDenoteMore(items, tree.items, copied, copied + {result});
    copied := copied + {result};
    copy := Slice(result);
  }

  /** cloneMap: a nil map becomes an empty one. The keys come in any order. */
  method CloneMap(node: MapNode?, ghost tree: Json, ghost nodes: set<object>)
    returns (copy: Value, ghost copied: set<object>)
    requires Denotes(Map(node), tree, nodes)
    ensures fresh(copied) && Denotes(copy, Cloned(tree), copied) && RootApart(copy, Cloned(tree), copied)
    ensures copy.Map? && copy.node != null
    ensures SameTree(tree, Cloned(tree)) && (NoNilMap(tree) ==> Denotes(copy, tree, copied))
    decreases tree, 1
  {
    if node == null {
      var empty := new MapNode(map[]);
      return Map(empty), {empty};
    }
    var fields;
    fields, copied := CloneFields(node, tree, nodes);
    var result := new MapNode(fields);
    FieldsDenoteMore(fields, tree.fields, copied, copied + {result});
    assert copied + {result} - {result} == copied;
    copied := copied + {result};
    copy := Map(result);
    CloneIsFaithful(tree);
  }

  /** The loop of cloneMap. */
  method CloneFields(node: MapNode, ghost tree: Json, ghost nodes: set<object>)
    returns (fields: map<string, Value>, ghost copied: set<object>)
    requires Denotes(Map(node), tree, nodes)
    ensures fresh(copied) && tree.Object? && fields.Keys == tree.fields.Keys
    ensures forall key :: key in fields ==> Denotes(fields[key], Cloned(tree.fields[key]), copied)
    decreases tree, 0
  {
    fields, copied := map[], {};
    var rest := node.fields.Keys;
    while rest != {}
      invariant rest <= node.fields.Keys && fields.Keys == node.fields.Keys - rest
      invariant fresh(copied)
      invariant forall key :: key in fields ==> Denotes(fields[key], Cloned(tree.fields[key]), copied)
      decreases rest
    {
      var key :| key in rest;
      rest := rest - {key};
      ghost var more;
      var value;
      value, more := CloneValue(node.fields[key], tree.fields[key], nodes);
      FieldsDenoteMore(fields, tree.fields, copied, copied + more);
      DenotesMore(value, Cloned(tree.fields[key]), more, copied + more);
      fields := fields[key := value];
      copied := copied + more;
    }
  }

  /** No nil map is left, so copies of copies are structurally equal to what they copy. */
  lemma {:induction false} ClonedTwice(tree: Json)
    ensures Cloned(Cloned(tree)) == Cloned(tree)
    decreases tree
  {
    match tree
    case Scalar(_) =>
    case NilMap =>
    case Array(items) =>
      forall i | 0 <= i < |items|
        ensures Cloned(Cloned(items[i])) == Cloned(items[i])
      {
        ClonedTwice(items[i]);
      }
    case Object(fields) =>
      forall key | key in fields
        ensures Cloned(Cloned(fields[key])) == Cloned(fields[key])
      {
        ClonedTwice(fields[key]);
      }
  }

  // ----- update callbacks -----

  /** The copy that Update hands to its callback, which may change it in place. */
  class Candidate {
    var context: Value
    constructor (context: Value)
      ensures this.context == context
    {
      this.context := context;
    }
  }

  /** A callback with what it can reach from outside: `held`, made of nodes in `own`. */
  class Callback {
    var held: Value
    ghost var tree: Json
    ghost var own: set<object>

    ghost predicate Valid()
      reads this, own
    {
      this !in own && Denotes(held, tree, own)
    }

    constructor (held: Value, ghost tree: Json, ghost own: set<object>)
      requires Denotes(held, tree, own)
      ensures Valid() && this.held == held && this.tree == tree && this.own == own
    {
      this.held, this.tree, this.own := held, tree, own;
    }

    /** The contract is that of any code that writes to the candidate, its nodes, new nodes and its own, and
        leaves a tree behind: it may put its own nodes or new ones into the candidate, hold on to any part of
        it, or fail. This one puts what it holds under a key of the context, and holds on to the context. */
    method Run(c: Candidate, ghost before: Json, ghost nodes: set<object>)
      returns (ok: bool, ghost after: Json, ghost used: set<object>)
      requires Valid() && own !! nodes
      requires Denotes(c.context, before, nodes) && RootApart(c.context, before, nodes)
      requires this !in nodes && c !in nodes && c !in own
      modifies this, c, nodes, own
      ensures Valid() && Denotes(c.context, after, used)
      ensures forall o :: o in used || o in own ==> fresh(o) || o in nodes || o in old(own)
    {
      ok, after, used := false, before, nodes;
      if c.context.Map? && c.context.node != null {
        ok, after, used := true, Object(before.fields["note" := tree]), nodes + own;
        Graft(c.context.node, "note", held, before, nodes, tree, own);
        held, tree, own := c.context, after, used;
      }
    }
  }

  /** Puts a value under a key of a map, as it is. */
  method Graft(m: MapNode, key: string, v: Value, ghost tree: Json, ghost nodes: set<object>,
               ghost part: Json, ghost own: set<object>)
    requires Denotes(Map(m), tree, nodes) && RootApart(Map(m), tree, nodes)
    requires Denotes(v, part, own) && own !! nodes
    modifies m
    ensures m.fields == old(m.fields)[key := v]
    ensures tree.Object? && Denotes(Map(m), Object(tree.fields[key := part]), nodes + own)
  {
    m.fields := m.fields[key := v];
    forall k | k in tree.fields && k != key
      ensures Denotes(m.fields[k], tree.fields[k], nodes + own)
    {
      DenotesMore(m.fields[k], tree.fields[k], nodes - {m}, nodes + own);
    }
    DenotesMore(v, part, own, nodes + own);
  }

  // ----- the store -----

  lemma AllUntouched(contexts: map<string, Value>, trees: map<string, Json>, a: Image, b: Image, written: set<object>)
    requires contexts.Keys == trees.Keys
    requires forall id :: id in contexts ==> Depicts(a, contexts[id], trees[id])
    requires forall id, node :: id in contexts && node in written ==> !Occurs(node, a, contexts[id], trees[id])
    requires forall node :: node in a && node !in written ==> node in b && b[node] == a[node]
    ensures forall id :: id in contexts ==> Depicts(b, contexts[id], trees[id])
  {
    forall id | id in contexts
      ensures Depicts(b, contexts[id], trees[id])
    {
      Untouched(a, b, contexts[id], trees[id]);
    }
  }

  lemma AllDenoteMore(contexts: map<string, Value>, trees: map<string, Json>, nodes: set<object>, more: set<object>)
    requires contexts.Keys == trees.Keys && nodes <= more
    requires forall id :: id in contexts ==> Denotes(contexts[id], trees[id], nodes)
    ensures forall id :: id in contexts ==> Denotes(contexts[id], trees[id], more)
  {
    forall id | id in contexts
      ensures Denotes(contexts[id], trees[id], more)
    {
      DenotesMore(contexts[id], trees[id], nodes, more);
    }
  }

  /** The contexts that a store holds, as Create, Get, List and Update treat them. `trees` says what they
      are, `nodes` which nodes they are made of. */
  class ContextStore {
    var contexts: map<string, Value>
    ghost var trees: map<string, Json>
    ghost var nodes: set<object>

    ghost predicate Valid()
      reads this, nodes
    {
      && this !in nodes
      && contexts.Keys == trees.Keys
      && forall id :: id in contexts ==> Denotes(contexts[id], trees[id], nodes)
    }

    /** The node is part of what the store holds. */
    ghost predicate Shares(node: object)
      requires Valid()
      reads this, nodes
    {
      exists id :: id in contexts && Occurs(node, ImageOf(nodes), contexts[id], trees[id])
    }

    constructor ()
      ensures Valid() && trees == map[] && nodes == {}
    {
      contexts, trees, nodes := map[], map[], {};
    }

    /** Puts a value in as it is. */
    method Adopt(id: string, v: Value, ghost tree: Json, ghost used: set<object>)
      requires Valid() && Denotes(v, tree, used) && this !in used
      modifies this
      ensures Valid() && contexts == old(contexts)[id := v] && trees == old(trees)[id := tree]
      ensures nodes == old(nodes) + used
    {
      DenotesMore(v, tree, used, nodes + used);
      AllDenoteMore(contexts, trees, nodes, nodes + used);
      contexts, trees, nodes := contexts[id := v], trees[id := tree], nodes + used;
    }

    /** Create: a copy goes in, unless there is one. */
    method Create(id: string, v: Value, ghost tree: Json, ghost source: set<object>) returns (ok: bool)
      requires Valid() && Denotes(v, tree, source)
      modifies this
      ensures Valid() && (ok <==> id !in old(contexts))
      ensures trees == if ok then old(trees)[id := Cloned(tree)] else old(trees)
      ensures ok ==> SameTree(tree, trees[id]) && (NoNilMap(tree) ==> trees[id] == tree)
      ensures fresh(nodes - old(nodes))
    {
      CloneIsFaithful(tree);
      if id in contexts { return false; }
      ghost var copied;
      var copy;
      copy, copied := CloneValue(v, tree, source);
      Adopt(id, copy, Cloned(tree), copied);
      return true;
    }

    /** Get: a copy comes out. */
    method Get(id: string) returns (r: Option<Value>, ghost copied: set<object>)
      requires Valid()
      ensures r.Some? <==> id in contexts
      ensures r.Some? ==> Denotes(r.value, Cloned(trees[id]), copied) && IsCopy(r.value, trees[id], copied)
      ensures fresh(copied)
    {
      r, copied := None, {};
      if id in contexts {
        var copy;
        copy, copied := CloneValue(contexts[id], trees[id], nodes);
        ClonesAreCopies(copy, trees[id], copied);
        r := Some(copy);
      }
    }

    /** List: a copy of each. */
    method List() returns (copies: map<string, Value>, ghost copied: set<object>)
      requires Valid()
      ensures copies.Keys == contexts.Keys && fresh(copied)
      ensures forall id :: id in copies ==> Denotes(copies[id], Cloned(trees[id]), copied)
      ensures forall id :: id in copies ==> IsCopy(copies[id], trees[id], copied)
    {
      copies, copied := map[], {};
      var rest := contexts.Keys;
      while rest != {}
        invariant rest <= contexts.Keys && copies.Keys == contexts.Keys - rest && fresh(copied)
        invariant forall id :: id in copies ==> Denotes(copies[id], Cloned(trees[id]), copied)
        decreases rest
      {
        var id :| id in rest;
        rest := rest - {id};
        ghost var more;
        var copy;
        copy, more := CloneValue(contexts[id], trees[id], nodes);
        forall other | other in copies
          ensures Denotes(copies[other], Cloned(trees[other]), copied + more)
        {
          DenotesMore(copies[other], Cloned(trees[other]), copied, copied + more);
        }
        DenotesMore(copy, Cloned(trees[id]), more, copied + more);
        copies, copied := copies[id := copy], copied + more;
      }
      forall id | id in copies
        ensures IsCopy(copies[id], trees[id], copied)
      {
        ClonesAreCopies(copies[id], trees[id], copied);
      }
    }

    /** The start of Update: a copy comes out. */
    method Checkout(id: string) returns (candidate: Candidate, ghost given: set<object>)
      requires Valid() && id in contexts
      ensures fresh(candidate) && fresh(given) && candidate !in given
      ensures Denotes(candidate.context, Cloned(trees[id]), given)
      ensures RootApart(candidate.context, Cloned(trees[id]), given)
    {
      var copy;
      copy, given := CloneValue(contexts[id], trees[id], nodes);
      candidate := new Candidate(copy);
    }

    /** Then the callback works on it. The store stays as it is. */
    method Offer(id: string, callback: Callback)
      returns (ok: bool, candidate: Candidate, ghost after: Json, ghost used: set<object>)
      requires Valid() && callback.Valid() && id in contexts
      requires this !in callback.own && forall o :: o in callback.own ==> !Shares(o)
      modifies callback, callback.own
      ensures Valid() && callback.Valid() && Denotes(candidate.context, after, used) && this !in used
      ensures forall o :: o in used || o in callback.own ==> fresh(o) || o in old(callback.own)
    {
      ghost var given;
      candidate, given := Checkout(id);
      ghost var before, own := ImageOf(nodes), callback.own;
      OccurNowhere(own);
      ok, after, used := callback.Run(candidate, Cloned(trees[id]), given);
      assert forall node :: node in before && node !in own ==> ContentsOf(node) == before[node];
      AllUntouched(contexts, trees, before, ImageOf(nodes), own);
    }

    lemma OccurNowhere(own: set<object>)
      requires Valid() && forall o :: o in own ==> !Shares(o)
      ensures forall id, node :: id in contexts && node in own ==>
        !Occurs(node, ImageOf(nodes), contexts[id], trees[id])
    {
    }

    /** The end of Update: the candidate's value goes in as it is, another copy comes out. */
    method Commit(id: string, candidate: Candidate, ghost tree: Json, ghost used: set<object>)
      returns (copy: Value, ghost copied: set<object>)
      requires Valid() && Denotes(candidate.context, tree, used) && this !in used
      modifies this
      ensures Valid() && contexts == old(contexts)[id := candidate.context] && trees == old(trees)[id := tree]
      ensures nodes == old(nodes) + used
      ensures fresh(copied) && Denotes(copy, Cloned(tree), copied)
    {
      Adopt(id, candidate.context, tree, used);
      copy, copied := CloneValue(candidate.context, tree, used);
    }

    /** Update: the callback works on a copy, and the store adopts what the callback leaves, node by node.
        What is returned is another copy. `after` is the tree that the callback left. */
    method Update(id: string, callback: Callback)
      returns (r: Option<Value>, ghost copied: set<object>, ghost after: Json)
      requires Valid() && callback.Valid()
      requires this !in callback.own && forall o :: o in callback.own ==> !Shares(o)
      modifies this, callback, callback.own
      ensures Valid() && callback.Valid()
      ensures id !in old(contexts) ==> r.None?
      ensures r.None? ==> contexts == old(contexts) && trees == old(trees) && nodes == old(nodes)
      ensures r.Some? ==>
        && trees == old(trees)[id := after] && id in contexts && contexts == old(contexts)[id := contexts[id]]
        && Denotes(r.value, Cloned(after), copied) && IsCopy(r.value, after, copied)
      ensures fresh(copied) && copied !! nodes && copied !! callback.own
      ensures forall o :: o in nodes - old(nodes) || o in callback.own ==> fresh(o) || o in old(callback.own)
    {
      r, copied, after := None, {}, NilMap;
      if id !in contexts { return; }
      ghost var used;
      var ok, candidate, copy;
      ok, candidate, after, used := Offer(id, callback);
      if !ok { return; }
      copy, copied := Commit(id, candidate, after, used);
      ClonesAreCopies(copy, after, copied);
      r := Some(copy);
    }
  }

  // ----- isolation -----

  /** The top node of the value, if it has one, is in `nodes`. */
  predicate RootIn(v: Value, nodes: set<object>) {
    match v
    case Text(_) => true
    case Slice(slice) => slice in nodes
    case Map(node) => node != null ==> node in nodes
  }

  /** A client that writes to nodes it can reach; its contract lets it write anything to any of them. */
  method Scribble(v: Value, ghost kept: set<object>)
    requires RootIn(v, kept)
    modifies kept
  {
    match v
    case Text(_) =>
    case Slice(slice) => slice.items := [];
    case Map(node) => if node != null { node.fields := map[]; }
  }

  /** As long as the store shares none of the nodes that a client can reach, nothing the client does changes
      what the store holds. */
  method ApartIsIsolated(store: ContextStore, v: Value, ghost kept: set<object>)
    requires store.Valid() && store !in kept && RootIn(v, kept) && forall o :: o in kept ==> !store.Shares(o)
    modifies kept
    ensures store.Valid()
  {
    ghost var before := ImageOf(store.nodes);
    Scribble(v, kept);
    AllUntouched(store.contexts, store.trees, before, ImageOf(store.nodes), kept);
  }

  /** And only then: through any one shared node a client can change what the store holds. */
  method SharedIsNotIsolated(store: ContextStore, node: object)
    requires store.Valid() && store.Shares(node) && (node is SliceNode || node is MapNode)
    modifies node
    ensures !store.Valid()
  {
    ghost var before := ImageOf(store.nodes);
    ghost var id :| id in store.contexts && Occurs(node, before, store.contexts[id], store.trees[id]);
    OccurringIsThere(node, before, store.contexts[id], store.trees[id]);
    if node is SliceNode {
      var slice := node as SliceNode;
      slice.items := if slice.items == [] then [Text("")] else [];
    } else {
      var m := node as MapNode;
      m.fields := if m.fields.Keys == {} then map["" := Text("")] else map[];
      assert "" in map["" := Text("")].Keys;
    }
    Corrupted(before, ImageOf(store.nodes), store.contexts[id], store.trees[id], node);
  }

  lemma {:induction false} OccurringIsThere(node: object, image: Image, v: Value, tree: Json)
    requires Depicts(image, v, tree) && Occurs(node, image, v, tree)
    ensures node in image
    decreases tree
  {
    match v
    case Slice(slice) =>
      if node != slice {
        var i :| 0 <= i < |tree.items| && Occurs(node, image, image[slice].items[i], tree.items[i]);
        OccurringIsThere(node, image, image[slice].items[i], tree.items[i]);
      }
    case Map(m) =>
      if node != m {
        var key :| key in tree.fields && Occurs(node, image, image[m].fields[key], tree.fields[key]);
        OccurringIsThere(node, image, image[m].fields[key], tree.fields[key]);
      }
  }

  /** What Get returns may be written to at will: this writes to nothing that existed before. */
  method GetIsIsolated(store: ContextStore, id: string)
    requires store.Valid()
    ensures store.Valid()
  {
    ghost var copied;
    var got;
    got, copied := store.Get(id);
    if got.Some? { Scribble(got.value, copied); }
  }

  /** And so may what List returns. */
  method ListIsIsolated(store: ContextStore, id: string)
    requires store.Valid()
    ensures store.Valid()
  {
    ghost var copied;
    var all;
    all, copied := store.List();
    if id in all { Scribble(all[id], copied); }
  }

  /** What went into Create may be written to afterwards. */
  method CreateIsIsolated(store: ContextStore, id: string, v: Value, ghost tree: Json, ghost source: set<object>)
    returns (ok: bool)
    requires store.Valid() && Denotes(v, tree, source) && store !in source && store.nodes !! source
    modifies store, source
    ensures store.Valid() && (ok <==> id !in old(store.contexts))
    ensures store.trees == if ok then old(store.trees)[id := Cloned(tree)] else old(store.trees)
  {
    ok := store.Create(id, v, tree, source);
    Scribble(v, source);
  }

  /** What Update returns may be written to, whatever the callback does. */
  method UpdateIsIsolated(store: ContextStore, id: string, callback: Callback) returns (ok: bool, ghost after: Json)
    requires store.Valid() && callback.Valid()
    requires store !in callback.own && forall o :: o in callback.own ==> !store.Shares(o)
    modifies store, callback, callback.own
    ensures store.Valid() && callback.Valid()
    ensures store.trees == if ok then old(store.trees)[id := after] else old(store.trees)
  {
    ghost var copied;
    var updated;
    updated, copied, after := store.Update(id, callback);
    ok := updated.Some?;
    if ok { Scribble(updated.value, copied); }
  }

  /** After any updates, what a callback holds may be written to if no node that it can reach occurs in what
      the store holds. */
  method CallbackIsIsolated(store: ContextStore, callback: Callback)
    requires store.Valid() && callback.Valid() && store !in callback.own
    requires forall o :: o in callback.own ==> !store.Shares(o)
    modifies callback.own
    ensures store.Valid()
  {
    HeldRootIsOwn(callback);
    ApartIsIsolated(store, callback.held, callback.own);
  }

  lemma HeldRootIsOwn(callback: Callback)
    requires callback.Valid()
    ensures RootIn(callback.held, callback.own)
  {
  }

  /** Otherwise it can change what the store holds, through any node of its own that occurs there. */
  method CallbackReachesStore(store: ContextStore, callback: Callback, node: object)
    requires store.Valid() && callback.Valid()
    requires node in callback.own && store.Shares(node) && (node is SliceNode || node is MapNode)
    modifies callback.own
    ensures !store.Valid()
  {
    SharedIsNotIsolated(store, node);
  }

  /** The map or slice under a key of a stored context is shared with whoever holds it. */
  lemma PartIsShared(store: ContextStore, id: string, key: string) returns (node: object)
    requires store.Valid() && id in store.contexts && store.trees[id].Object? && key in store.trees[id].fields
    requires store.trees[id].fields[key].Object? || store.trees[id].fields[key].Array?
    ensures store.Shares(node) && (node is SliceNode || node is MapNode)
    ensures store.contexts[id].Map? && store.contexts[id].node != null && key in store.contexts[id].node.fields
    ensures store.contexts[id].node.fields[key]
         == if node is SliceNode then Slice(node as SliceNode) else Map(node as MapNode)
  {
    var image, root := ImageOf(store.nodes), store.contexts[id].node;
    node := RootOccurs(image, root.fields[key], store.trees[id].fields[key]);
    assert Occurs(node, image, store.contexts[id], store.trees[id]);
  }

  /** An Update whose callback puts a map of its own under a key of the context, as in
      `candidate.Context[key] = m`. */
  method UpdateByGraft(store: ContextStore, id: string, key: string, m: MapNode, ghost tree: Json,
                       ghost own: set<object>)
    requires store.Valid() && id in store.contexts && store.trees[id].Object?
    requires Denotes(Map(m), tree, own) && own !! store.nodes && store !in own
    modifies store
    ensures store.Valid()
    ensures store.trees == old(store.trees)[id := Object(Cloned(old(store.trees)[id]).fields[key := tree])]
    ensures id in store.contexts && store.contexts[id].Map? && store.contexts[id].node != null
    ensures store.contexts[id].node.fields.Keys == store.trees[id].fields.Keys
    ensures store.contexts[id].node.fields[key] == Map(m)
  {
    ghost var given, copied;
    var candidate, copy;
    candidate, given := store.Checkout(id);
    ghost var before := Cloned(store.trees[id]);
    Graft(candidate.context.node, key, Map(m), before, given, tree, own);
    copy, copied := store.Commit(id, candidate, Object(before.fields[key := tree]), given + own);
  }

  /** Through that map the stored context can be changed afterwards. */
  method GraftReachesStore(store: ContextStore, id: string, key: string, m: MapNode, ghost tree: Json,
                           ghost own: set<object>)
    requires store.Valid() && id in store.contexts && store.trees[id].Object?
    requires Denotes(Map(m), tree, own) && own !! store.nodes && store !in own
    modifies store, m
    ensures !store.Valid()
    ensures store.trees == old(store.trees)[id := Object(Cloned(old(store.trees)[id]).fields[key := tree])]
  {
    UpdateByGraft(store, id, key, m, tree, own);
    ghost var node := PartIsShared(store, id, key);
    assert node == m;
    SharedIsNotIsolated(store, m);
  }

  /** An Update whose callback only holds on to the map or slice under a key of the candidate's context. */
  method UpdateKeepingPart(store: ContextStore, id: string, key: string) returns (kept: Value)
    requires store.Valid() && id in store.contexts && store.trees[id].Object? && key in store.trees[id].fields
    modifies store
    ensures store.Valid() && store.trees == old(store.trees)[id := Cloned(old(store.trees)[id])]
    ensures id in store.contexts && store.contexts[id].Map? && store.contexts[id].node != null
    ensures key in store.contexts[id].node.fields && store.contexts[id].node.fields[key] == kept
    ensures (kept.Slice? ==> fresh(kept.slice)) && (kept.Map? && kept.node != null ==> fresh(kept.node))
  {
    ghost var given, copied;
    var candidate, copy;
    candidate, given := store.Checkout(id);
    kept := candidate.context.node.fields[key];
    assert RootIn(kept, given);
    copy, copied := store.Commit(id, candidate, Cloned(store.trees[id]), given);
  }

  /** Through that part, too. */
  method KeptPartReachesStore(store: ContextStore, id: string, key: string)
    requires store.Valid() && id in store.contexts && store.trees[id].Object? && key in store.trees[id].fields
    requires store.trees[id].fields[key].Object? || store.trees[id].fields[key].Array?
    modifies store
    ensures !store.Valid() && store.trees == old(store.trees)[id := Cloned(old(store.trees)[id])]
  {
    var kept := UpdateKeepingPart(store, id, key);
    ghost var node := PartIsShared(store, id, key);
    if kept.Slice? { SharedIsNotIsolated(store, kept.slice); } else { SharedIsNotIsolated(store, kept.node); }
  }

  lemma RootOccurs(image: Image, v: Value, tree: Json) returns (node: object)
    requires Depicts(image, v, tree) && (tree.Array? || tree.Object?)
    ensures Occurs(node, image, v, tree) && (node is SliceNode || node is MapNode)
    ensures v == (if node is SliceNode then Slice(node as SliceNode) else Map(node as MapNode))
  {
    match v
    case Slice(slice) => node := slice;
    case Map(m) => node := m;
  }
}
