/** pkg/config/persist.go: a YAML file edited in place, node by node. */
module Persist {
  import opened Numbers
  import opened YamlTree

  /** yaml.Node: `content` holds the children; `tree` and `repr` are the value of the node and
      the nodes it is made of. */
  class Node {
    var kind: Kind
    var value: Scalar
    var content: seq<Node>
    ghost var tree: Tree
    ghost var repr: set<Node>

    /** A node and its children form a tree: no child is shared, and none contains its parent. */
    ghost predicate Valid()
      reads this, repr
      decreases repr
      ensures Valid() ==> this in repr
    {
      && this in repr
      && tree.kind == kind && tree.value == value && |tree.content| == |content|
      && (forall i :: 0 <= i < |content| ==>
            && content[i] in repr && content[i].repr < repr && this !in content[i].repr
            && content[i].tree == tree.content[i]
            && content[i].Valid())
      && Separate(content)
    }

    /** A node without children. */
    constructor (kind: Kind, value: Scalar)
      ensures Valid() && fresh(repr) && repr == {this}
      ensures tree == Tree(kind, value, [])
    {
      this.kind, this.value, this.content := kind, value, [];
      tree := Tree(kind, value, []);
      repr := {this};
    }

    /** documentRoot. */
    function DocumentRoot(): Node
      reads this
    {
      if kind.Document? && |content| > 0 then content[0] else this
    }

    /** setScalar, which creates what is missing along the way. */
    method SetScalar(keys: Path, v: Scalar)
      requires Valid() && keys != []
      modifies repr
      ensures Valid() && fresh(repr - old(repr))
      ensures tree == SetPath(old(tree), keys, v)
      decreases |keys|, 1
    {
      hide Node.Valid, Node.AllButOne, Find, Bind, ChildOf;
      EnsureMapping();
      var next, i := ChildValue(keys[0]);
      ChildFacts();
      SetBelow(next, i, keys, v);
      Reattach(i);
    }

    /** The second half of setScalar: encode the value at the last key, or go on below. */
    method SetBelow(next: Node, ghost i: nat, keys: Path, v: Scalar)
      requires Valid() && keys != [] && i < |content| && next == content[i]
      modifies next.repr
      ensures next.Valid() && fresh(next.repr - old(next.repr))
      ensures next.tree == if |keys| == 1 then Tree(Leaf, v, []) else SetPath(old(next.tree), keys[1..], v)
      ensures unchanged(this) && AllButOne(i) && this !in next.repr
      ensures forall j :: 0 <= j < |content| && j != i ==> next.repr !! content[j].repr
      decreases |keys|, 0
    {
      if |keys| == 1 {
        next.EncodeScalar(v);
      } else {
        next.SetScalar(keys[1..], v);
      }
      assert unchanged(this);
      forall j | 0 <= j < |content| && j != i
        ensures content[j].Valid() && content[j].repr == old(content[j].repr)
        ensures next.repr !! content[j].repr
      {
        assert content[j].repr !! old(next.repr);
        assert unchanged(content[j]);
      }
    }

    /** Brings the value of a node up to date with a child that has changed. */
    ghost method Reattach(i: nat)
      requires AllButOne(i) && content[i].Valid()
      requires this !in content[i].repr
      requires forall j :: 0 <= j < |content| && j != i ==> content[i].repr !! content[j].repr
      modifies `tree, `repr
      ensures Valid() && repr == old(repr) + content[i].repr
      ensures tree == old(tree.(content := tree.content[i := content[i].tree]))
    {
      tree := tree.(content := tree.content[i := content[i].tree]);
      repr := repr + content[i].repr;
    }

    /** Valid, but for child i and what is below it. */
    ghost predicate AllButOne(i: nat)
      reads this, repr, content
    {
      && i < |content| && this in repr
      && tree.kind == kind && tree.value == value && |tree.content| == |content|
      && content[i] in repr
      && (forall j :: 0 <= j < |content| && j != i ==>
            && content[j] in repr && content[j].repr < repr && this !in content[j].repr
            && content[j].tree == tree.content[j] && content[j].Valid())
      && (forall j, k :: 0 <= j < k < |content| && j != i && k != i ==> content[j].repr !! content[k].repr)
    }

    method EnsureMapping()
      requires Valid()
      modifies this
      ensures Valid() && repr <= old(repr) && kind.Mapping?
      ensures tree == AsMapping(old(tree))
    {
      if kind.Mapping? {
        return;
      }
      kind, value, content := Mapping, Text(""), [];
      tree := Tree(Mapping, Text(""), []);
      repr := {this};
    }

    /** childValue: the value node under a key, appended if there is none; `at` is its position. */
    method ChildValue(key: string) returns (next: Node, ghost at: nat)
      requires Valid() && kind.Mapping?
      modifies this
      ensures Valid() && fresh(repr - old(repr)) && kind.Mapping? && value == old(value)
      ensures at < |content| && next == content[at] && next.tree == ChildOf(old(tree.content), key)
      ensures forall c :: tree.content[at := c] == Bind(old(tree.content), key, c)
    {
      hide Node.Valid, Find;
      var found := KeyIndex(key);
      match found {
        case Some(i) =>
          ChildFacts();
          return content[i + 1], i + 1;
        case None =>
          ChildFacts();
          at := |content| + 1;
          next := Append(key);
          ghost var was := old(tree.content);
          assert forall c :: (was + [KeyNode(key), EMPTY])[|was| + 1 := c] == was + [KeyNode(key), c];
      }
    }

    lemma ChildFacts()
      requires Valid()
      ensures |content| == |tree.content|
      ensures forall i :: 0 <= i < |content| ==>
        content[i].tree == tree.content[i] && content[i].value == tree.content[i].value && content[i].repr <= repr
    {
    }

    /** The search loop of childValue. */
    method KeyIndex(key: string) returns (r: Option<nat>)
      requires Valid()
      ensures r == Find(tree.content, key)
    {
      ChildFacts();
      var i := 0;
      while i + 1 < |content|
        invariant 0 <= i <= |content|
        invariant Find(tree.content, key)
               == match Find(tree.content[i..], key) case None => None case Some(k) => Some(k + i)
      {
        if content[i].value == Text(key) {
          return Some(i);
        }
        assert tree.content[i..][2..] == tree.content[i + 2..];
        i := i + 2;
      }
      return None;
    }

    /** A new key with an empty value node. */
    method Append(key: string) returns (next: Node)
      requires Valid()
      modifies `content, `tree, `repr
      ensures Valid() && fresh(repr - old(repr))
      ensures tree == old(tree).(content := old(tree.content) + [KeyNode(key), EMPTY])
      ensures |content| == |old(content)| + 2 && next == content[|old(content)| + 1] && next.tree == EMPTY
    {
      hide Node.Valid, Separate;
      var keyNode := new Node(Leaf, Text(key));
      next := new Node(Unset, Text(""));
      Add(keyNode);
      Add(next);
    }

    method Add(child: Node)
      requires Valid() && child.Valid() && child.repr !! repr
      modifies `content, `tree, `repr
      ensures Valid() && repr == old(repr) + child.repr && content == old(content) + [child]
      ensures tree == old(tree).(content := old(tree.content) + [child.tree])
    {
      content := content + [child];
      tree := tree.(content := tree.content + [child.tree]);
      repr := repr + child.repr;
    }

    method EncodeScalar(v: Scalar)
      requires Valid()
      modifies this
      ensures Valid() && repr <= old(repr)
      ensures tree == Tree(Leaf, v, [])
    {
      kind, value, content := Leaf, v, [];
      tree := Tree(Leaf, v, []);
      repr := {this};
    }
  }

  ghost predicate Separate(content: seq<Node>)
    reads content
  {
    forall i, j :: 0 <= i < j < |content| ==> content[i].repr !! content[j].repr
  }

  datatype StoreError = NoPath | ReadFailed | WriteFailed

  /** The value documentRoot selects. */
  function Root(doc: Tree): Tree {
    if doc.kind.Document? && |doc.content| > 0 then doc.content[0] else doc
  }

  /** The persister and its file. `file` is the root of what the file holds. */
  class Persister {
    const path: string
    ghost var file: Tree

    constructor (path: string, file: Tree)
      ensures this.path == path && this.file == file
    {
      this.path := path;
      this.file := file;
    }

    /** Set. The outcomes of reading and writing the file come from outside: `parsed` is the node
        the file parses to, if it can be read, and `wreck` what a failed write leaves of it. The
        updates are visited in an order the caller does not control. */
    method Set(updates: map<string, Scalar>, parsed: Option<Node>, ghost wreck: Option<Tree>, writable: bool)
      returns (r: Option<StoreError>, ghost order: seq<string>)
      requires parsed.Some? ==> parsed.value.Valid() && Root(parsed.value.tree) == file
      requires writable <==> wreck.None?
      modifies `file, if parsed.Some? then parsed.value.repr else {}
      ensures r == if path == "" then Some(NoPath) else if parsed.None? then Some(ReadFailed)
                   else if !writable then Some(WriteFailed) else None
      ensures r.None? ==> Enumerates(order, updates.Keys) && file == SetAll(old(file), updates, order)
      ensures r.None? && WellFormed(old(file)) && PrefixFree(updates.Keys) ==>
        forall q :: Read(file, q) == Expected(Read(old(file), q), updates, q)
      ensures r.Some? && r != Some(WriteFailed) ==> file == old(file)
      ensures parsed.Some? && old(parsed.value.kind.Document? && |parsed.value.content| > 0) ==>
        parsed.value.kind.Document? && parsed.value.content == old(parsed.value.content)
    {
      hide Read, WellFormed, PrefixFree, Expected;
      order := [];
      if path == "" {
        return Some(NoPath), [];
      }
      match parsed {
        case None =>
          return Some(ReadFailed), [];
        case Some(doc) =>
          var root := doc.DocumentRoot();
          order := SetEach(root, updates);
          assert order != [] ==> root.kind.Mapping?;
          assert doc.DocumentRoot() == root;
          r := Write(doc, wreck, writable);
          forall q | r.None? && WellFormed(old(file)) && PrefixFree(updates.Keys)
            ensures Read(file, q) == Expected(Read(old(file), q), updates, q)
          {
            ReadAfterSetAll(old(file), updates, order, q);
          }
      }
    }

    method Write(doc: Node, ghost wreck: Option<Tree>, writable: bool) returns (r: Option<StoreError>)
      requires writable <==> wreck.None?
      modifies `file
      ensures r == if writable then None else Some(WriteFailed)
      ensures writable ==> file == doc.DocumentRoot().tree
    {
      file := if writable then doc.DocumentRoot().tree else wreck.value;
      return if writable then None else Some(WriteFailed);
    }

    /** The loop over the updates. */
    method SetEach(root: Node, updates: map<string, Scalar>) returns (ghost order: seq<string>)
      requires root.Valid()
      modifies root.repr
      ensures root.Valid() && fresh(root.repr - old(root.repr))
      ensures Enumerates(order, updates.Keys) && root.tree == SetAll(old(root.tree), updates, order)
    {
      order := [];
      var rest := updates.Keys;
      while rest != {}
        invariant rest <= updates.Keys && Enumerates(order, updates.Keys - rest)
        invariant root.Valid() && fresh(root.repr - old(root.repr))
        invariant root.tree == SetAll(old(root.tree), updates, order)
      {
        var name :| name in rest;
        root.SetScalar(Split(name), updates[name]);
        OneMore(order, updates.Keys, rest, name);
        order := order + [name];
        rest := rest - {name};
      }
    }
  }

  lemma OneMore(order: seq<string>, all: set<string>, rest: set<string>, name: string)
    requires name in rest && rest <= all && Enumerates(order, all - rest)
    ensures Enumerates(order + [name], all - (rest - {name})) && (order + [name])[..|order|] == order
  {
  }
}
