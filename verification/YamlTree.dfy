/** The part of pkg/config/persist.go that is about trees: what setScalar does to a YAML node
    and everything below it, and what can then be read back. */
module YamlTree {
  import opened Numbers

  /** A scalar, by what its text stands for; 3 and 3.0 are the same number. */
  datatype Scalar = Text(s: string) | Num(x: Number)

  datatype Kind = Unset | Document | Sequence | Mapping | Leaf | Alias

  /** A node and what is below it. The content of a mapping alternates keys and values. */
  datatype Tree = Tree(kind: Kind, value: Scalar, content: seq<Tree>)

  const EMPTY := Tree(Unset, Text(""), [])

  type Path = seq<string>

  /** The position of the first key in a mapping's content. */
  function Find(content: seq<Tree>, key: string): (r: Option<nat>)
    ensures r.Some? ==> r.value + 1 < |content| && content[r.value].value == Text(key)
  {
    if |content| < 2 then None
    else if content[0].value == Text(key) then Some(0)
    else
      match Find(content[2..], key)
      case None => None
      case Some(i) => Some(i + 2)
  }

  function KeyNode(key: string): Tree {
    Tree(Leaf, Text(key), [])
  }

  function AsMapping(t: Tree): Tree {
    if t.kind.Mapping? then t else Tree(Mapping, Text(""), [])
  }

  /** The mapping with the value under `key` replaced, or appended. */
  function Bind(content: seq<Tree>, key: string, child: Tree): seq<Tree> {
    match Find(content, key)
    case Some(i) => content[i + 1 := child]
    case None => content + [KeyNode(key), child]
  }

  function ChildOf(content: seq<Tree>, key: string): Tree {
    match Find(content, key)
    case Some(i) => content[i + 1]
    case None => EMPTY
  }

  /** setScalar. */
  function SetPath(t: Tree, path: Path, v: Scalar): Tree
    requires path != []
    decreases |path|
  {
    var m := AsMapping(t);
    var next := ChildOf(m.content, path[0]);
    var child := if |path| == 1 then Tree(Leaf, v, []) else SetPath(next, path[1..], v);
    m.(content := Bind(m.content, path[0], child))
  }

  /** What is stored at a path: a scalar, or nothing. */
  function Read(t: Tree, path: Path): Option<Scalar>
    decreases |path|
  {
    if path == [] then (if t.kind.Leaf? then Some(t.value) else None)
    else if !t.kind.Mapping? then None
    else
      match Find(t.content, path[0])
      case None => None
      case Some(i) => Read(t.content[i + 1], path[1..])
  }

  /** Every mapping has a value for each key, as in any parsed file. */
  predicate WellFormed(t: Tree) {
    && (t.kind.Mapping? ==> |t.content| % 2 == 0)
    && forall i :: 0 <= i < |t.content| ==> WellFormed(t.content[i])
  }

  /** One path leads to the other, or both are the same. */
  predicate Related(p: Path, q: Path) {
    p <= q || q <= p
  }

  // Keys in a mapping

  lemma {:induction false} FindAfterBind(content: seq<Tree>, key: string, child: Tree, other: string)
    requires |content| % 2 == 0
    ensures other == key ==>
      var i := Find(Bind(content, key, child), key);
      i.Some? && Bind(content, key, child)[i.value + 1] == child
    ensures other != key ==> Find(Bind(content, key, child), other) == Find(content, other)
  {
    if |content| >= 2 && content[0].value != Text(key) {
      FindAfterBind(content[2..], key, child, other);
      var rest := Bind(content[2..], key, child);
      assert Bind(content, key, child) == content[..2] + rest;
      assert (content[..2] + rest)[2..] == rest;
    } else if |content| >= 2 {
      assert content[1 := child][2..] == content[2..];
    }
  }

  lemma ValueKept(content: seq<Tree>, key: string, child: Tree, other: string)
    requires |content| % 2 == 0 && other != key && Find(content, other).Some?
    ensures var i := Find(content, other).value;
            i + 1 < |Bind(content, key, child)| && Bind(content, key, child)[i + 1] == content[i + 1]
  {
    if Find(content, key).Some? {
      KeysAreEven(content, key);
      KeysAreEven(content, other);
    }
  }

  lemma {:induction false} KeysAreEven(content: seq<Tree>, key: string)
    ensures Find(content, key).Some? ==> Find(content, key).value % 2 == 0
  {
    if |content| >= 2 && content[0].value != Text(key) {
      KeysAreEven(content[2..], key);
    }
  }

  /** Writing a key moves nothing: every node stays where it is but the value of that key, and a new
      key goes to the end. */
  lemma BindMovesNothing(content: seq<Tree>, key: string, child: Tree, i: nat)
    requires i < |content|
    ensures |Bind(content, key, child)| == |content| + (if Find(content, key).None? then 2 else 0)
    ensures Find(content, key) != Some(i - 1) ==> Bind(content, key, child)[i] == content[i]
    ensures Find(content, key).None? ==> Bind(content, key, child)[|content|..] == [KeyNode(key), child]
  {
    hide Find;
  }

  // Reading what was written

  lemma {:induction false} SetKeepsWellFormed(t: Tree, path: Path, v: Scalar)
    requires WellFormed(t) && path != []
    ensures WellFormed(SetPath(t, path, v))
    decreases |path|
  {
    hide Find, Bind, ChildOf;
    var m := AsMapping(t);
    var next := ChildOf(m.content, path[0]);
    BindKeepsWellFormed(m, path[0], Tree(Leaf, v, []));
    if |path| > 1 {
      SetKeepsWellFormed(next, path[1..], v);
      BindKeepsWellFormed(m, path[0], SetPath(next, path[1..], v));
    }
  }

  lemma BindKeepsWellFormed(m: Tree, key: string, child: Tree)
    requires m.kind.Mapping? && WellFormed(m) && WellFormed(child)
    ensures WellFormed(ChildOf(m.content, key))
    ensures WellFormed(m.(content := Bind(m.content, key, child)))
  {
    hide Find;
  }

  /** What every path reads after setScalar: the written path its value; a path above or below
      it nothing; any other path what it read before. */
  lemma {:induction false} ReadAfterSet(t: Tree, path: Path, v: Scalar, q: Path)
    requires WellFormed(t) && path != []
    ensures Read(SetPath(t, path, v), q)
         == if q == path then Some(v) else if Related(path, q) then None else Read(t, q)
    decreases |path|
  {
    if q != [] {
      var m := AsMapping(t);
      var next := ChildOf(m.content, path[0]);
      var child := if |path| == 1 then Tree(Leaf, v, []) else SetPath(next, path[1..], v);
      if q[0] == path[0] {
        HeadAndTail(path, q);
        if |path| > 1 {
          ReadAfterSet(next, path[1..], v, q[1..]);
        } else {
          ReadLeaf(v, q[1..]);
        }
        ReadBound(m, path[0], child, q);
        ReadChild(m, q);
        ReadUnset(t, q);
      } else {
        ReadBeside(m, path[0], child, q);
        ReadUnset(t, q);
      }
    }
  }

  lemma ReadBound(m: Tree, key: string, child: Tree, q: Path)
    requires m.kind.Mapping? && |m.content| % 2 == 0 && q != [] && q[0] == key
    ensures Read(m.(content := Bind(m.content, key, child)), q) == Read(child, q[1..])
  {
    hide Find, Bind;
    FindAfterBind(m.content, key, child, key);
  }

  lemma ReadBeside(m: Tree, key: string, child: Tree, q: Path)
    requires m.kind.Mapping? && |m.content| % 2 == 0 && q != [] && q[0] != key
    ensures Read(m.(content := Bind(m.content, key, child)), q) == Read(m, q)
  {
    hide Find, Bind;
    FindAfterBind(m.content, key, child, q[0]);
    if Find(m.content, q[0]).Some? {
      ValueKept(m.content, key, child, q[0]);
    }
  }

  lemma ReadChild(m: Tree, q: Path)
    requires m.kind.Mapping? && q != []
    ensures Read(m, q) == Read(ChildOf(m.content, q[0]), q[1..])
  {
    hide Find;
  }

  lemma ReadUnset(t: Tree, q: Path)
    requires q != []
    ensures Read(AsMapping(t), q) == Read(t, q)
  {
  }

  lemma ReadLeaf(v: Scalar, q: Path)
    ensures Read(Tree(Leaf, v, []), q) == if q == [] then Some(v) else None
  {
  }

  lemma HeadAndTail(p: Path, q: Path)
    requires p != [] && q != [] && p[0] == q[0]
    ensures p == q <==> p[1..] == q[1..]
    ensures Related(p, q) <==> Related(p[1..], q[1..])
  {
    assert p == [p[0]] + p[1..] && q == [q[0]] + q[1..];
  }

  /** Writing a path again overrides: the tree is the one the last write alone would give. */
  lemma {:induction false} LastWriteWins(t: Tree, path: Path, v: Scalar, w: Scalar)
    requires WellFormed(t) && path != []
    ensures SetPath(SetPath(t, path, v), path, w) == SetPath(t, path, w)
    decreases |path|
  {
    var m := AsMapping(t);
    var next := ChildOf(m.content, path[0]);
    var child := if |path| == 1 then Tree(Leaf, v, []) else SetPath(next, path[1..], v);
    var child' := if |path| == 1 then Tree(Leaf, w, []) else SetPath(next, path[1..], w);
    if |path| > 1 {
      if Find(m.content, path[0]).None? {
        assert WellFormed(EMPTY);
      }
      LastWriteWins(next, path[1..], v, w);
    }
    BindTwice(m.content, path[0], child, child');
  }

  lemma {:induction false} BindTwice(content: seq<Tree>, key: string, child: Tree, child': Tree)
    requires |content| % 2 == 0
    ensures ChildOf(Bind(content, key, child), key) == child
    ensures Bind(Bind(content, key, child), key, child') == Bind(content, key, child')
  {
    FindAfterBind(content, key, child, key);
    if Find(content, key).None? {
      FirstKeyAppended(content, key, child);
    } else {
      FirstKeyKept(content, key, child);
    }
  }

  lemma {:induction false} FirstKeyAppended(content: seq<Tree>, key: string, child: Tree)
    requires |content| % 2 == 0 && Find(content, key).None?
    ensures Find(content + [KeyNode(key), child], key) == Some(|content|)
  {
    if |content| >= 2 {
      FirstKeyAppended(content[2..], key, child);
      assert (content + [KeyNode(key), child])[2..] == content[2..] + [KeyNode(key), child];
    }
  }

  lemma {:induction false} FirstKeyKept(content: seq<Tree>, key: string, child: Tree)
    requires Find(content, key).Some?
    ensures Find(content[Find(content, key).value + 1 := child], key) == Find(content, key)
  {
    if content[0].value != Text(key) {
      var i := Find(content[2..], key).value;
      FirstKeyKept(content[2..], key, child);
      assert content[i + 3 := child][2..] == content[2..][i + 1 := child];
    }
  }

  // Dotted names

  /** strings.Split(name, "."). */
  function Split(name: string): (path: Path)
    ensures path != []
  {
    if name == [] then [""]
    else
      var rest := Split(name[1..]);
      if name[0] == '.' then [""] + rest else [[name[0]] + rest[0]] + rest[1..]
  }

  function Join(path: Path): string
    requires path != []
  {
    if |path| == 1 then path[0] else path[0] + "." + Join(path[1..])
  }

  /** Splitting loses nothing, so different names are different paths. */
  lemma {:induction false} JoinSplit(name: string)
    ensures Join(Split(name)) == name
  {
    if name != [] {
      JoinSplit(name[1..]);
      var rest := Split(name[1..]);
      if name[0] == '.' {
        assert ([""] + rest)[1..] == rest;
        assert "" + "." + name[1..] == name;
      } else {
        var path := [[name[0]] + rest[0]] + rest[1..];
        if |rest| > 1 {
          assert path[1..] == rest[1..];
          assert [name[0]] + (rest[0] + "." + Join(rest[1..])) == path[0] + "." + Join(path[1..]);
        }
        assert [name[0]] + name[1..] == name;
      }
    }
  }

  /** No part has a dot in it. */
  lemma {:induction false} PartsHaveNoDots(name: string)
    ensures forall i :: 0 <= i < |Split(name)| ==> '.' !in Split(name)[i]
  {
    if name != [] {
      PartsHaveNoDots(name[1..]);
    }
  }

  lemma {:induction false} SplitPlain(name: string)
    requires '.' !in name
    ensures Split(name) == [name]
  {
    if name != [] {
      SplitPlain(name[1..]);
      assert [name[0]] + name[1..] == name;
    }
  }

  lemma {:induction false} SplitSectionKey(section: string, key: string)
    requires '.' !in section && '.' !in key
    ensures Split(section + "." + key) == [section, key]
  {
    var name := section + "." + key;
    if section == [] {
      assert name[1..] == key;
      SplitPlain(key);
    } else {
      assert name[1..] == section[1..] + "." + key;
      SplitSectionKey(section[1..], key);
      assert [section[0]] + section[1..] == section;
    }
  }

  // Several updates

  /** The updates by dotted name, written in the given order. */
  function SetAll(t: Tree, updates: map<string, Scalar>, order: seq<string>): Tree
    requires forall name :: name in order ==> name in updates
  {
    if order == [] then t
    else
      var name := order[|order| - 1];
      SetPath(SetAll(t, updates, order[..|order| - 1]), Split(name), updates[name])
  }

  lemma {:induction false} SetAllKeepsWellFormed(t: Tree, updates: map<string, Scalar>, order: seq<string>)
    requires WellFormed(t) && forall name :: name in order ==> name in updates
    ensures WellFormed(SetAll(t, updates, order))
  {
    if order != [] {
      var name, before := order[|order| - 1], order[..|order| - 1];
      SetAllKeepsWellFormed(t, updates, before);
      SetKeepsWellFormed(SetAll(t, updates, before), Split(name), updates[name]);
    }
  }

  /** No name leads to another. */
  predicate PrefixFree(names: set<string>) {
    forall a, b :: a in names && b in names && a != b ==> !Related(Split(a), Split(b))
  }

  /** Some name is an ancestor or a descendant of the path, or the path itself. */
  predicate Touched(names: set<string>, q: Path) {
    exists name :: name in names && Related(Split(name), q)
  }

  /** What updates, in no order, make of what was read before. */
  function Expected(before: Option<Scalar>, updates: map<string, Scalar>, q: Path): Option<Scalar> {
    if q != [] && Join(q) in updates && Split(Join(q)) == q then Some(updates[Join(q)])
    else if Touched(updates.Keys, q) then None
    else before
  }

  /** Writing one more name, to what prefix-free names have made of the tree so far. */
  lemma ExpectedStep(before: Option<Scalar>, updates: map<string, Scalar>, name: string, v: Scalar, q: Path)
    requires PrefixFree(updates.Keys + {name}) && name !in updates
    ensures Expected(before, updates[name := v], q)
         == if q == Split(name) then Some(v)
            else if Related(Split(name), q) then None
            else Expected(before, updates, q)
  {
    hide Join, Split;
    JoinSplit(name);
    assert updates[name := v].Keys == updates.Keys + {name};
    if q != Split(name) && Related(Split(name), q) {
      assert Touched(updates[name := v].Keys, q);
      assert q != [] && Join(q) in updates ==> Split(Join(q)) != q;
    }
  }

  /** Prefix-free updates read as their set says, at every path, whatever order Go visits the
      map in. */
  lemma {:induction false} ReadAfterSetAll(t: Tree, updates: map<string, Scalar>, order: seq<string>, q: Path)
    requires WellFormed(t) && PrefixFree(updates.Keys) && Enumerates(order, updates.Keys)
    ensures Read(SetAll(t, updates, order), q) == Expected(Read(t, q), updates, q)
  {
    hide Read, SetPath, Join, Split, WellFormed, PrefixFree, Related;
    if order != [] {
      var name, before := order[|order| - 1], order[..|order| - 1];
      var fewer := updates - {name};
      WithoutLast(updates, order);
      SetAllDepends(t, updates, fewer, before);
      SetAllKeepsWellFormed(t, updates, before);
      ReadAfterSetAll(t, fewer, before, q);
      ReadAfterSet(SetAll(t, updates, before), Split(name), updates[name], q);
      ExpectedStep(Read(t, q), fewer, name, updates[name], q);
    }
  }

  lemma WithoutLast(updates: map<string, Scalar>, order: seq<string>)
    requires order != [] && PrefixFree(updates.Keys) && Enumerates(order, updates.Keys)
    ensures var name, before := order[|order| - 1], order[..|order| - 1];
            var fewer := updates - {name};
            && fewer[name := updates[name]] == updates && fewer.Keys + {name} == updates.Keys
            && PrefixFree(fewer.Keys) && Enumerates(before, fewer.Keys)
  {
    hide Split, Related;
    assert order == order[..|order| - 1] + [order[|order| - 1]];
  }

  /** An order of a set: every element once. */
  ghost predicate Enumerates(order: seq<string>, names: set<string>) {
    && (forall name :: name in order <==> name in names)
    && (forall i, j :: 0 <= i < j < |order| ==> order[i] != order[j])
  }

  lemma {:induction false} SetAllDepends(t: Tree, a: map<string, Scalar>, b: map<string, Scalar>, order: seq<string>)
    requires forall name :: name in order ==> name in a && name in b && a[name] == b[name]
    ensures SetAll(t, a, order) == SetAll(t, b, order)
  {
    if order != [] {
      SetAllDepends(t, a, b, order[..|order| - 1]);
    }
  }

  /** Being unrelated is exactly what it takes for two writes to commute: otherwise the second
      path alone tells the two orders apart. */
  lemma CommuteIffUnrelated(t: Tree, p: Path, v: Scalar, q: Path, w: Scalar)
    requires WellFormed(t) && p != [] && q != [] && p != q
    ensures !Related(p, q) ==>
      forall r :: Read(SetPath(SetPath(t, p, v), q, w), r) == Read(SetPath(SetPath(t, q, w), p, v), r)
    ensures Related(p, q) ==>
      Read(SetPath(SetPath(t, p, v), q, w), q) != Read(SetPath(SetPath(t, q, w), p, v), q)
  {
    hide SetPath, Read, WellFormed;
    var a, b := SetPath(t, p, v), SetPath(t, q, w);
    SetKeepsWellFormed(t, p, v);
    SetKeepsWellFormed(t, q, w);
    ReadAfterSet(a, q, w, q);
    ReadAfterSet(b, p, v, q);
    forall r ensures Related(p, q) || Read(SetPath(a, q, w), r) == Read(SetPath(b, p, v), r) {
      ReadAfterSet(t, p, v, r);
      ReadAfterSet(t, q, w, r);
      ReadAfterSet(a, q, w, r);
      ReadAfterSet(b, p, v, r);
    }
  }
}
