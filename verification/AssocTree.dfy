/** Association trees: strings and lists of strings and lists, named by their first element. */
module AssocTree {

  /** `Null` is the tree of a missing node. */
  datatype Tree = Null | Text(s: string) | List(items: seq<Tree>)
  {
    function ToText(): string {
      if Text? then s else ""
    }

    function Name(): string {
      if Text? then s
      else if List? && |items| > 0 then items[0].ToText()
      else ""
    }

    function Nodes(): seq<Tree> {
      if List? && |items| > 0 then items[1..] else []
    }

    /** The first sub-tree that is a list starting with the name. */
    function Node(name: string): Tree {
      FirstNamed(Nodes(), name)
    }

    function Value(): Tree {
      if List? && |items| >= 2 then items[1] else Null
    }

    function ValueOf(name: string): Tree {
      Node(name).Value()
    }

    /** The tree without the sub-trees of that name, written as a string or as a list. */
    function FilterOut(name: string): Tree {
      if List? then List([Text(Name())] + Without(Nodes(), name)) else this
    }

    /** Appending to a list; a tree that is no list becomes one. */
    function Append(t: Tree): Tree {
      List((if List? then items else []) + [t])
    }
  }

  /** A named value. */
  function Leaf(name: string, value: string): Tree {
    List([Text(name), Text(value)])
  }

  /** A list whose first element is the string `name`. */
  predicate IsNode(t: Tree, name: string) {
    t.List? && |t.items| >= 1 && t.items[0] == Text(name)
  }

  function FirstNamed(ts: seq<Tree>, name: string): (t: Tree)
    ensures t == Null <==> forall i | 0 <= i < |ts| :: !IsNode(ts[i], name)
    ensures t != Null ==> exists i | 0 <= i < |ts| ::
      t == ts[i] && IsNode(ts[i], name) && forall j | 0 <= j < i :: !IsNode(ts[j], name)
  {
    if |ts| == 0 then Null
    else if IsNode(ts[0], name) then ts[0]
    else
      var t := FirstNamed(ts[1..], name);
      assert t == Null || exists i | 0 <= i < |ts[1..]| ::
        t == ts[1..][i] && IsNode(ts[1..][i], name) && forall j | 0 <= j < i :: !IsNode(ts[1..][j], name);
      assert forall i | 0 <= i < |ts[1..]| :: ts[1..][i] == ts[i + 1];
      t
  }

  predicate Named(t: Tree, name: string) {
    t == Text(name) || IsNode(t, name)
  }

  function Without(ts: seq<Tree>, name: string): (r: seq<Tree>)
    ensures forall i | 0 <= i < |r| :: !Named(r[i], name)
  {
    if |ts| == 0 then []
    else if Named(ts[0], name) then Without(ts[1..], name)
    else [ts[0]] + Without(ts[1..], name)
  }

  // ---------------------------------------------------------------- the loops of the source

  method FindNode(t: Tree, name: string) returns (r: Tree)
    ensures r == t.Node(name)
  {
    var nodes := t.Nodes();
    var i := 0;
    while i < |nodes|
      invariant 0 <= i <= |nodes|
      invariant FirstNamed(nodes[i..], name) == FirstNamed(nodes, name)
    {
      if IsNode(nodes[i], name) {
        return nodes[i];
      }
      assert nodes[i..][1..] == nodes[i + 1..];
      i := i + 1;
    }
    return Null;
  }

  method FilterNodes(t: Tree, name: string) returns (r: Tree)
    ensures r == t.FilterOut(name)
  {
    if !t.List? {
      return t;
    }
    var newTree := [Text(t.Name())];
    var nodes := t.Nodes();
    var i := 0;
    while i < |nodes|
      invariant 0 <= i <= |nodes|
      invariant newTree + Without(nodes[i..], name) == [Text(t.Name())] + Without(nodes, name)
    {
      assert nodes[i..][1..] == nodes[i + 1..];
      if !Named(nodes[i], name) {
        newTree := newTree + [nodes[i]];
      }
      i := i + 1;
    }
    return List(newTree);
  }

  // ---------------------------------------------------------------- laws of lookup

  predicate FirstNode(ts: seq<Tree>, name: string, i: nat) {
    i < |ts| && IsNode(ts[i], name) && forall j | 0 <= j < i :: !IsNode(ts[j], name)
  }

  lemma {:induction false} FirstNamedIsFirst(ts: seq<Tree>, name: string, i: nat)
    requires FirstNode(ts, name, i)
    ensures FirstNamed(ts, name) == ts[i]
  {
    if i > 0 {
      FirstNamedIsFirst(ts[1..], name, i - 1);
    }
  }

  /** A list that starts with a string has that name, the rest as its nodes, and the first of the rest as
      its value; a string is a name alone. */
  lemma PartsOfTrees(name: string, ts: seq<Tree>)
    ensures var t := List([Text(name)] + ts);
      t.Name() == name && t.Nodes() == ts && t.Value() == if |ts| > 0 then ts[0] else Null
    ensures Text(name).Name() == name && Text(name).Nodes() == [] && Text(name).Value() == Null
    ensures Null.Name() == "" && Null.Nodes() == [] && Null.Value() == Null
  {
    assert ([Text(name)] + ts)[1..] == ts;
  }

  lemma NullHasNoValue(name: string)
    ensures Null.ValueOf(name) == Null
  {
  }

  /** A name is looked up as the element behind it in the first node of the name. */
  lemma ValueIsBehindName(name: string, ts: seq<Tree>, wanted: string, i: nat, us: seq<Tree>)
    requires FirstNode(ts, wanted, i) && ts[i] == List([Text(wanted)] + us)
    ensures List([Text(name)] + ts).ValueOf(wanted) == if |us| > 0 then us[0] else Null
  {
    PartsOfTrees(name, ts);
    PartsOfTrees(wanted, us);
    FirstNamedIsFirst(ts, wanted, i);
  }

  lemma {:induction false} FirstNamedConcat(ts: seq<Tree>, us: seq<Tree>, name: string)
    ensures FirstNamed(ts + us, name) ==
      if FirstNamed(ts, name) != Null then FirstNamed(ts, name) else FirstNamed(us, name)
  {
    if |ts| == 0 {
      assert ts + us == us;
    } else {
      assert (ts + us)[1..] == ts[1..] + us;
      FirstNamedConcat(ts[1..], us, name);
    }
  }

  /** Filtering out one name does not affect looking up another. */
  lemma {:induction false} WithoutOther(ts: seq<Tree>, name: string, other: string)
    ensures FirstNamed(Without(ts, name), other) ==
      if other == name then Null else FirstNamed(ts, other)
  {
    if |ts| > 0 {
      WithoutOther(ts[1..], name, other);
      if !Named(ts[0], name) {
        assert ([ts[0]] + Without(ts[1..], name))[1..] == Without(ts[1..], name);
      }
    }
  }

  /** After replacing, a name is looked up as the new node if that has the name, and as before
      otherwise. */
  lemma ReplaceThenLookUp(t: Tree, p: Tree, name: string)
    requires t.List?
    ensures t.FilterOut(p.Name()).Append(p).Node(name) ==
      if name == p.Name() then (if IsNode(p, name) then p else Null)
      else t.Node(name)
  {
    var f := Without(t.Nodes(), p.Name());
    var r := t.FilterOut(p.Name()).Append(p);
    assert r.items == [Text(t.Name())] + f + [p];
    assert r.Nodes() == f + [p];
    FirstNamedConcat(f, [p], name);
    WithoutOther(t.Nodes(), p.Name(), name);
    assert [p][1..] == [];
    assert FirstNamed([p], name) == if IsNode(p, name) then p else Null;
  }
}
