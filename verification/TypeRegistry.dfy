/** Type definitions, found by scanning the core type tree and remembered in a cache. */
module TypeRegistry {
  import opened AssocTree

  const OLD_NAMES := ["TRUTH", "INT", "INTEGER", "STRING", "DOUBLE"]

  /** Old type names are looked up under their new names. */
  function Normalised(name: string): string {
    if name == "TRUTH" then "bool"
    else if name == "STRING" then "string"
    else if name == "INT" then "integer"
    else if name == "INTEGER" then "integer"
    else if name == "DOUBLE" then "double"
    else name
  }

  predicate Defines(t: Tree, name: string) {
    t.Name() == "type" && t.ValueOf("name") == Text(name)
  }

  function FirstDefining(ts: seq<Tree>, name: string): Tree {
    if |ts| == 0 then Null
    else if Defines(ts[0], name) then ts[0]
    else FirstDefining(ts[1..], name)
  }

  /** What a fresh linear scan finds. */
  function Definition(core: Tree, name: string): Tree {
    FirstDefining(core.Nodes(), Normalised(name))
  }

  lemma {:induction false} FirstDefiningIs(ts: seq<Tree>, name: string, i: nat)
    requires IsFirstType(ts, name, i)
    ensures FirstDefining(ts, name) == ts[i]
  {
    hide Tree.Name, Tree.ValueOf;
    if i > 0 {
      FirstDefiningIs(ts[1..], name, i - 1);
    }
  }

  lemma {:induction false} NoneDefining(ts: seq<Tree>, name: string)
    requires forall i | 0 <= i < |ts| :: ts[i].Name() != "type" || ts[i].ValueOf("name") != Text(name)
    ensures FirstDefining(ts, name) == Null
  {
    hide Tree.Name, Tree.ValueOf;
    if |ts| > 0 {
      NoneDefining(ts[1..], name);
    }
  }

  /** Node number i is the first one called "type" that gives the name. */
  ghost predicate IsFirstType(ts: seq<Tree>, name: string, i: nat) {
    && i < |ts| && ts[i].Name() == "type" && ts[i].ValueOf("name") == Text(name)
    && forall j | 0 <= j < i :: ts[j].Name() != "type" || ts[j].ValueOf("name") != Text(name)
  }

  /** A type is defined by the first node called "type" that gives its name, if there is one. */
  lemma DefinitionIs(core: Tree, name: string)
    requires name !in OLD_NAMES
    ensures forall i: nat | IsFirstType(core.Nodes(), name, i) :: Definition(core, name) == core.Nodes()[i]
    ensures var ts := core.Nodes();
      (forall i | 0 <= i < |ts| :: ts[i].Name() != "type" || ts[i].ValueOf("name") != Text(name)) ==>
        Definition(core, name) == Null
  {
    assert Normalised(name) == name;
    hide Tree.Name, Tree.ValueOf, Tree.Nodes, FirstDefining, Normalised, OLD_NAMES;
    var ts := core.Nodes();
    forall i: nat | IsFirstType(ts, name, i) ensures FirstDefining(ts, name) == ts[i] {
      FirstDefiningIs(ts, name, i);
    }
    if forall i | 0 <= i < |ts| :: ts[i].Name() != "type" || ts[i].ValueOf("name") != Text(name) {
      NoneDefining(ts, name);
    }
  }

  /** Old names are looked up under new ones. */
  lemma OldNamesAre(core: Tree)
    ensures Definition(core, "TRUTH") == Definition(core, "bool")
    ensures Definition(core, "STRING") == Definition(core, "string")
    ensures Definition(core, "INT") == Definition(core, "INTEGER") == Definition(core, "integer")
    ensures Definition(core, "DOUBLE") == Definition(core, "double")
  {
    hide FirstDefining, Tree.Nodes;
  }

  /** One lookup with a cache: the answer and the cache afterwards. */
  function LookUp(core: Tree, cache: map<string, Tree>, name: string): (Tree, map<string, Tree>) {
    var n := Normalised(name);
    if n in cache then (cache[n], cache)
    else
      var t := FirstDefining(core.Nodes(), n);
      (t, if t != Null then cache[n := t] else cache)
  }

  function CacheAfter(core: Tree, names: seq<string>): map<string, Tree> {
    if |names| == 0 then map[]
    else LookUp(core, CacheAfter(core, names[..|names| - 1]), names[|names| - 1]).1
  }

  ghost predicate CacheSound(core: Tree, cache: map<string, Tree>) {
    forall n | n in cache :: cache[n] == FirstDefining(core.Nodes(), n) != Null
  }

  lemma {:induction false} CacheStaysSound(core: Tree, names: seq<string>)
    ensures CacheSound(core, CacheAfter(core, names))
  {
    if |names| > 0 {
      CacheStaysSound(core, names[..|names| - 1]);
    }
  }

  /** After any sequence of lookups, a lookup answers what a fresh scan would, and a cached answer
      is there exactly if that name was asked for before and is defined. */
  lemma {:induction false} CacheIsCoherent(core: Tree, names: seq<string>, name: string)
    ensures LookUp(core, CacheAfter(core, names), name).0 == Definition(core, name)
    ensures Normalised(name) in CacheAfter(core, names) <==>
      Definition(core, name) != Null && exists i :: 0 <= i < |names| && Normalised(names[i]) == Normalised(name)
  {
    hide FirstDefining, Normalised;
    CacheStaysSound(core, names);
    if |names| > 0 {
      var k := |names| - 1;
      CacheIsCoherent(core, names[..k], name);
      CacheStaysSound(core, names[..k]);
      if i :| 0 <= i < |names| && Normalised(names[i]) == Normalised(name) {
        if i < k {
          assert Normalised(names[..k][i]) == Normalised(name);
        }
      }
    }
  }

  class ContextTypeRegistryInfo {
    const coreTree: Tree
    var typeCache: map<string, Tree>

    ghost predicate Valid()
      reads this
    {
      CacheSound(coreTree, typeCache)
    }

    constructor (core: Tree)
      ensures Valid() && coreTree == core && typeCache == map[]
    {
      coreTree, typeCache := core, map[];
    }

    method TypeDefinitionForName(name: string) returns (t: Tree)
      requires Valid()
      modifies this
      ensures Valid() && t == Definition(coreTree, name)
      ensures (t, typeCache) == LookUp(coreTree, old(typeCache), name)
    {
      var n := Normalised(name);
      if n in typeCache {
        return typeCache[n];
      }
      var nodes := coreTree.Nodes();
      var i := 0;
      while i < |nodes|
        invariant 0 <= i <= |nodes| && typeCache == old(typeCache)
        invariant FirstDefining(nodes[i..], n) == FirstDefining(nodes, n)
      {
        assert nodes[i..][1..] == nodes[i + 1..];
        if Defines(nodes[i], n) {
          typeCache := typeCache[n := nodes[i]];
          return nodes[i];
        }
        i := i + 1;
      }
      return Null;
    }
  }
}
