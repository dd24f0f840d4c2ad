/** The built-in types, one by one: which values each accepts. */
module BuiltinTypes {
  import opened AssocTree
  import opened TypeInfo
  import opened TypeRegistry
  import opened TypeChecking

  const BUILT_IN := ["bool", "number", "integer", "string", "list", "map", "string-enum", "int-enum"]

  /** The base type, with the parameters merged, accepts the value, if there is a base. */
  ghost predicate BaseAccepts(env: Env, t: Tree, v: Variant)
    requires Acyclic(env.core)
  {
    BaseOf(env.core, t.Name()) != Null ==> Accepts(env, Merged(env.core, t), v)
  }

  lemma AcceptsOrNot(env: Env, t: Tree, v: Variant, i: nat) returns (a: Tree)
    requires Acyclic(env.core) && HasAncestor(env.core, t, i)
    ensures a == Ancestor(env.core, t, i)
    ensures Accepts(env, a, v) <==> BaseAccepts(env, a, v) && Fits(env, a, v)
    ensures Accepts(env, t, v) ==> Accepts(env, a, v)
  {
    hide Fits, Merged, BaseOf;
    a := Ancestor(env.core, t, i);
    if Accepts(env, t, v) {
      AncestorsAccept(env, t, v, i);
    }
  }

  lemma BoolType(env: Env, t: Tree, v: Variant, i: nat)
    requires Acyclic(env.core) && NamedAt(env.core, t, i, "bool")
    ensures var a := Ancestor(env.core, t, i);
      Accepts(env, a, v) <==> BaseAccepts(env, a, v) && v.Bool?
    ensures Accepts(env, t, v) ==> v.Bool?
  {
    var a := AcceptsOrNot(env, t, v, i);
    hide Accepts, BaseAccepts, Ancestor, HasAncestor;
  }

  lemma StringType(env: Env, t: Tree, v: Variant, i: nat)
    requires Acyclic(env.core) && NamedAt(env.core, t, i, "string")
    ensures var a := Ancestor(env.core, t, i);
      Accepts(env, a, v) <==> BaseAccepts(env, a, v) && v.String?
    ensures Accepts(env, t, v) ==> v.String?
  {
    var a := AcceptsOrNot(env, t, v, i);
    hide Accepts, BaseAccepts, Ancestor, HasAncestor;
  }

  lemma IntegerType(env: Env, t: Tree, v: Variant, i: nat)
    requires Acyclic(env.core) && NamedAt(env.core, t, i, "integer")
    ensures var a := Ancestor(env.core, t, i);
      Accepts(env, a, v) <==> BaseAccepts(env, a, v) && v.Integer?
    ensures Accepts(env, t, v) ==> v.Integer?
  {
    var a := AcceptsOrNot(env, t, v, i);
    hide Accepts, BaseAccepts, Ancestor, HasAncestor;
  }

  /** Neither below the minimum nor above the maximum, if they are given. */
  ghost predicate IsNumber(env: Env, min: Tree, max: Tree, v: Variant) {
    && env.canConvertToDouble(v)
    && (min != Null ==> !env.toDouble(v).Less(env.treeToDouble(min)))
    && (max != Null ==> !env.treeToDouble(max).Less(env.toDouble(v)))
  }

  lemma NumberType(env: Env, t: Tree, v: Variant, i: nat)
    requires Acyclic(env.core) && NamedAt(env.core, t, i, "number")
    ensures var a := Ancestor(env.core, t, i);
      && (Accepts(env, a, v) <==> BaseAccepts(env, a, v) && IsNumber(env, a.ValueOf("min"), a.ValueOf("max"), v))
      && (Accepts(env, t, v) ==> IsNumber(env, a.ValueOf("min"), a.ValueOf("max"), v))
  {
    var a := AcceptsOrNot(env, t, v, i);
    hide Accepts, BaseAccepts, Ancestor, HasAncestor, Tree.ValueOf;
  }

  /** Between two numbers means between them in the order of the numbers. */
  lemma NumbersBetween(env: Env, min: Tree, max: Tree, v: Variant, lo: real, x: real, hi: real)
    requires min != Null && env.treeToDouble(min) == Finite(lo)
    requires max != Null && env.treeToDouble(max) == Finite(hi)
    requires env.canConvertToDouble(v) && env.toDouble(v) == Finite(x)
    ensures IsNumber(env, min, max, v) <==> lo <= x <= hi
  {
  }

  /** A list of a length within the bounds whose elements are accepted by the element type. */
  ghost predicate IsListOf(env: Env, min: Tree, max: Tree, element: Tree, v: Variant)
    requires Acyclic(env.core)
  {
    && v.List?
    && (min != Null ==> env.treeToInt(min) <= |v.items|)
    && (max != Null ==> |v.items| <= env.treeToInt(max))
    && (element != Null ==> forall j | 0 <= j < |v.items| :: Accepts(env, element, v.items[j]))
  }

  lemma ListFits(env: Env, a: Tree, v: Variant)
    requires Acyclic(env.core) && a.Name() == "list"
    ensures Fits(env, a, v) <==> IsListOf(env, a.ValueOf("min"), a.ValueOf("max"), a.ValueOf("type"), v)
  {
    hide Accepts, Tree.ValueOf;
  }

  lemma ListType(env: Env, t: Tree, v: Variant, i: nat)
    requires Acyclic(env.core) && NamedAt(env.core, t, i, "list")
    ensures var a := Ancestor(env.core, t, i);
      var min, max, element := a.ValueOf("min"), a.ValueOf("max"), a.ValueOf("type");
      && (Accepts(env, a, v) <==> BaseAccepts(env, a, v) && IsListOf(env, min, max, element, v))
      && (Accepts(env, t, v) ==> IsListOf(env, min, max, element, v))
  {
    var a := AcceptsOrNot(env, t, v, i);
    hide Accepts, BaseAccepts, Ancestor, HasAncestor, Tree.ValueOf, Fits, IsListOf;
    ListFits(env, a, v);
  }

  /** The entry is of the type that the last description of its key gives, or of any type if that
      gives none; an entry that is not described needs "allow-other-keys". */
  ghost predicate EntryAllowed(env: Env, ps: seq<Tree>, k: string, v: Variant)
    requires Acyclic(env.core)
  {
    if k != "allow-other-keys" && exists j: nat :: LastMention(ps, k, j)
    then forall j: nat | LastMention(ps, k, j) && ps[j].ValueOf("type") != Null ::
      Accepts(env, ps[j].ValueOf("type"), v)
    else exists j | 0 <= j < |ps| :: ps[j].Name() == "allow-other-keys"
  }

  /** Nothing is described if all parameters are "allow-other-keys". */
  ghost predicate IsMapOf(env: Env, ps: seq<Tree>, v: Variant)
    requires Acyclic(env.core)
  {
    && v.Map?
    && ((forall j | 0 <= j < |ps| :: ps[j].Name() == "allow-other-keys") ||
        forall k | k in v.entries :: EntryAllowed(env, ps, k, v.entries[k]))
  }

  lemma {:induction false} AllowedKeysAre(ps: seq<Tree>, k: string)
    ensures k in AllowedKeys(ps) <==> k != "allow-other-keys" && Mentions(ps, k)
    ensures k in AllowedKeys(ps) ==> AllowedKeys(ps)[k] == LastNamed(ps, k).ValueOf("type")
  {
    hide Tree.ValueOf, Mentions, LastNamed;
    if |ps| == 0 {
      NothingMentioned(k);
    } else {
      var n := |ps| - 1;
      AllowedKeysAre(ps[..n], k);
      LastOfExtended(ps[..n], ps[n], k);
      assert ps == ps[..n] + [ps[n]];
    }
  }

  lemma LastMentionOf(ps: seq<Tree>, k: string)
    ensures Mentions(ps, k) <==> exists j: nat :: LastMention(ps, k, j)
    ensures forall j: nat | LastMention(ps, k, j) :: LastNamed(ps, k) == ps[j]
  {
    hide LastNamed;
    if Mentions(ps, k) {
      var j := SomeLastMention(ps, k);
    }
    forall j: nat | LastMention(ps, k, j) ensures LastNamed(ps, k) == ps[j] {
      LastNamedIsLast(ps, k, j);
    }
  }

  lemma NothingDescribed(ps: seq<Tree>)
    ensures AllowedKeys(ps) == map[] <==> forall j | 0 <= j < |ps| :: ps[j].Name() == "allow-other-keys"
  {
    hide AllowedKeys;
    forall j | 0 <= j < |ps| && ps[j].Name() != "allow-other-keys" ensures ps[j].Name() in AllowedKeys(ps) {
      AllowedKeysAre(ps, ps[j].Name());
    }
    forall k ensures k in AllowedKeys(ps) ==> exists j | 0 <= j < |ps| :: ps[j].Name() == k != "allow-other-keys" {
      AllowedKeysAre(ps, k);
    }
    assert AllowedKeys(ps) != map[] ==> exists k :: k in AllowedKeys(ps);
  }

  /** What the checker's table of keys says about an entry. */
  ghost predicate EntryChecked(env: Env, keys: map<string, Tree>, others: bool, k: string, v: Variant)
    requires Acyclic(env.core)
  {
    if k in keys then keys[k] != Null ==> Accepts(env, keys[k], v) else others
  }

  lemma EntryIsChecked(env: Env, ps: seq<Tree>, k: string, v: Variant)
    requires Acyclic(env.core)
    ensures EntryChecked(env, AllowedKeys(ps), Mentions(ps, "allow-other-keys"), k, v) <==> EntryAllowed(env, ps, k, v)
  {
    hide Accepts, AllowedKeys, LastNamed, Tree.ValueOf, LastMention;
    AllowedKeysAre(ps, k);
    LastMentionOf(ps, k);
  }

  lemma MapFits(env: Env, a: Tree, v: Variant)
    requires Acyclic(env.core) && a.Name() == "map"
    ensures Fits(env, a, v) <==> v.Map? && (AllowedKeys(a.Nodes()) == map[] || forall k | k in v.entries ::
      EntryChecked(env, AllowedKeys(a.Nodes()), Mentions(a.Nodes(), "allow-other-keys"), k, v.entries[k]))
  {
    hide Accepts, Mentions, AllowedKeys;
  }

  lemma MapType(env: Env, t: Tree, v: Variant, i: nat)
    requires Acyclic(env.core) && NamedAt(env.core, t, i, "map")
    ensures var a := Ancestor(env.core, t, i);
      && (Accepts(env, a, v) <==> BaseAccepts(env, a, v) && IsMapOf(env, a.Nodes(), v))
      && (Accepts(env, t, v) ==> IsMapOf(env, a.Nodes(), v))
  {
    var a := AcceptsOrNot(env, t, v, i);
    MapFits(env, a, v);
    hide Accepts, BaseAccepts, Ancestor, HasAncestor, Fits, Mentions, AllowedKeys, EntryAllowed, EntryChecked;
    hide Tree.Name;
    var ps := a.Nodes();
    NothingDescribed(ps);
    if v.Map? {
      forall k | k in v.entries
        ensures EntryChecked(env, AllowedKeys(ps), Mentions(ps, "allow-other-keys"), k, v.entries[k]) <==>
                EntryAllowed(env, ps, k, v.entries[k])
      {
        EntryIsChecked(env, ps, k, v.entries[k]);
      }
    }
  }

  lemma EnumsFit(env: Env, a: Tree, v: Variant)
    requires Acyclic(env.core)
    ensures a.Name() == "string-enum" ==> (Fits(env, a, v) <==> Mentions(a.Nodes(), env.toText(v)))
    ensures a.Name() == "int-enum" ==> (Fits(env, a, v) <==> HasValue(env, a.Nodes(), env.toInt(v)))
  {
    hide Mentions, HasValue;
  }

  lemma StringEnumType(env: Env, t: Tree, v: Variant, i: nat)
    requires Acyclic(env.core) && NamedAt(env.core, t, i, "string-enum")
    ensures var a := Ancestor(env.core, t, i);
      var listed := exists j | 0 <= j < |a.Nodes()| :: a.Nodes()[j].Name() == env.toText(v);
      && (Accepts(env, a, v) <==> BaseAccepts(env, a, v) && listed)
      && (Accepts(env, t, v) ==> listed)
  {
    var a := AcceptsOrNot(env, t, v, i);
    EnumsFit(env, a, v);
    hide Accepts, BaseAccepts, Ancestor, HasAncestor, Fits;
  }

  lemma IntEnumType(env: Env, t: Tree, v: Variant, i: nat)
    requires Acyclic(env.core) && NamedAt(env.core, t, i, "int-enum")
    ensures var a := Ancestor(env.core, t, i);
      var listed := exists j | 0 <= j < |a.Nodes()| :: env.treeToInt(a.Nodes()[j].ValueOf("value")) == env.toInt(v);
      && (Accepts(env, a, v) <==> BaseAccepts(env, a, v) && listed)
      && (Accepts(env, t, v) ==> listed)
  {
    var a := AcceptsOrNot(env, t, v, i);
    EnumsFit(env, a, v);
    hide Accepts, BaseAccepts, Ancestor, HasAncestor, Fits, Tree.ValueOf;
  }

  /** A type of any other name accepts what its base accepts. */
  lemma OtherType(env: Env, t: Tree, v: Variant)
    requires Acyclic(env.core)
    requires t.Name() !in BUILT_IN
    ensures Accepts(env, t, v) <==> BaseAccepts(env, t, v)
  {
    var a := AcceptsOrNot(env, t, v, 0);
    hide Accepts, BaseAccepts, Ancestor, HasAncestor;
  }

  // ---------------------------------------------------------------- a derived type, written out

  /** A core registry with one type: the numbers from `lo` to `hi`. */
  function Ranges(name: string, lo: string, hi: string): Tree {
    List([Text("types")] + [TypeNode(name, lo, hi)])
  }

  function TypeNode(name: string, lo: string, hi: string): Tree {
    List([Text("type")] + [Leaf("name", name), List([Text("base")] + [Range(lo, hi)])])
  }

  function Range(lo: string, hi: string): Tree {
    List([Text("number")] + [Leaf("min", lo), Leaf("max", hi)])
  }

  lemma RangeReads(lo: string, hi: string)
    ensures Range(lo, hi).Name() == "number"
    ensures Range(lo, hi).ValueOf("min") == Text(lo) && Range(lo, hi).ValueOf("max") == Text(hi)
  {
    var ts := [Leaf("min", lo), Leaf("max", hi)];
    PartsOfTrees("number", ts);
    ValueIsBehindName("number", ts, "min", 0, [Text(lo)]);
    ValueIsBehindName("number", ts, "max", 1, [Text(hi)]);
  }

  lemma TypeNodeReads(name: string, lo: string, hi: string)
    ensures var t := TypeNode(name, lo, hi);
      t.Name() == "type" && t.ValueOf("name") == Text(name) && t.ValueOf("base") == Range(lo, hi)
  {
    var ts := [Leaf("name", name), List([Text("base")] + [Range(lo, hi)])];
    PartsOfTrees("type", ts);
    ValueIsBehindName("type", ts, "name", 0, [Text(name)]);
    ValueIsBehindName("type", ts, "base", 1, [Range(lo, hi)]);
  }

  lemma RangesDefine(name: string, lo: string, hi: string, n: string)
    requires name !in OLD_NAMES
    ensures var core := Ranges(name, lo, hi);
      && BaseOf(core, name) == Range(lo, hi)
      && (Normalised(n) != name ==> BaseOf(core, n) == Null)
  {
    var t := TypeNode(name, lo, hi);
    TypeNodeReads(name, lo, hi);
    NormalisedStays(name);
    PartsOfTrees("types", [t]);
    hide Tree.ValueOf, Tree.Nodes, Tree.Name, FirstDefining, TypeNode, Normalised, OLD_NAMES, Range, Tree.Value;
    NullHasNoValue("base");
    OneDefinition(t, name, name);
    OneDefinition(t, name, Normalised(n));
  }

  lemma NormalisedStays(name: string)
    requires name !in OLD_NAMES
    ensures Normalised(name) == name
  {
  }

  lemma OneDefinition(t: Tree, name: string, n: string)
    requires t.Name() == "type" && t.ValueOf("name") == Text(name)
    ensures FirstDefining([t], n) == if n == name then t else Null
  {
    hide Tree.Name, Tree.ValueOf;
    if n == name { FirstDefiningIs([t], n, 0); } else { NoneDefining([t], n); }
  }

  lemma ShortChain(core: Tree, n: string)
    requires BaseOf(core, n) == Null || BaseOf(core, BaseOf(core, n).Name()) == Null
    ensures Grounded(core, n)
  {
    hide BaseOf;
    if BaseOf(core, n) == Null {
      assert Ends(core, n, 0);
    } else {
      assert Ends(core, n, 1);
    }
  }

  lemma RangesEnd(env: Env, name: string, lo: string, hi: string)
    requires env.core == Ranges(name, lo, hi) && name !in OLD_NAMES && name != "number"
    ensures Acyclic(env.core)
  {
    hide Grounded, Ranges, OLD_NAMES;
    forall n ensures Grounded(env.core, n) {
      RangeEnds(name, lo, hi, n);
    }
  }

  lemma RangeEnds(name: string, lo: string, hi: string, n: string)
    requires name !in OLD_NAMES && name != "number"
    ensures Grounded(Ranges(name, lo, hi), n)
  {
    assert Normalised("number") == "number";
    hide BaseOf, Ranges, Range, Normalised, OLD_NAMES, Tree.ValueOf, Tree.Name, Grounded;
    RangeReads(lo, hi);
    RangesDefine(name, lo, hi, "number");
    RangesDefine(name, lo, hi, n);
    SameDefinition(Ranges(name, lo, hi), n);
    ShortChain(Ranges(name, lo, hi), n);
  }

  /** Merging one parameter into the base. */
  lemma OneParameter(core: Tree, name: string, parameter: string, x: string, wanted: string)
    requires BaseOf(core, name) != Null
    ensures var b := BaseOf(core, name);
      && Merged(core, Text(name)).ValueOf(wanted) == b.ValueOf(wanted)
      && Merged(core, List([Text(name)] + [Leaf(parameter, x)])).ValueOf(wanted) ==
           if wanted == parameter then Text(x) else b.ValueOf(wanted)
  {
    var p := Leaf(parameter, x);
    PartsOfTrees(name, [p]);
    PartsOfTrees(parameter, [Text(x)]);
    hide BaseOf, Merged;
    MergingIsOverride(core, Text(name), wanted);
    MergingIsOverride(core, List([Text(name)] + [p]), wanted);
    hide Mentions, LastNamed, FirstNamed;
    NothingMentioned(wanted);
    LastOfExtended([], p, wanted);
    assert [] + [p] == [p];
  }

  lemma RangeAccepts(env: Env, t: Tree, b: Tree, v: Variant)
    requires Acyclic(env.core) && t.Name() !in BUILT_IN
    requires BaseOf(env.core, t.Name()) == b != Null && b.Name() == "number" && BaseOf(env.core, "number") == Null
    ensures var m := Merged(env.core, t);
      Accepts(env, t, v) <==> IsNumber(env, m.ValueOf("min"), m.ValueOf("max"), v)
  {
    var m := Merged(env.core, t);
    MergedName(env.core, t);
    assert NamedAt(env.core, m, 0, "number") && Ancestor(env.core, m, 0) == m;
    hide Accepts, Merged, BaseOf, IsNumber, Tree.ValueOf;
    OtherType(env, t, v);
    NumberType(env, m, v, 0);
  }

  lemma NumberIsBuiltIn(name: string)
    requires name !in BUILT_IN
    ensures name != "number" && Normalised("number") == "number"
  {
  }

  /** Bounds of a derived type hold for its values; an instance may replace one and keep the other. */
  lemma DerivedRange(env: Env, name: string, lo: string, hi: string, x: string, v: Variant)
    requires env.core == Ranges(name, lo, hi)
    requires name !in OLD_NAMES && name !in BUILT_IN
    ensures Acyclic(env.core)
    ensures Accepts(env, Text(name), v) <==> IsNumber(env, Text(lo), Text(hi), v)
    ensures Accepts(env, List([Text(name)] + [Leaf("min", x)]), v) <==> IsNumber(env, Text(x), Text(hi), v)
  {
    NumberIsBuiltIn(name);
    RangesEnd(env, name, lo, hi);
    var b, instance := Range(lo, hi), List([Text(name)] + [Leaf("min", x)]);
    PartsOfTrees(name, [Leaf("min", x)]);
    RangeReads(lo, hi);
    hide Accepts, Merged, BaseOf, Ranges, Leaf, IsNumber, Tree.ValueOf, BUILT_IN, OLD_NAMES, Normalised, Acyclic;
    hide Tree.Name;
    RangesDefine(name, lo, hi, "number");
    RangeAccepts(env, Text(name), b, v);
    RangeAccepts(env, instance, b, v);
    OneParameter(env.core, name, "min", x, "min");
    OneParameter(env.core, name, "min", x, "max");
  }
}
