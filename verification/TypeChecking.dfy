/** What acceptance by a type means, and the recursive checker with its loops. */
module TypeChecking {
  import opened AssocTree
  import opened TypeInfo

  // ---------------------------------------------------------------- the chain of merged bases

  predicate HasAncestor(core: Tree, t: Tree, i: nat)
    decreases i
  {
    i == 0 || (BaseOf(core, t.Name()) != Null && HasAncestor(core, Merged(core, t), i - 1))
  }

  /** The i-th base type up the chain, parameters merged at every step. */
  function Ancestor(core: Tree, t: Tree, i: nat): Tree
    requires HasAncestor(core, t, i)
    decreases i
  {
    if i == 0 then t else Ancestor(core, Merged(core, t), i - 1)
  }

  lemma {:induction false} AncestorsBefore(core: Tree, t: Tree, i: nat, j: nat)
    requires HasAncestor(core, t, i) && j <= i
    ensures HasAncestor(core, t, j)
    decreases i
  {
    hide BaseOf, Merged;
    if j > 0 {
      AncestorsBefore(core, Merged(core, t), i - 1, j - 1);
    }
  }

  lemma {:induction false} EndsMeansNoAncestor(core: Tree, t: Tree, n: nat)
    ensures Ends(core, t.Name(), n) <==> !HasAncestor(core, t, n + 1)
    decreases n
  {
    hide BaseOf, Merged;
    MergedName(core, t);
    if n > 0 {
      EndsMeansNoAncestor(core, Merged(core, t), n - 1);
    }
  }

  /** The chain is infinite, and typeCheck recurses for ever on every value, exactly for the names
      that are not grounded. */
  lemma UngroundedNeverEnds(core: Tree, t: Tree)
    ensures !Grounded(core, t.Name()) <==> forall i: nat :: HasAncestor(core, t, i)
  {
    hide BaseOf, Merged;
    if Grounded(core, t.Name()) {
      var n: nat :| Ends(core, t.Name(), n);
      EndsMeansNoAncestor(core, t, n);
    } else {
      forall i: nat
        ensures HasAncestor(core, t, i)
      {
        if i > 0 {
          EndsMeansNoAncestor(core, t, i - 1);
        }
      }
    }
  }

  /** Acceptance is downward sound: every merged ancestor accepts what the type accepts. */
  lemma {:induction false} AncestorsAccept(env: Env, t: Tree, v: Variant, i: nat)
    requires Acyclic(env.core) && Accepts(env, t, v) && HasAncestor(env.core, t, i)
    ensures Accepts(env, Ancestor(env.core, t, i), v)
    decreases i
  {
    hide BaseOf, Merged, Fits;
    if i > 0 {
      AncestorsAccept(env, Merged(env.core, t), v, i - 1);
    }
  }

  lemma FitsAllSteps(env: Env, t: Tree, v: Variant)
    requires Acyclic(env.core) && BaseOf(env.core, t.Name()) != Null
    ensures FitsAll(env, t, v) <==> Fits(env, t, v) && FitsAll(env, Merged(env.core, t), v)
  {
    hide BaseOf, Merged, Fits;
    var b := Merged(env.core, t);
    if FitsAll(env, t, v) {
      assert HasAncestor(env.core, t, 0) && Ancestor(env.core, t, 0) == t;
      forall i: nat | HasAncestor(env.core, b, i)
        ensures Fits(env, Ancestor(env.core, b, i), v)
      {
        assert HasAncestor(env.core, t, i + 1) && Ancestor(env.core, t, i + 1) == Ancestor(env.core, b, i);
      }
    }
    if Fits(env, t, v) && FitsAll(env, b, v) {
      forall i: nat | HasAncestor(env.core, t, i)
        ensures Fits(env, Ancestor(env.core, t, i), v)
      {
        if i > 0 {
          assert HasAncestor(env.core, b, i - 1) && Ancestor(env.core, t, i) == Ancestor(env.core, b, i - 1);
        }
      }
    }
  }

  lemma FitsAllAlone(env: Env, t: Tree, v: Variant)
    requires Acyclic(env.core) && BaseOf(env.core, t.Name()) == Null
    ensures FitsAll(env, t, v) <==> Fits(env, t, v)
  {
    hide BaseOf, Merged, Fits;
    assert HasAncestor(env.core, t, 0) && Ancestor(env.core, t, 0) == t;
    assert forall i: nat | HasAncestor(env.core, t, i) :: i == 0;
  }

  /** Every merged ancestor's own name is satisfied. */
  ghost predicate FitsAll(env: Env, t: Tree, v: Variant)
    requires Acyclic(env.core)
  {
    forall i: nat | HasAncestor(env.core, t, i) :: Fits(env, Ancestor(env.core, t, i), v)
  }

  /** Acceptance means fitting every merged ancestor, and nothing else. */
  lemma {:induction false} AcceptsMeansFitsAll(env: Env, t: Tree, v: Variant)
    requires Acyclic(env.core)
    ensures Accepts(env, t, v) <==> FitsAll(env, t, v)
    decreases assert Grounded(env.core, t.Name()); Height(env.core, t.Name())
  {
    hide BaseOf, Merged, Fits, FitsAll;
    if BaseOf(env.core, t.Name()) != Null {
      BaseIsLower(env.core, t);
      AcceptsMeansFitsAll(env, Merged(env.core, t), v);
      FitsAllSteps(env, t, v);
    } else {
      FitsAllAlone(env, t, v);
    }
  }

  // ---------------------------------------------------------------- parameters override

  /** The last parameter of that name; Null if there is none. */
  function LastNamed(ps: seq<Tree>, name: string): (p: Tree)
    ensures !Mentions(ps, name) ==> p == Null
    ensures Mentions(ps, name) ==> p in ps && p.Name() == name
  {
    if |ps| == 0 then Null
    else
      var n := |ps| - 1;
      assert ps == ps[..n] + [ps[n]];
      if ps[n].Name() == name then ps[n]
      else
        assert Mentions(ps, name) <==> Mentions(ps[..n], name);
        LastNamed(ps[..n], name)
  }

  lemma LastOfExtended(ps: seq<Tree>, p: Tree, name: string)
    ensures Mentions(ps + [p], name) <==> Mentions(ps, name) || p.Name() == name
    ensures LastNamed(ps + [p], name) == if p.Name() == name then p else LastNamed(ps, name)
  {
    var qs := ps + [p];
    assert qs[..|ps|] == ps && qs[|ps|] == p;
    if k :| 0 <= k < |ps| && ps[k].Name() == name {
      assert qs[k].Name() == name;
    }
  }

  predicate LastMention(ts: seq<Tree>, name: string, i: nat) {
    i < |ts| && ts[i].Name() == name && forall j | i < j < |ts| :: ts[j].Name() != name
  }

  lemma {:induction false} LastNamedIsLast(ts: seq<Tree>, name: string, i: nat)
    requires LastMention(ts, name, i)
    ensures LastNamed(ts, name) == ts[i]
  {
    var n := |ts| - 1;
    if i < n {
      LastNamedIsLast(ts[..n], name, i);
    }
  }

  lemma {:induction false} SomeLastMention(ts: seq<Tree>, name: string) returns (i: nat)
    requires Mentions(ts, name)
    ensures LastMention(ts, name, i)
  {
    var n := |ts| - 1;
    if ts[n].Name() == name {
      i := n;
    } else {
      assert ts == ts[..n] + [ts[n]];
      LastOfExtended(ts[..n], ts[n], name);
      i := SomeLastMention(ts[..n], name);
    }
  }

  lemma SomeFirstNode(ts: seq<Tree>, name: string) returns (i: nat)
    requires FirstNamed(ts, name) != Null
    ensures FirstNode(ts, name, i) && FirstNamed(ts, name) == ts[i] && Mentions(ts, name)
  {
    i :| i < |ts| && FirstNamed(ts, name) == ts[i] && IsNode(ts[i], name) &&
         forall j | 0 <= j < i :: !IsNode(ts[j], name);
    assert ts[i].Name() == name;
  }

  /** No node has the name, and either nothing else has or the last that does is a null tree, whose
      name is empty. */
  ghost predicate NothingFound(ts: seq<Tree>, name: string) {
    && (forall i | 0 <= i < |ts| :: !IsNode(ts[i], name))
    && (!Mentions(ts, name) || exists j: nat :: LastMention(ts, name, j) && ts[j] == Null)
  }

  lemma NothingIsFound(ts: seq<Tree>, name: string)
    ensures NothingFound(ts, name) <==> FirstNamed(ts, name) == Null && LastNamed(ts, name) == Null
    ensures name != "" ==> (NothingFound(ts, name) <==> !Mentions(ts, name))
  {
    hide LastNamed;
    if Mentions(ts, name) {
      var j := SomeLastMention(ts, name);
      LastNamedIsLast(ts, name, j);
      forall i: nat | LastMention(ts, name, i) ensures i == j {}
    } else {
      forall i | 0 <= i < |ts| ensures !IsNode(ts[i], name) {
        assert IsNode(ts[i], name) ==> ts[i].Name() == name;
      }
    }
  }

  /** A type's own parameters are looked up from the front, merged ones from the back: both find the
      same exactly if the first node of the name is also its last mention, or the name does not occur. */
  lemma FirstIsLast(ts: seq<Tree>, name: string)
    ensures FirstNamed(ts, name) == LastNamed(ts, name) <==>
      || (exists i: nat, j: nat :: FirstNode(ts, name, i) && LastMention(ts, name, j) && ts[i] == ts[j])
      || NothingFound(ts, name)
    ensures name != "" ==> (NothingFound(ts, name) <==> !Mentions(ts, name))
  {
    NothingIsFound(ts, name);
    hide LastNamed, Mentions;
    if FirstNamed(ts, name) != Null {
      var i := SomeFirstNode(ts, name);
      var j := SomeLastMention(ts, name);
      LastNamedIsLast(ts, name, j);
    }
    if i: nat, j: nat :| FirstNode(ts, name, i) && LastMention(ts, name, j) && ts[i] == ts[j] {
      LastNamedIsLast(ts, name, j);
      FirstNamedIsFirst(ts, name, i);
    }
  }

  /** Two bounds of one name: a type's own check sees the first, its bases the second. */
  lemma RepeatedBound(a: string, b: string)
    requires a != b
    ensures var t := List([Text("number"), List([Text("min"), Text(a)]), List([Text("min"), Text(b)])]);
      t.ValueOf("min") == Text(a) && LastNamed(t.Nodes(), "min").Value() == Text(b)
  {
    var t := List([Text("number"), List([Text("min"), Text(a)]), List([Text("min"), Text(b)])]);
    var ts := t.Nodes();
    assert ts == [List([Text("min"), Text(a)]), List([Text("min"), Text(b)])];
    FirstNamedIsFirst(ts, "min", 0);
    LastNamedIsLast(ts, "min", 1);
  }

  /** Looking up a name where parameters override a default: the last parameter of that name, or
      nothing if that is written as a bare string. */
  function Overridden(ps: seq<Tree>, name: string, default: Tree): Tree {
    if Mentions(ps, name) then (if IsNode(LastNamed(ps, name), name) then LastNamed(ps, name) else Null) else default
  }

  lemma OverriddenStep(ps: seq<Tree>, p: Tree, name: string, default: Tree)
    ensures Overridden(ps + [p], name, default) ==
      if name == p.Name() then (if IsNode(p, name) then p else Null) else Overridden(ps, name, default)
  {
    hide Mentions, LastNamed;
    LastOfExtended(ps, p, name);
  }

  lemma {:induction false} WithParametersLookUp(b: Tree, ps: seq<Tree>, name: string)
    requires b.List?
    ensures WithParameters(b, ps).Node(name) == Overridden(ps, name, b.Node(name))
  {
    hide FirstNamed, Without, Mentions, Overridden, IsNode, WithParameters, Tree.Node, Tree.FilterOut, Tree.Append;
    if |ps| > 0 {
      var n := |ps| - 1;
      var before := WithParameters(b, ps[..n]);
      WithParametersStep(b, ps);
      WithParametersLookUp(b, ps[..n], name);
      WithParametersName(b, ps[..n]);
      ReplaceThenLookUp(before, ps[n], name);
      OverriddenStep(ps[..n], ps[n], name, b.Node(name));
      assert ps == ps[..n] + [ps[n]];
    } else {
      WithNoParameters(b, name);
    }
  }

  lemma WithParametersStep(b: Tree, ps: seq<Tree>)
    requires |ps| > 0
    ensures var n := |ps| - 1;
      WithParameters(b, ps) == WithParameters(b, ps[..n]).FilterOut(ps[n].Name()).Append(ps[n])
  {
    hide Without, Tree.FilterOut, Tree.Append;
  }

  lemma WithNoParameters(b: Tree, name: string)
    ensures WithParameters(b, []) == b && Overridden([], name, b.Node(name)) == b.Node(name)
  {
    NothingMentioned(name);
  }

  lemma NothingMentioned(name: string)
    ensures !Mentions([], name)
  {
  }

  /** Looking a name up in the merged base gives the last instance parameter of that name if there
      is one (nothing, if that is written as a bare string), else the base's own default. */
  lemma MergingIsOverride(core: Tree, t: Tree, name: string)
    requires BaseOf(core, t.Name()) != Null
    ensures Merged(core, t).Node(name) == Overridden(t.Nodes(), name, BaseOf(core, t.Name()).Node(name))
  {
    var b := BaseOf(core, t.Name());
    WithParametersLookUp(AsList(b), t.Nodes(), name);
    assert AsList(b).Node(name) == b.Node(name) by {
      if !b.List? {
        assert AsList(b).Nodes() == [];
      }
    }
  }

  /** The last parameter of a name is also the last of that name after merging. */
  lemma {:induction false} LastParameterSurvives(b: Tree, ps: seq<Tree>, name: string)
    requires b.List? && Mentions(ps, name)
    ensures var m := WithParameters(b, ps);
      Mentions(m.Nodes(), name) && LastNamed(m.Nodes(), name) == LastNamed(ps, name)
  {
    hide Without, Mentions, LastNamed;
    var n := |ps| - 1;
    assert n >= 0 by {
      assert ps != [] by { MentionsSome(ps, name); }
    }
    var before := WithParameters(b, ps[..n]);
    WithParametersName(b, ps[..n]);
    var kept := Without(before.Nodes(), ps[n].Name());
    assert WithParameters(b, ps).Nodes() == kept + [ps[n]] by {
      assert WithParameters(b, ps).items == [Text(before.Name())] + kept + [ps[n]];
    }
    assert ps == ps[..n] + [ps[n]];
    LastOfExtended(ps[..n], ps[n], name);
    LastOfExtended(kept, ps[n], name);
    if ps[n].Name() != name {
      LastParameterSurvives(b, ps[..n], name);
      LastAfterWithout(before.Nodes(), ps[n].Name(), name);
    }
  }

  lemma MentionsSome(ps: seq<Tree>, name: string)
    requires Mentions(ps, name)
    ensures ps != []
  {
  }

  lemma {:induction false} LastAfterWithout(ts: seq<Tree>, name: string, other: string)
    requires other != name && Mentions(ts, other)
    ensures Mentions(Without(ts, name), other)
    ensures LastNamed(Without(ts, name), other) == LastNamed(ts, other)
    decreases |ts|
  {
    hide Mentions, LastNamed, Without;
    assert ts != [] by { MentionsSome(ts, other); }
    var n := |ts| - 1;
    var w := Without(ts[..n], name);
    assert ts == ts[..n] + [ts[n]];
    WithoutSplit(ts[..n], [ts[n]], name);
    WithoutOne(ts[n], name);
    assert w + [] == w;
    LastOfExtended(ts[..n], ts[n], other);
    LastOfExtended(w, ts[n], other);
    if ts[n].Name() == other {
      if Named(ts[n], name) { NamedHasName(ts[n], name); }
    } else {
      LastAfterWithout(ts[..n], name, other);
    }
  }

  lemma WithoutOne(t: Tree, name: string)
    ensures Without([t], name) == if Named(t, name) then [] else [t]
  {
    assert [t][1..] == [];
  }

  lemma NamedHasName(t: Tree, name: string)
    requires Named(t, name)
    ensures t.Name() == name
  {
  }

  lemma {:induction false} WithoutSplit(ts: seq<Tree>, us: seq<Tree>, name: string)
    ensures Without(ts + us, name) == Without(ts, name) + Without(us, name)
  {
    if |ts| == 0 {
      assert ts + us == us;
    } else {
      assert (ts + us)[1..] == ts[1..] + us;
      WithoutSplit(ts[1..], us, name);
    }
  }

  /** However long the chain, an instance parameter is what every proper ancestor looks up. */
  lemma {:induction false} ParameterReachesAncestors(core: Tree, t: Tree, i: nat, name: string)
    requires i > 0 && HasAncestor(core, t, i) && Mentions(t.Nodes(), name)
    requires IsNode(LastNamed(t.Nodes(), name), name)
    ensures Ancestor(core, t, i).Node(name) == LastNamed(t.Nodes(), name)
    decreases i
  {
    hide BaseOf, FirstNamed;
    var b := Merged(core, t);
    MergingIsOverride(core, t, name);
    if i > 1 {
      LastParameterSurvives(AsList(BaseOf(core, t.Name())), t.Nodes(), name);
      ParameterReachesAncestors(core, b, i - 1, name);
    }
  }

  /** What an accepted value's i-th ancestor has been checked with: the instance's own parameter, if it
      has one.  (On the type itself the first parameter of a name counts, further up the last one.) */
  lemma AncestorLooksUp(core: Tree, t: Tree, i: nat, name: string)
    requires HasAncestor(core, t, i) && IsNode(LastNamed(t.Nodes(), name), name)
    requires i > 0 || t.Node(name) == LastNamed(t.Nodes(), name)
    ensures Ancestor(core, t, i).ValueOf(name) == LastNamed(t.Nodes(), name).Value()
  {
    hide FirstNamed, BaseOf, Merged;
    if i > 0 {
      ParameterReachesAncestors(core, t, i, name);
    }
  }

  /** A bound on an instance is enforced however far up its chain `number` is: an accepted value is not
      below a minimum and not above a maximum, so it is within the bounds unless it or the bound is not
      a number. */
  lemma BoundsAreEnforced(env: Env, t: Tree, v: Variant, i: nat)
    requires Acyclic(env.core) && Accepts(env, t, v)
    requires HasAncestor(env.core, t, i) && Ancestor(env.core, t, i).Name() == "number"
    ensures var min, max := LastNamed(t.Nodes(), "min"), LastNamed(t.Nodes(), "max");
      var x := env.toDouble(v);
      && env.canConvertToDouble(v)
      && (IsNode(min, "min") && min.Value() != Null && (i > 0 || t.Node("min") == min) ==>
            env.treeToDouble(min.Value()).AtMost(x) || x == NotANumber || env.treeToDouble(min.Value()) == NotANumber)
      && (IsNode(max, "max") && max.Value() != Null && (i > 0 || t.Node("max") == max) ==>
            x.AtMost(env.treeToDouble(max.Value())) || x == NotANumber || env.treeToDouble(max.Value()) == NotANumber)
  {
    hide FirstNamed, BaseOf, Merged, LastNamed, HasAncestor, Ancestor, Double.Less, Double.AtMost;
    AncestorsAccept(env, t, v, i);
    var a, x := Ancestor(env.core, t, i), env.toDouble(v);
    assert Fits(env, a, v);
    var min, max := LastNamed(t.Nodes(), "min"), LastNamed(t.Nodes(), "max");
    if IsNode(min, "min") && (i > 0 || t.Node("min") == min) {
      AncestorLooksUp(env.core, t, i, "min");
      DoublesAreOrdered(env.treeToDouble(min.Value()), x);
    }
    if IsNode(max, "max") && (i > 0 || t.Node("max") == max) {
      AncestorLooksUp(env.core, t, i, "max");
      DoublesAreOrdered(x, env.treeToDouble(max.Value()));
    }
  }

  /** What is not a number is within all bounds, so that `number` itself accepts it with any. */
  lemma NotANumberIsInRange(env: Env, t: Tree, v: Variant)
    requires Acyclic(env.core) && t.Name() == "number"
    requires env.canConvertToDouble(v) && env.toDouble(v) == NotANumber
    ensures Fits(env, t, v)
  {
    hide FirstNamed;
  }

  /** The length bounds of an instance are enforced however far up its chain `list` is. */
  lemma LengthsAreEnforced(env: Env, t: Tree, v: Variant, i: nat)
    requires Acyclic(env.core) && Accepts(env, t, v)
    requires HasAncestor(env.core, t, i) && Ancestor(env.core, t, i).Name() == "list"
    ensures var min, max := LastNamed(t.Nodes(), "min"), LastNamed(t.Nodes(), "max");
      && v.List?
      && (IsNode(min, "min") && min.Value() != Null && (i > 0 || t.Node("min") == min) ==>
            env.treeToInt(min.Value()) <= |v.items|)
      && (IsNode(max, "max") && max.Value() != Null && (i > 0 || t.Node("max") == max) ==>
            |v.items| <= env.treeToInt(max.Value()))
  {
    hide FirstNamed, BaseOf, Merged, LastNamed, HasAncestor, Ancestor;
    AncestorsAccept(env, t, v, i);
    var a := Ancestor(env.core, t, i);
    assert Fits(env, a, v);
    var min, max := LastNamed(t.Nodes(), "min"), LastNamed(t.Nodes(), "max");
    if IsNode(min, "min") && (i > 0 || t.Node("min") == min) {
      AncestorLooksUp(env.core, t, i, "min");
    }
    if IsNode(max, "max") && (i > 0 || t.Node("max") == max) {
      AncestorLooksUp(env.core, t, i, "max");
    }
  }

  // ---------------------------------------------------------------- asking for a base type

  function Base(core: Tree, t: Tree): Tree {
    BaseOf(core, t.Name())
  }

  predicate HasBase(core: Tree, t: Tree, wanted: string, depth: nat)
    decreases depth
  {
    if t.Name() == wanted then true
    else if Base(core, t) == Null then false
    else if depth == 0 then false
    else HasBase(core, Base(core, t), wanted, depth - 1)
  }

  function GetBase(core: Tree, t: Tree, wanted: string, depth: nat): Tree
    decreases depth
  {
    if t.Name() == wanted then t
    else if Base(core, t) == Null then Null
    else if depth == 0 then Null
    else GetBase(core, Base(core, t), wanted, depth - 1)
  }

  lemma {:induction false} ChainDependsOnName(core: Tree, t: Tree, u: Tree, i: nat)
    requires t.Name() == u.Name()
    ensures HasAncestor(core, t, i) <==> HasAncestor(core, u, i)
    ensures HasAncestor(core, t, i) ==> Ancestor(core, t, i).Name() == Ancestor(core, u, i).Name()
    decreases i
  {
    hide BaseOf, Merged;
    if i > 0 {
      MergedName(core, t);
      MergedName(core, u);
      ChainDependsOnName(core, Merged(core, t), Merged(core, u), i - 1);
    }
  }

  /** The i-th type up the chain, if there is one, has the wanted name. */
  predicate NamedAt(core: Tree, t: Tree, i: nat, wanted: string) {
    HasAncestor(core, t, i) && Ancestor(core, t, i).Name() == wanted
  }

  lemma NamedAtNext(core: Tree, t: Tree, i: nat, wanted: string)
    ensures NamedAt(core, t, 0, wanted) <==> t.Name() == wanted
    ensures NamedAt(core, t, i + 1, wanted) <==>
      Base(core, t) != Null && NamedAt(core, Base(core, t), i, wanted)
  {
    hide BaseOf, Merged;
    MergedName(core, t);
    ChainDependsOnName(core, Base(core, t), Merged(core, t), i);
  }

  /** hasBase finds exactly the names of the chain up to the depth, and getBase then returns a type
      of that name. */
  lemma {:induction false} HasBaseSearchesChain(core: Tree, t: Tree, wanted: string, depth: nat)
    ensures HasBase(core, t, wanted, depth) <==> exists i: nat :: i <= depth && NamedAt(core, t, i, wanted)
    ensures HasBase(core, t, wanted, depth) ==> GetBase(core, t, wanted, depth).Name() == wanted
    ensures !HasBase(core, t, wanted, depth) ==> GetBase(core, t, wanted, depth) == Null
    decreases depth
  {
    hide BaseOf, Merged, NamedAt;
    NamedAtNext(core, t, 0, wanted);
    if t.Name() == wanted {
      assert NamedAt(core, t, 0, wanted);
    } else {
      if Base(core, t) != Null && depth > 0 {
        HasBaseSearchesChain(core, Base(core, t), wanted, depth - 1);
      }
      forall i: nat | i <= depth && NamedAt(core, t, i, wanted)
        ensures HasBase(core, t, wanted, depth)
      {
        NamedAtNext(core, t, i - 1, wanted);
        assert NamedAt(core, Base(core, t), i - 1, wanted);
      }
      if HasBase(core, t, wanted, depth) {
        var i: nat :| i <= depth - 1 && NamedAt(core, Base(core, t), i, wanted);
        NamedAtNext(core, t, i, wanted);
        assert NamedAt(core, t, i + 1, wanted);
      }
    }
  }

  // ---------------------------------------------------------------- the checker

  /** The loop that combines the instance parameters with the base type. */
  method MergeParameters(core: Tree, t: Tree) returns (b: Tree)
    requires BaseOf(core, t.Name()) != Null
    ensures b == Merged(core, t)
  {
    hide FirstNamed, Without, BaseOf, Tree.FilterOut, Tree.Append, WithParameters;
    b := BaseOf(core, t.Name());
    if !b.List? {
      b := List([Text(b.Name())]);
    }
    ghost var start := b;
    var ps := t.Nodes();
    var i := 0;
    WithNoParameters(start, "");
    while i < |ps|
      invariant 0 <= i <= |ps| && b == WithParameters(start, ps[..i])
    {
      assert ps[..i + 1][..i] == ps[..i];
      WithParametersStep(start, ps[..i + 1]);
      var kept := FilterNodes(b, ps[i].Name());
      b := kept.Append(ps[i]);
      i := i + 1;
    }
    assert ps[..i] == ps;
  }

  method CollectKeys(ps: seq<Tree>) returns (keys: map<string, Tree>, othersAllowed: bool)
    ensures keys == AllowedKeys(ps) && (othersAllowed <==> Mentions(ps, "allow-other-keys"))
  {
    hide FirstNamed, Mentions, LastNamed;
    NothingMentioned("allow-other-keys");
    keys, othersAllowed := map[], false;
    var i := 0;
    while i < |ps|
      invariant 0 <= i <= |ps| && keys == AllowedKeys(ps[..i])
      invariant othersAllowed <==> Mentions(ps[..i], "allow-other-keys")
    {
      assert ps[..i + 1][..i] == ps[..i];
      assert ps[..i + 1] == ps[..i] + [ps[i]];
      LastOfExtended(ps[..i], ps[i], "allow-other-keys");
      if ps[i].Name() == "allow-other-keys" {
        othersAllowed := true;
      } else {
        keys := keys[ps[i].Name() := ps[i].ValueOf("type")];
      }
      i := i + 1;
    }
    assert ps[..i] == ps;
  }

  method CheckElements(env: Env, t: Tree, v: Variant) returns (ok: bool)
    requires Acyclic(env.core) && v.List?
    ensures ok <==> forall i | 0 <= i < |v.items| :: Accepts(env, t, v.items[i])
    decreases v, 0, 0
  {
    hide Accepts;
    var i := 0;
    while i < |v.items|
      invariant 0 <= i <= |v.items|
      invariant forall j | 0 <= j < i :: Accepts(env, t, v.items[j])
    {
      var b := TypeCheck(env, t, v.items[i]);
      if !b {
        return false;
      }
      i := i + 1;
    }
    return true;
  }

  method CheckEntries(env: Env, keys: map<string, Tree>, others: bool, v: Variant) returns (ok: bool)
    requires Acyclic(env.core) && v.Map?
    ensures ok <==> forall k | k in v.entries ::
      if k in keys then keys[k] != Null ==> Accepts(env, keys[k], v.entries[k]) else others
    decreases v, 0, 0
  {
    hide Accepts;
    var rest := v.entries.Keys;
    while rest != {}
      invariant rest <= v.entries.Keys
      invariant forall k | k in v.entries && k !in rest ::
        if k in keys then keys[k] != Null ==> Accepts(env, keys[k], v.entries[k]) else others
      decreases rest
    {
      var k :| k in rest;
      rest := rest - {k};
      if k in keys {
        if keys[k] == Null {
          continue;
        }
        var b := TypeCheck(env, keys[k], v.entries[k]);
        if !b {
          return false;
        }
      } else if !others {
        return false;
      }
    }
    return true;
  }

  method NamesOf(ps: seq<Tree>) returns (names: set<string>)
    ensures forall n :: n in names <==> Mentions(ps, n)
  {
    names := {};
    var i := 0;
    while i < |ps|
      invariant 0 <= i <= |ps|
      invariant forall n :: n in names <==> exists j | 0 <= j < i :: ps[j].Name() == n
    {
      names := names + {ps[i].Name()};
      i := i + 1;
    }
  }

  lemma NoValues(env: Env)
    ensures forall n :: !HasValue(env, [], n)
  {
  }

  lemma HasValueStep(env: Env, ps: seq<Tree>, p: Tree)
    ensures forall n :: HasValue(env, ps + [p], n) <==> HasValue(env, ps, n) || env.treeToInt(p.ValueOf("value")) == n
  {
    hide FirstNamed;
    forall n ensures HasValue(env, ps + [p], n) <==> HasValue(env, ps, n) || env.treeToInt(p.ValueOf("value")) == n {
      assert (ps + [p])[|ps|] == p;
      if i :| 0 <= i < |ps| && env.treeToInt(ps[i].ValueOf("value")) == n {
        assert (ps + [p])[i] == ps[i];
      }
    }
  }

  method ValuesOf(env: Env, ps: seq<Tree>) returns (values: set<int>)
    ensures forall n :: n in values <==> HasValue(env, ps, n)
  {
    hide HasValue;
    values := {};
    var i := 0;
    NoValues(env);
    while i < |ps|
      invariant 0 <= i <= |ps|
      invariant forall n :: n in values <==> HasValue(env, ps[..i], n)
    {
      HasValueStep(env, ps[..i], ps[i]);
      assert ps[..i] + [ps[i]] == ps[..i + 1];
      values := values + {env.treeToInt(ps[i].ValueOf("value"))};
      i := i + 1;
    }
    assert ps[..i] == ps;
  }

  method CheckNumber(env: Env, t: Tree, v: Variant) returns (ok: bool)
    ensures ok <==> env.canConvertToDouble(v) && InRange(env, t, env.toDouble(v))
  {
    hide FirstNamed;
    if !env.canConvertToDouble(v) {
      return false;
    }
    var min, max, x := t.ValueOf("min"), t.ValueOf("max"), env.toDouble(v);
    if min != Null && x.Less(env.treeToDouble(min)) {
      return false;
    }
    if max != Null && env.treeToDouble(max).Less(x) {
      return false;
    }
    return true;
  }

  method CheckList(env: Env, t: Tree, v: Variant) returns (ok: bool)
    requires Acyclic(env.core)
    ensures ok ==> v.List? && LengthInRange(env, t, |v.items|)
    ensures v.List? && LengthInRange(env, t, |v.items|) ==> (ok <==>
      (t.ValueOf("type") != Null ==> forall i | 0 <= i < |v.items| :: Accepts(env, t.ValueOf("type"), v.items[i])))
    decreases v, 0, 1
  {
    hide FirstNamed, Accepts;
    if !v.List? {
      return false;
    }
    var min, max, eltype := t.ValueOf("min"), t.ValueOf("max"), t.ValueOf("type");
    if min != Null && |v.items| < env.treeToInt(min) {
      return false;
    }
    if max != Null && |v.items| > env.treeToInt(max) {
      return false;
    }
    ok := true;
    if eltype != Null {
      ok := CheckElements(env, eltype, v);
    }
  }

  method CheckMap(env: Env, t: Tree, v: Variant) returns (ok: bool)
    requires Acyclic(env.core)
    ensures ok ==> v.Map?
    ensures v.Map? ==>
      var keys := AllowedKeys(t.Nodes());
      ok <==> (keys == map[] || forall k | k in v.entries ::
        if k in keys then keys[k] != Null ==> Accepts(env, keys[k], v.entries[k])
        else Mentions(t.Nodes(), "allow-other-keys"))
    decreases v, 0, 1
  {
    hide Accepts, Mentions, AllowedKeys;
    if !v.Map? {
      return false;
    }
    var keys, others := CollectKeys(t.Nodes());
    if keys == map[] {
      return true;
    }
    ok := CheckEntries(env, keys, others, v);
  }

  /** The hardwired knowledge about the type's own name. */
  method CheckOwnName(env: Env, t: Tree, v: Variant) returns (ok: bool)
    requires Acyclic(env.core)
    ensures ok <==> Fits(env, t, v)
    decreases v, (assert Grounded(env.core, t.Name()); Height(env.core, t.Name())), 2
  {
    hide Accepts, Mentions, AllowedKeys, FirstNamed, BaseOf, HasValue, InRange, LengthInRange;
    match t.Name() {
      case "bool" => ok := v.Bool?;
      case "number" => ok := CheckNumber(env, t, v);
      case "integer" => ok := v.Integer?;
      case "string" => ok := v.String?;
      case "list" => ok := CheckList(env, t, v);
      case "map" => ok := CheckMap(env, t, v);
      case "string-enum" =>
        var names := NamesOf(t.Nodes());
        ok := env.toText(v) in names;
      case "int-enum" =>
        var values := ValuesOf(env, t.Nodes());
        ok := env.toInt(v) in values;
      case _ => ok := true;
    }
  }

  method TypeCheck(env: Env, t: Tree, v: Variant) returns (ok: bool)
    requires Acyclic(env.core)
    ensures ok <==> Accepts(env, t, v)
    decreases v, (assert Grounded(env.core, t.Name()); Height(env.core, t.Name())), 3
  {
    hide Fits, Merged;
    if BaseOf(env.core, t.Name()) != Null {
      var baseType := MergeParameters(env.core, t);
      BaseIsLower(env.core, t);
      var b := TypeCheck(env, baseType, v);
      if !b {
        return false;
      }
    }
    ok := CheckOwnName(env, t, v);
  }
}
