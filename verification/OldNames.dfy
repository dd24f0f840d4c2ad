/** Old type names: replaced at the top of a declared type when it is loaded, and at every look-up of
    a definition, but nowhere else. */
module OldNames {
  import opened AssocTree
  import opened TypeRegistry
  import opened TypeInfo
  import V = Variants
  import X = XmlRegistry

  /** Loading replaces exactly the old names; it agrees with the look-up on all names but DOUBLE. */
  lemma LoadedNames(t: Tree)
    ensures X.EnsureNewTypes(t).Name() !in OLD_NAMES
    ensures X.EnsureNewTypes(t) == t <==> t.Name() !in OLD_NAMES
    ensures X.EnsureNewTypes(t).Name() == Normalised(t.Name()) <==> t.Name() != "DOUBLE"
  {
    assert t.Name() in OLD_NAMES ==> X.EnsureNewTypes(t).Name() != t.Name();
  }

  /** The name of a nested type is looked up as written, so it reaches the look-up unreplaced exactly
      if it is old and the type around it is not. */
  lemma NestedNamesStay(t: Tree, parameter: string)
    ensures X.EnsureNewTypes(t).ValueOf(parameter) == if t.Name() in OLD_NAMES then Null else t.ValueOf(parameter)
    ensures X.EnsureNewTypes(t).ValueOf(parameter).Name() in OLD_NAMES <==>
      t.Name() !in OLD_NAMES && t.ValueOf(parameter).Name() in OLD_NAMES
  {
    hide FirstNamed;
    LoadedNames(t);
  }

  /** Under its old name a type has the bases it has under the normalised one, but its own check is
      skipped: the two spellings accept the same value exactly if that check succeeds or a base
      refuses. */
  lemma OldNameSkipsOwnCheck(env: Env, t: Tree, u: Tree, v: V.Variant)
    requires Acyclic(env.core) && t.Name() in OLD_NAMES
    requires u.Name() == Normalised(t.Name()) && u.Nodes() == t.Nodes()
    ensures Accepts(env, u, v) <==> Accepts(env, t, v) && Fits(env, u, v)
    ensures (Accepts(env, u, v) <==> Accepts(env, t, v)) <==> Fits(env, u, v) || !Accepts(env, t, v)
  {
    OldNameFits(env, t, v);
    SameDefinition(env.core, t.Name());
    hide BaseOf, Fits, WithParameters, OLD_NAMES, Normalised;
    assert Merged(env.core, t) == Merged(env.core, u);
  }

  lemma OldNameFits(env: Env, t: Tree, v: V.Variant)
    requires Acyclic(env.core) && t.Name() in OLD_NAMES
    ensures Fits(env, t, v)
  {
    hide Accepts, Acyclic, HasValue, Mentions, AllowedKeys, InRange, LengthInRange, FirstNamed;
  }

  function ListOf(element: string): Tree {
    List([Text("list"), List([Text("type"), Text(element)])])
  }

  /** A name that is neither defined nor built in accepts everything. */
  lemma UndefinedAccepts(env: Env, t: Tree, v: V.Variant)
    requires Acyclic(env.core) && t.Name() in OLD_NAMES && Definition(env.core, t.Name()) == Null
    ensures Accepts(env, t, v)
  {
    OldNameFits(env, t, v);
    hide Fits, Merged, FirstDefining, FirstNamed, OLD_NAMES, Normalised;
    NullHasNoValue("base");
    assert BaseOf(env.core, t.Name()) == Null;
  }

  /** Where no core type is called "double", a DOUBLE inside a type accepts every value, and a list
      declared to hold DOUBLEs accepts every list that the bases of lists accept; one declared to hold
      numbers checks its elements. */
  lemma DoublesAreUnchecked(env: Env, v: V.Variant)
    requires Acyclic(env.core) && Definition(env.core, "DOUBLE") == Null
    ensures X.EnsureNewTypes(ListOf("DOUBLE")) == ListOf("DOUBLE")
    ensures Accepts(env, Text("DOUBLE"), v)
    ensures Fits(env, ListOf("DOUBLE"), v) <==> v.List?
    ensures Fits(env, ListOf("number"), v) <==>
      v.List? && forall i | 0 <= i < |v.items| :: Accepts(env, Text("number"), v.items[i])
  {
    ElementType("DOUBLE");
    ElementType("number");
    LoadedNames(ListOf("DOUBLE"));
    hide BaseOf, Merged, Acyclic, Tree.ValueOf, FirstNamed, Accepts, ListOf, X.EnsureNewTypes, FirstDefining;
    UndefinedAccepts(env, Text("DOUBLE"), v);
    if v.List? {
      forall i | 0 <= i < |v.items| ensures Accepts(env, Text("DOUBLE"), v.items[i]) {
        UndefinedAccepts(env, Text("DOUBLE"), v.items[i]);
      }
    }
  }

  lemma ElementType(element: string)
    ensures ListOf(element).ValueOf("type") == Text(element)
    ensures ListOf(element).ValueOf("min") == Null && ListOf(element).ValueOf("max") == Null
    ensures ListOf(element).Name() == "list"
  {
    var ps := ListOf(element).Nodes();
    assert ps == [List([Text("type"), Text(element)])];
    assert ps[1..] == [];
  }
}
