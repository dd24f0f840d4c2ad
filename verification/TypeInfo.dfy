/** Type checking: a value must satisfy a type and, with merged parameters, all its base types. */
module TypeInfo {
  import opened AssocTree
  import opened TypeRegistry
  import V = Variants

  type Variant = V.Variant

  /** A floating-point number up to rounding; no comparison with one that is not a number holds. */
  datatype Double = NotANumber | MinusInfinity | Finite(r: real) | PlusInfinity
  {
    predicate Less(other: Double) {
      match (this, other)
      case (NotANumber, _) => false
      case (_, NotANumber) => false
      case (Finite(x), Finite(y)) => x < y
      case (MinusInfinity, _) => other != MinusInfinity
      case (_, PlusInfinity) => this != PlusInfinity
      case _ => false
    }

    predicate AtMost(other: Double) {
      Less(other) || (this == other && this != NotANumber)
    }
  }

  lemma DoublesAreOrdered(x: Double, y: Double)
    ensures !y.Less(x) <==> x.AtMost(y) || x == NotANumber || y == NotANumber
  {
  }

  /** The core type tree and the conversions of the value library. */
  datatype Env = Env(
    core: Tree,
    canConvertToDouble: Variant -> bool, toDouble: Variant -> Double,
    toInt: Variant -> int, toText: Variant -> string,
    treeToDouble: Tree -> Double, treeToInt: Tree -> int)

  /** The base recorded for a type name; Null if it has none. */
  function BaseOf(core: Tree, name: string): Tree {
    Definition(core, name).ValueOf("base")
  }

  lemma SameDefinition(core: Tree, name: string)
    ensures BaseOf(core, Normalised(name)) == BaseOf(core, name)
  {
    hide FirstDefining, FirstNamed;
    assert Normalised(Normalised(name)) == Normalised(name);
  }

  function AsList(t: Tree): Tree {
    if t.List? then t else List([Text(t.Name())])
  }

  /** Each parameter in turn replaces those of its name. */
  function WithParameters(b: Tree, ps: seq<Tree>): Tree {
    if |ps| == 0 then b
    else
      var n := |ps| - 1;
      WithParameters(b, ps[..n]).FilterOut(ps[n].Name()).Append(ps[n])
  }

  /** The base type of t, with the parameters of t overriding its own. */
  function Merged(core: Tree, t: Tree): Tree {
    WithParameters(AsList(BaseOf(core, t.Name())), t.Nodes())
  }

  lemma {:induction false} WithParametersName(b: Tree, ps: seq<Tree>)
    requires b.List?
    ensures WithParameters(b, ps).List? && WithParameters(b, ps).Name() == b.Name()
  {
    if |ps| > 0 {
      WithParametersName(b, ps[..|ps| - 1]);
    }
  }

  lemma MergedName(core: Tree, t: Tree)
    ensures Merged(core, t).List? && Merged(core, t).Name() == BaseOf(core, t.Name()).Name()
  {
    WithParametersName(AsList(BaseOf(core, t.Name())), t.Nodes());
  }

  // ---------------------------------------------------------------- acyclic registries

  /** The chain of base types of the name ends within n steps. */
  predicate Ends(core: Tree, name: string, n: nat)
    decreases n
  {
    var b := BaseOf(core, name);
    b == Null || (n > 0 && Ends(core, b.Name(), n - 1))
  }

  ghost predicate Grounded(core: Tree, name: string) {
    exists n: nat :: Ends(core, name, n)
  }

  ghost predicate Acyclic(core: Tree) {
    forall name :: Grounded(core, name)
  }

  /** The length of the chain, counted at most n steps up. */
  function HeightWithin(core: Tree, name: string, n: nat): nat
    decreases n
  {
    var b := BaseOf(core, name);
    if b == Null || n == 0 then 0 else 1 + HeightWithin(core, b.Name(), n - 1)
  }

  lemma {:induction false} HeightIsUnique(core: Tree, name: string, m: nat, n: nat)
    requires Ends(core, name, m) && Ends(core, name, n)
    ensures HeightWithin(core, name, m) == HeightWithin(core, name, n)
    decreases m
  {
    hide BaseOf;
    var b := BaseOf(core, name);
    if b != Null {
      HeightIsUnique(core, b.Name(), m - 1, n - 1);
    }
  }

  /** The length of the chain of base types. */
  ghost function Height(core: Tree, name: string): (h: nat)
    requires Grounded(core, name)
    ensures exists n: nat :: Ends(core, name, n) && h == HeightWithin(core, name, n)
  {
    var n: nat :| Ends(core, name, n);
    HeightWithin(core, name, n)
  }

  lemma BaseIsLower(core: Tree, t: Tree)
    requires Acyclic(core) && BaseOf(core, t.Name()) != Null
    ensures Grounded(core, t.Name()) && Grounded(core, Merged(core, t).Name())
    ensures Height(core, Merged(core, t).Name()) < Height(core, t.Name())
  {
    hide BaseOf, Merged;
    MergedName(core, t);
    var name, base := t.Name(), BaseOf(core, t.Name()).Name();
    assert Grounded(core, name) && Grounded(core, base);
    var n: nat :| Ends(core, name, n) && Height(core, name) == HeightWithin(core, name, n);
    var m: nat :| Ends(core, base, m) && Height(core, base) == HeightWithin(core, base, m);
    HeightIsUnique(core, base, m, n - 1);
  }

  // ---------------------------------------------------------------- acceptance

  /** The keys a map type describes; a later description of a key replaces an earlier one. */
  function AllowedKeys(ps: seq<Tree>): map<string, Tree> {
    if |ps| == 0 then map[]
    else
      var n := |ps| - 1;
      var m := AllowedKeys(ps[..n]);
      if ps[n].Name() == "allow-other-keys" then m else m[ps[n].Name() := ps[n].ValueOf("type")]
  }

  predicate Mentions(ps: seq<Tree>, name: string) {
    exists i | 0 <= i < |ps| :: ps[i].Name() == name
  }

  /** The number is the value of one of the alternatives. */
  predicate HasValue(env: Env, ps: seq<Tree>, n: int) {
    exists i | 0 <= i < |ps| :: env.treeToInt(ps[i].ValueOf("value")) == n
  }

  predicate InRange(env: Env, t: Tree, x: Double) {
    var min, max := t.ValueOf("min"), t.ValueOf("max");
    && (min != Null ==> !x.Less(env.treeToDouble(min)))
    && (max != Null ==> !env.treeToDouble(max).Less(x))
  }

  predicate LengthInRange(env: Env, t: Tree, n: int) {
    var min, max := t.ValueOf("min"), t.ValueOf("max");
    && (min != Null ==> env.treeToInt(min) <= n)
    && (max != Null ==> n <= env.treeToInt(max))
  }

  /** The built-in knowledge about the type's own name. */
  ghost predicate Fits(env: Env, t: Tree, v: Variant)
    requires Acyclic(env.core)
    decreases v, (assert Grounded(env.core, t.Name()); Height(env.core, t.Name())), 0
  {
    match t.Name()
    case "bool" => v.Bool?
    case "number" => env.canConvertToDouble(v) && InRange(env, t, env.toDouble(v))
    case "integer" => v.Integer?
    case "string" => v.String?
    case "list" =>
      && v.List? && LengthInRange(env, t, |v.items|)
      && (t.ValueOf("type") != Null ==>
            forall i | 0 <= i < |v.items| :: Accepts(env, t.ValueOf("type"), v.items[i]))
    case "map" =>
      && v.Map?
      && var keys := AllowedKeys(t.Nodes());
        (keys == map[] || forall k | k in v.entries ::
           if k in keys then keys[k] != Null ==> Accepts(env, keys[k], v.entries[k])
           else Mentions(t.Nodes(), "allow-other-keys"))
    case "string-enum" => Mentions(t.Nodes(), env.toText(v))
    case "int-enum" => HasValue(env, t.Nodes(), env.toInt(v))
    case _ => true
  }

  /** typeCheck: first the base type with merged parameters, then the type itself.  It terminates
      because elements are smaller values and base types are lower in the chain. */
  ghost predicate Accepts(env: Env, t: Tree, v: Variant)
    requires Acyclic(env.core)
    decreases v, (assert Grounded(env.core, t.Name()); Height(env.core, t.Name())), 1
  {
    && (BaseOf(env.core, t.Name()) != Null ==>
          (BaseIsLower(env.core, t); Accepts(env, Merged(env.core, t), v)))
    && Fits(env, t, v)
  }
}
