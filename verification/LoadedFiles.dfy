/** What the registry answers after reading given files, tree by tree. */
module LoadedFiles {
  import opened AssocTree
  import opened Options
  import opened XmlRegistry

  const SUPPORTED := ["", "http://contextkit.freedesktop.org/Provider"]

  function Loaded(fs: seq<File>): Registry
    requires AllElements(fs)
  {
    Load(InFiles(fs))
  }

  // ---------------------------------------------------------------- what is known about one key

  datatype Entry = Entry(data: Option<KeyData>, providers: seq<ProviderInfo>)
  {
    /** The first data counts; providers are collected. */
    function Then(next: Entry): Entry {
      Entry(if data.Some? then data else next.data, providers + next.providers)
    }
  }

  const NOTHING := Entry(None, [])

  function EntryOf(r: Registry, k: string): Entry {
    Entry(if r.Declared(k) then Some(r.keyData[k]) else None, r.Providers(k))
  }

  /** What one declaration adds. */
  function EntryIn(d: Declaration, k: string): Entry {
    if DataOf(d).name != k then NOTHING
    else Entry(Some(DataOf(d)), if ProviderOf(d).plugin == "" then [] else [ProviderOf(d)])
  }

  lemma EntryNext(ds: seq<Declaration>, d: Declaration, k: string)
    ensures EntryOf(Load(ds + [d]), k) == EntryOf(Load(ds), k).Then(EntryIn(d, k))
  {
    hide DataOf, ProviderOf, Add, Consistent;
    LoadOneMore(ds, d);
    hide Load;
    FirstDeclarationWins(ds, k);
    AddOne(Load(ds), DataOf(d), ProviderOf(d), k);
  }

  lemma EntryOfNothing(k: string)
    ensures EntryOf(Load([]), k) == NOTHING
  {
  }

  lemma ThenNothing(e: Entry)
    ensures e.Then(NOTHING) == e && NOTHING.Then(e) == e
  {
  }

  lemma ThenIsAssociative(a: Entry, b: Entry, c: Entry)
    ensures a.Then(b).Then(c) == a.Then(b.Then(c))
  {
  }

  lemma {:induction false} LoadConcat(ds: seq<Declaration>, es: seq<Declaration>, k: string)
    ensures EntryOf(Load(ds + es), k) == EntryOf(Load(ds), k).Then(EntryOf(Load(es), k))
  {
    hide Load, EntryOf, EntryIn, Entry.Then;
    if |es| == 0 {
      assert ds + es == ds;
      EntryOfNothing(k);
      ThenNothing(EntryOf(Load(ds), k));
    } else {
      var n := |es| - 1;
      LoadConcat(ds, es[..n], k);
      assert ds + es == (ds + es[..n]) + [es[n]];
      assert es == es[..n] + [es[n]];
      EntryNext(ds + es[..n], es[n], k);
      EntryNext(es[..n], es[n], k);
      ThenIsAssociative(EntryOf(Load(ds), k), EntryOf(Load(es[..n]), k), EntryIn(es[n], k));
    }
  }

  // ---------------------------------------------------------------- files and providers add up

  lemma ElementsConcat(fs: seq<File>, gs: seq<File>)
    requires AllElements(fs) && AllElements(gs)
    ensures AllElements(fs + gs)
  {
    hide IsElement;
  }

  lemma {:induction false} InFilesConcat(fs: seq<File>, gs: seq<File>)
    requires AllElements(fs) && AllElements(gs) && AllElements(fs + gs)
    ensures InFiles(fs + gs) == InFiles(fs) + InFiles(gs)
  {
    hide InFile, IsElement, InFiles;
    if |gs| == 0 {
      assert fs + gs == fs && gs == [];
      NoFiles();
    } else {
      var n := |gs| - 1;
      var all := fs + gs;
      InFilesOneMore(gs, n);
      InFilesOneMore(all, |fs| + n);
      assert all[..|fs| + n] == fs + gs[..n] && all[..|fs| + n + 1] == all && gs[..n + 1] == gs;
      InFilesConcat(fs, gs[..n]);
    }
  }

  /** Files read earlier decide about the data of a key; the providers of all files are listed in
      order. */
  lemma FilesAddUp(fs: seq<File>, gs: seq<File>, k: string)
    requires AllElements(fs) && AllElements(gs)
    ensures AllElements(fs + gs)
    ensures var r, s, all := Loaded(fs), Loaded(gs), Loaded(fs + gs);
      && (all.Declared(k) <==> r.Declared(k) || s.Declared(k))
      && (all.Declared(k) ==> all.keyData[k] == if r.Declared(k) then r.keyData[k] else s.keyData[k])
      && all.Providers(k) == r.Providers(k) + s.Providers(k)
  {
    hide InFiles, Load;
    ElementsConcat(fs, gs);
    InFilesConcat(fs, gs);
    LoadConcat(InFiles(fs), InFiles(gs), k);
  }

  lemma OneFile(f: File)
    requires f.Parsed? ==> IsElement(f.root)
    ensures AllElements([f]) && Loaded([f]) == Load(InFile(f))
  {
    hide InFile;
    InFilesOneMore([f], 0);
    assert [f][..0] == [] && [f][..1] == [f];
    assert [] + InFile(f) == InFile(f);
  }

  /** A file that is no XML or of another version is ignored. */
  lemma OthersAreIgnored(f: File, k: string)
    requires f.Parsed? ==> IsElement(f.root) && f.namespace !in SUPPORTED
    ensures AllElements([f]) && !Loaded([f]).Declared(k) && Loaded([f]).Providers(k) == []
  {
    OneFile(f);
  }

  /** The files that hold one provider each. */
  function Apart(namespace: string, ts: seq<Tree>): (fs: seq<File>)
    requires forall i | 0 <= i < |ts| :: IsNode(ts[i], "provider")
    ensures AllElements(fs)
  {
    if |ts| == 0 then []
    else
      var n := |ts| - 1;
      assert IsNode(ts[n], "provider");
      Apart(namespace, ts[..n]) + [Parsed(namespace, ts[n])]
  }

  lemma InProvider(namespace: string, t: Tree)
    requires namespace in SUPPORTED && IsNode(t, "provider")
    ensures t.Name() == "provider" && InFile(Parsed(namespace, t)) == KeysBelow(t.Nodes(), t)
  {
  }

  lemma {:induction false} ProvidersApart(namespace: string, ts: seq<Tree>)
    requires namespace in SUPPORTED && forall i | 0 <= i < |ts| :: IsNode(ts[i], "provider")
    ensures InFiles(Apart(namespace, ts)) == ProvidersBelow(ts)
  {
    hide KeysBelow, InFile, InFiles, ProvidersBelow, IsElement, IsNode, Tree.Name;
    var fs := Apart(namespace, ts);
    if |ts| == 0 {
      NoFiles();
      NoProviders();
    } else {
      var n := |ts| - 1;
      ProvidersApart(namespace, ts[..n]);
      InProvider(namespace, ts[n]);
      InFilesOneMore(fs, |fs| - 1);
      ProvidersOneMore(ts, n);
      assert fs[..|fs| - 1] == Apart(namespace, ts[..n]) && fs[..|fs| - 1 + 1] == fs && ts[..n + 1] == ts;
    }
  }

  /** Several providers below a root of another name count like the files that hold one each. */
  lemma ProvidersTogether(namespace: string, root: string, ts: seq<Tree>)
    requires namespace in SUPPORTED && root != "provider" && root != "properties"
    requires forall i | 0 <= i < |ts| :: IsNode(ts[i], "provider")
    ensures var f := Parsed(namespace, List([Text(root)] + ts));
      AllElements([f]) && Loaded([f]) == Loaded(Apart(namespace, ts))
  {
    hide ProvidersBelow, KeysBelow, Load, InFiles;
    PartsOfTrees(root, ts);
    OneFile(Parsed(namespace, List([Text(root)] + ts)));
    ProvidersApart(namespace, ts);
  }

  // ---------------------------------------------------------------- one provider

  /** A declaration of the key. */
  predicate Declares(t: Tree, k: string) {
    t.Name() == "key" && t.ValueOf("name").ToText() == k
  }

  lemma NextKey(ts: seq<Tree>, provider: Tree, k: string)
    requires |ts| > 0
    ensures var n := |ts| - 1;
      EntryOf(Load(KeysBelow(ts, provider)), k) ==
      EntryOf(Load(KeysBelow(ts[..n], provider)), k).Then(
        if Declares(ts[n], k) then EntryIn(Declaration(ts[n], provider), k) else NOTHING)
  {
    hide Load, EntryOf, Entry.Then, ProviderOf, Tree.ValueOf, Tree.Node, EnsureNewTypes;
    var n := |ts| - 1;
    var d, before := Declaration(ts[n], provider), KeysBelow(ts[..n], provider);
    ThenNothing(EntryOf(Load(before), k));
    if ts[n].Name() == "key" {
      EntryNext(before, d, k);
    } else {
      assert KeysBelow(ts, provider) == before;
    }
  }

  lemma {:induction false} KeyMissing(ts: seq<Tree>, provider: Tree, k: string)
    requires forall i | 0 <= i < |ts| :: !Declares(ts[i], k)
    ensures EntryOf(Load(KeysBelow(ts, provider)), k) == NOTHING
  {
    hide Declares, EntryOf, Load;
    if |ts| == 0 {
      EntryOfNothing(k);
    } else {
      NextKey(ts, provider, k);
      hide KeysBelow;
      KeyMissing(ts[..|ts| - 1], provider, k);
    }
  }

  /** The first declaration of a key is its data, and every one of them adds the same provider. */
  lemma {:induction false} KeyPresent(ts: seq<Tree>, provider: Tree, k: string, i: nat)
    requires i < |ts| && Declares(ts[i], k) && forall j | 0 <= j < i :: !Declares(ts[j], k)
    ensures var e, info := EntryOf(Load(KeysBelow(ts, provider)), k), ProviderOf(Declaration(ts[i], provider));
      && e.data == Some(DataOf(Declaration(ts[i], provider)))
      && (if info.plugin == "" then e.providers == []
          else e.providers != [] && forall q | q in e.providers :: q == info)
      && (info.plugin != "" && (forall j | i < j < |ts| :: !Declares(ts[j], k)) ==> e.providers == [info])
  {
    hide EntryOf, Load, EnsureNewTypes, Tree.ValueOf, Tree.Node, KeysBelow, Tree.Name;
    var n := |ts| - 1;
    NextKey(ts, provider, k);
    assert ProviderOf(Declaration(ts[n], provider)) == ProviderOf(Declaration(ts[i], provider));
    hide ProviderOf;
    if i == n {
      KeyMissing(ts[..n], provider, k);
    } else {
      KeyPresent(ts[..n], provider, k, i);
    }
  }

  /** Old type names are replaced, parameters and all; other types stay. */
  ghost predicate IsRenamed(t: Tree, loaded: Tree) {
    && (t.Name() == "TRUTH" ==> loaded == Text("bool"))
    && (t.Name() == "INT" || t.Name() == "INTEGER" ==> loaded == Text("integer"))
    && (t.Name() == "STRING" ==> loaded == Text("string"))
    && (t.Name() == "DOUBLE" ==> loaded == Text("number"))
    && (t.Name() !in ["TRUTH", "INT", "INTEGER", "STRING", "DOUBLE"] ==> loaded == t)
  }

  /** The data is what the key's declaration says. */
  ghost predicate IsDescribed(r: Registry, k: string, t: Tree) {
    && r.Declared(k) && r.Doc(k) == t.ValueOf("doc").ToText()
    && IsRenamed(t.ValueOf("type"), r.TypeInfo(k))
    && (r.Deprecated(k) <==> t.Node("deprecated") != Null)
  }

  /** All providers are the one of the file, which has a plugin or an old-style bus and service. */
  ghost predicate IsProvided(r: Registry, k: string, p: Tree) {
    var plugin, construction := p.ValueOf("plugin").ToText(), p.ValueOf("constructionString").ToText();
    var bus, service := p.ValueOf("bus").ToText(), p.ValueOf("service").ToText();
    && (r.Providers(k) == [] <==> plugin == "" && (bus == "" || service == ""))
    && forall q | q in r.Providers(k) ::
      q == if plugin != "" then ProviderInfo(plugin, construction)
           else ProviderInfo("contextkit-dbus", bus + ":" + service)
  }

  lemma DataDescribes(r: Registry, k: string, t: Tree, p: Tree)
    requires EntryOf(r, k).data == Some(DataOf(Declaration(t, p)))
    ensures IsDescribed(r, k, t)
  {
    hide Tree.ValueOf, Tree.Node;
  }

  lemma ProviderProvides(r: Registry, k: string, t: Tree, p: Tree)
    requires var e, info := EntryOf(r, k), ProviderOf(Declaration(t, p));
      if info.plugin == "" then e.providers == [] else e.providers != [] && forall q | q in e.providers :: q == info
    ensures IsProvided(r, k, p)
  {
    hide Tree.ValueOf, Tree.Node;
  }

  lemma ProviderFile(namespace: string, root: string, ts: seq<Tree>)
    requires namespace in SUPPORTED && (root == "provider" || root == "properties")
    ensures var p := List([Text(root)] + ts);
      AllElements([Parsed(namespace, p)]) && Loaded([Parsed(namespace, p)]) == Load(KeysBelow(ts, p))
  {
    hide KeysBelow, Load;
    PartsOfTrees(root, ts);
    OneFile(Parsed(namespace, List([Text(root)] + ts)));
  }

  lemma KeyBelow(ts: seq<Tree>, p: Tree, k: string, i: nat)
    requires i < |ts| && Declares(ts[i], k) && forall j | 0 <= j < i :: !Declares(ts[j], k)
    ensures var r := Load(KeysBelow(ts, p));
      && IsDescribed(r, k, ts[i]) && IsProvided(r, k, p)
      && ((forall j | i < j < |ts| :: !Declares(ts[j], k)) ==> |r.Providers(k)| <= 1)
  {
    hide KeysBelow, Load, Declares, ProviderOf, DataOf, Tree.ValueOf, Tree.Node, IsDescribed, IsProvided;
    var r := Load(KeysBelow(ts, p));
    KeyPresent(ts, p, k, i);
    DataDescribes(r, k, ts[i], p);
    ProviderProvides(r, k, ts[i], p);
  }

  /** A file of one provider: a key has the data of its first declaration and the provider of the
      file, as often as it is declared. */
  lemma KeyOfProvider(namespace: string, root: string, ts: seq<Tree>, k: string, i: nat)
    requires namespace in SUPPORTED && (root == "provider" || root == "properties")
    requires i < |ts| && Declares(ts[i], k) && forall j | 0 <= j < i :: !Declares(ts[j], k)
    ensures var p := List([Text(root)] + ts);
      var f := Parsed(namespace, p);
      && AllElements([f])
      && IsDescribed(Loaded([f]), k, ts[i]) && IsProvided(Loaded([f]), k, p)
      && ((forall j | i < j < |ts| :: !Declares(ts[j], k)) ==> |Loaded([f]).Providers(k)| <= 1)
  {
    hide KeysBelow, Load, Declares, IsDescribed, IsProvided, Loaded;
    ProviderFile(namespace, root, ts);
    KeyBelow(ts, List([Text(root)] + ts), k, i);
  }

  /** No other keys are declared. */
  lemma OnlyDeclaredKeys(namespace: string, root: string, ts: seq<Tree>, k: string)
    requires namespace in SUPPORTED && (root == "provider" || root == "properties")
    requires forall i | 0 <= i < |ts| :: !Declares(ts[i], k)
    ensures var f := Parsed(namespace, List([Text(root)] + ts));
      AllElements([f]) && !Loaded([f]).Declared(k) && Loaded([f]).Providers(k) == []
  {
    hide KeysBelow, Load, Declares, Loaded;
    ProviderFile(namespace, root, ts);
    KeyMissing(ts, List([Text(root)] + ts), k);
  }

  // ---------------------------------------------------------------- written out

  function KeyNodes(k: string, t: Tree, doc: string, deprecated: bool): seq<Tree> {
    [Leaf("name", k), List([Text("type"), t]), Leaf("doc", doc)] +
    if deprecated then [List([Text("deprecated")])] else []
  }

  function KeyTree(k: string, t: Tree, doc: string, deprecated: bool): Tree {
    List([Text("key")] + KeyNodes(k, t, doc, deprecated))
  }

  lemma KeyNodesAre(k: string, t: Tree, doc: string, deprecated: bool)
    ensures var ts := KeyNodes(k, t, doc, deprecated);
      && FirstNode(ts, "name", 0) && ts[0] == List([Text("name")] + [Text(k)])
      && FirstNode(ts, "type", 1) && ts[1] == List([Text("type")] + [t])
      && FirstNode(ts, "doc", 2) && ts[2] == List([Text("doc")] + [Text(doc)])
      && (deprecated ==> FirstNode(ts, "deprecated", 3) && ts[3] != Null)
      && (!deprecated ==> forall i | 0 <= i < |ts| :: !IsNode(ts[i], "deprecated"))
  {
  }

  lemma KeyTreeReads(k: string, t: Tree, doc: string, deprecated: bool)
    ensures var key := KeyTree(k, t, doc, deprecated);
      && Declares(key, k) && (forall j | j != k :: !Declares(key, j))
      && key.ValueOf("type") == t && key.ValueOf("doc") == Text(doc)
      && (key.Node("deprecated") != Null <==> deprecated)
  {
    hide KeyNodes, IsNode, FirstNode, Tree.ValueOf;
    var ts := KeyNodes(k, t, doc, deprecated);
    KeyNodesAre(k, t, doc, deprecated);
    PartsOfTrees("key", ts);
    ValueIsBehindName("key", ts, "name", 0, [Text(k)]);
    ValueIsBehindName("key", ts, "type", 1, [t]);
    ValueIsBehindName("key", ts, "doc", 2, [Text(doc)]);
    if deprecated {
      FirstNamedIsFirst(ts, "deprecated", 3);
    }
  }

  /** What the registry answers when one key is declared. */
  ghost predicate Answers(r: Registry, k: string, t: Tree, doc: string, deprecated: bool, ps: seq<ProviderInfo>) {
    && r.Declared(k) && r.Doc(k) == doc && (r.Deprecated(k) <==> deprecated) && IsRenamed(t, r.TypeInfo(k))
    && r.Providers(k) == ps
    && forall j | j != k :: !r.Declared(j) && r.Providers(j) == []
  }

  lemma DescribedAnswers(r: Registry, k: string, t: Tree, doc: string, deprecated: bool)
    requires IsDescribed(r, k, KeyTree(k, t, doc, deprecated))
    requires forall j | j != k :: !r.Declared(j) && r.Providers(j) == []
    ensures Answers(r, k, t, doc, deprecated, r.Providers(k))
  {
    KeyTreeReads(k, t, doc, deprecated);
    hide KeyTree, Declares, IsRenamed, Tree.ValueOf, Tree.Node, Registry.Providers;
  }

  lemma OnlyThird(a: Tree, b: Tree, k: string, t: Tree, doc: string, deprecated: bool)
    requires a.Name() != "key" && b.Name() != "key"
    ensures var ts := [a, b, KeyTree(k, t, doc, deprecated)];
      && Declares(ts[2], k)
      && forall i, j | 0 <= i < 3 && Declares(ts[i], j) :: i == 2 && j == k
  {
    KeyTreeReads(k, t, doc, deprecated);
    hide KeyTree;
  }

  /** A single key behind two nodes that say who provides it. */
  lemma KeyBehindTwo(
      namespace: string, root: string, a: Tree, b: Tree, k: string, t: Tree, doc: string, deprecated: bool)
    requires namespace in SUPPORTED && (root == "provider" || root == "properties")
    requires a.Name() != "key" && b.Name() != "key"
    ensures var p := List([Text(root)] + [a, b, KeyTree(k, t, doc, deprecated)]);
      && AllElements([Parsed(namespace, p)])
      && var r := Loaded([Parsed(namespace, p)]);
      Answers(r, k, t, doc, deprecated, r.Providers(k)) && IsProvided(r, k, p) && |r.Providers(k)| <= 1
  {
    var ts := [a, b, KeyTree(k, t, doc, deprecated)];
    OnlyThird(a, b, k, t, doc, deprecated);
    hide KeyTree, Declares, Loaded, IsProvided, IsDescribed, Answers, Registry.Declared, Registry.Providers, Tree.Name;
    KeyOfProvider(namespace, root, ts, k, 2);
    var r := Loaded([Parsed(namespace, List([Text(root)] + ts))]);
    forall j | j != k
      ensures !r.Declared(j) && r.Providers(j) == []
    {
      OnlyDeclaredKeys(namespace, root, ts, j);
    }
    DescribedAnswers(r, k, t, doc, deprecated);
  }

  lemma {:induction false} NodesOfTwo(m: string, x: string, n: string, y: string, key: Tree)
    requires m != n && IsNode(key, "key") && m != "key" && n != "key"
    ensures var ts := [Leaf(m, x), Leaf(n, y), key];
      && FirstNode(ts, m, 0) && FirstNode(ts, n, 1)
      && (forall i, other | 0 <= i < 3 && other !in [m, n, "key"] :: !IsNode(ts[i], other))
      && ts[0] == List([Text(m)] + [Text(x)]) && ts[1] == List([Text(n)] + [Text(y)])
  {
  }

  /** Two nodes are looked up by name, and nothing else is found. */
  lemma TwoValues(root: string, m: string, x: string, n: string, y: string, key: Tree)
    requires m != n && IsNode(key, "key") && m != "key" && n != "key"
    ensures var p := List([Text(root)] + [Leaf(m, x), Leaf(n, y), key]);
      && p.ValueOf(m) == Text(x) && p.ValueOf(n) == Text(y)
      && forall other | other !in [m, n, "key"] :: p.ValueOf(other) == Null
  {
    var ts := [Leaf(m, x), Leaf(n, y), key];
    NodesOfTwo(m, x, n, y, key);
    PartsOfTrees(root, ts);
    hide IsNode, FirstNode, Leaf;
    ValueIsBehindName(root, ts, m, 0, [Text(x)]);
    ValueIsBehindName(root, ts, n, 1, [Text(y)]);
    assert forall other | other !in [m, n, "key"] :: FirstNamed(ts, other) == Null;
  }

  /** A single provider below a root of another name. */
  lemma OneBelow(namespace: string, root: string, p: Tree)
    requires namespace in SUPPORTED && root != "provider" && root != "properties" && IsNode(p, "provider")
    ensures var f := Parsed(namespace, List([Text(root), p]));
      AllElements([f]) && AllElements([Parsed(namespace, p)]) && Loaded([f]) == Loaded([Parsed(namespace, p)])
  {
    hide Load, InFiles;
    ProvidersTogether(namespace, root, [p]);
    assert [Text(root)] + [p] == [Text(root), p] && [p][..0] == [] && Apart(namespace, []) == [];
    assert Apart(namespace, [p]) == [Parsed(namespace, p)];
  }

  /** A file with that root gives the answers. */
  ghost predicate RootAnswers(
      namespace: string, root: Tree, k: string, t: Tree, doc: string, deprecated: bool, ps: seq<ProviderInfo>)
  {
    && AllElements([Parsed(namespace, root)])
    && Answers(Loaded([Parsed(namespace, root)]), k, t, doc, deprecated, ps)
  }

  /** What a file answers that declares one key in a provider, as the root or one level down. */
  ghost predicate FileAnswers(
      namespace: string, p: Tree, k: string, t: Tree, doc: string, deprecated: bool, ps: seq<ProviderInfo>)
  {
    && RootAnswers(namespace, p, k, t, doc, deprecated, ps)
    && (p.Name() == "provider" ==> forall root | root != "provider" && root != "properties" ::
          RootAnswers(namespace, List([Text(root), p]), k, t, doc, deprecated, ps))
  }

  lemma AnswersBelow(
      namespace: string, p: Tree, k: string, t: Tree, doc: string, deprecated: bool, ps: seq<ProviderInfo>)
    requires namespace in SUPPORTED && (p.Name() == "provider" ==> IsNode(p, "provider"))
    requires RootAnswers(namespace, p, k, t, doc, deprecated, ps)
    ensures FileAnswers(namespace, p, k, t, doc, deprecated, ps)
  {
    hide Loaded, Answers, AllElements;
    if p.Name() == "provider" {
      forall root | root != "provider" && root != "properties"
        ensures RootAnswers(namespace, List([Text(root), p]), k, t, doc, deprecated, ps)
      {
        OneBelow(namespace, root, p);
      }
    }
  }

  lemma Spread(root: Tree, a: Tree, b: Tree, c: Tree)
    ensures [root] + [a, b, c] == [root, a, b, c]
  {
  }

  lemma NamesOfNodes(m: string, x: string, k: string, t: Tree, doc: string, deprecated: bool)
    ensures Leaf(m, x).Name() == m && IsNode(KeyTree(k, t, doc, deprecated), "key")
  {
  }

  lemma KeyInProvider(
      namespace: string, root: string, m: string, x: string, n: string, y: string, k: string, t: Tree, doc: string,
      deprecated: bool) returns (p: Tree, r: Registry)
    requires namespace in SUPPORTED && (root == "provider" || root == "properties")
    requires m != n && m != "key" && n != "key"
    ensures p == List([Text(root), Leaf(m, x), Leaf(n, y), KeyTree(k, t, doc, deprecated)])
    ensures FileAnswers(namespace, p, k, t, doc, deprecated, r.Providers(k))
    ensures IsProvided(r, k, p) && |r.Providers(k)| <= 1
    ensures p.ValueOf(m) == Text(x) && p.ValueOf(n) == Text(y)
    ensures forall other | other !in [m, n, "key"] :: p.ValueOf(other) == Null
  {
    var a, b, key := Leaf(m, x), Leaf(n, y), KeyTree(k, t, doc, deprecated);
    NamesOfNodes(m, x, k, t, doc, deprecated);
    NamesOfNodes(n, y, k, t, doc, deprecated);
    PartsOfTrees(root, [a, b, key]);
    hide KeyTree, Answers, Loaded, IsProvided, Leaf, Tree.ValueOf, Tree.Name, FileAnswers, AllElements, IsNode;
    hide Registry.Providers;
    TwoValues(root, m, x, n, y, key);
    KeyBehindTwo(namespace, root, a, b, k, t, doc, deprecated);
    p := List([Text(root)] + [a, b, key]);
    r := Loaded([Parsed(namespace, p)]);
    IsNodeOfName(root, [a, b, key]);
    AnswersBelow(namespace, p, k, t, doc, deprecated, r.Providers(k));
    Spread(Text(root), a, b, key);
  }

  lemma IsNodeOfName(name: string, ts: seq<Tree>)
    ensures IsNode(List([Text(name)] + ts), name)
  {
  }

  lemma OnlyElement<T>(ts: seq<T>, x: T)
    requires ts != [] && |ts| <= 1 && forall t | t in ts :: t == x
    ensures ts == [x]
  {
    assert ts[0] in ts;
  }

  /** A provider on D-Bus, in the old style: bus and service make the construction string. */
  lemma OldStyleProvider(
      namespace: string, bus: string, service: string, k: string, t: Tree, doc: string, deprecated: bool)
    requires namespace in SUPPORTED && bus != "" && service != ""
    ensures FileAnswers(
      namespace,
      List([Text("provider"), Leaf("bus", bus), Leaf("service", service), KeyTree(k, t, doc, deprecated)]),
      k, t, doc, deprecated, [ProviderInfo("contextkit-dbus", bus + ":" + service)])
  {
    hide FileAnswers, Leaf, KeyTree, Tree.ValueOf, Registry.Providers;
    var p, r := KeyInProvider(namespace, "provider", "bus", bus, "service", service, k, t, doc, deprecated);
    OnlyElement(r.Providers(k), ProviderInfo("contextkit-dbus", bus + ":" + service));
  }

  /** A provider that names its plugin. */
  lemma PluginProvider(
      namespace: string, plugin: string, construction: string, k: string, t: Tree, doc: string, deprecated: bool)
    requires namespace in SUPPORTED && plugin != ""
    ensures FileAnswers(
      namespace,
      List([Text("provider"), Leaf("plugin", plugin), Leaf("constructionString", construction),
            KeyTree(k, t, doc, deprecated)]),
      k, t, doc, deprecated, [ProviderInfo(plugin, construction)])
  {
    hide FileAnswers, Leaf, KeyTree, Tree.ValueOf, Registry.Providers;
    var p, r :=
      KeyInProvider(namespace, "provider", "plugin", plugin, "constructionString", construction, k, t, doc, deprecated);
    OnlyElement(r.Providers(k), ProviderInfo(plugin, construction));
  }

  /** Core properties: declared without a provider, whatever else is said about them. */
  lemma CoreProperty(
      namespace: string, m: string, x: string, n: string, y: string, k: string, t: Tree, doc: string, deprecated: bool)
    requires namespace in SUPPORTED && m != n && m !in ["key", "plugin", "bus"] && n !in ["key", "plugin", "bus"]
    ensures FileAnswers(
      namespace, List([Text("properties"), Leaf(m, x), Leaf(n, y), KeyTree(k, t, doc, deprecated)]),
      k, t, doc, deprecated, [])
  {
    hide FileAnswers, Leaf, KeyTree, Tree.ValueOf, Registry.Providers;
    var p, r := KeyInProvider(namespace, "properties", m, x, n, y, k, t, doc, deprecated);
  }
}
