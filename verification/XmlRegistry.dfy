/** The registry as read from XML files: key data from the first declaration of a key, providers
    from all of them. */
module XmlRegistry {
  import opened AssocTree

  const NAMESPACE := "http://contextkit.freedesktop.org/Provider"

  datatype ProviderInfo = ProviderInfo(plugin: string, constructionString: string)

  datatype KeyData = KeyData(name: string, typeInfo: Tree, doc: string, deprecated: bool)

  datatype Registry = Registry(keyData: map<string, KeyData>, keyProviders: map<string, seq<ProviderInfo>>)
  {
    predicate Declared(k: string) { k in keyData }

    function Doc(k: string): string { if k in keyData then keyData[k].doc else "" }

    predicate Deprecated(k: string) { k in keyData && keyData[k].deprecated }

    function TypeInfo(k: string): Tree { if k in keyData then keyData[k].typeInfo else Null }

    function Providers(k: string): seq<ProviderInfo> { if k in keyProviders then keyProviders[k] else [] }
  }

  /** A parsed file, or one that could not be parsed. */
  datatype File = Unreadable | Parsed(namespace: string, root: Tree)

  predicate IsElement(t: Tree) {
    t.List? && |t.items| > 0
  }

  /** One key declaration inside one provider. */
  datatype Declaration = Declaration(key: Tree, provider: Tree)

  function EnsureNewTypes(t: Tree): Tree {
    match t.Name()
    case "TRUTH" => Text("bool")
    case "INT" => Text("integer")
    case "INTEGER" => Text("integer")
    case "STRING" => Text("string")
    case "DOUBLE" => Text("number")
    case _ => t
  }

  function DataOf(d: Declaration): KeyData {
    KeyData(d.key.ValueOf("name").ToText(), EnsureNewTypes(d.key.ValueOf("type")),
            d.key.ValueOf("doc").ToText(), d.key.Node("deprecated") != Null)
  }

  /** The provider of a declaration; an old-style service and bus stand for the D-Bus plugin. */
  function ProviderOf(d: Declaration): ProviderInfo {
    var plugin := d.provider.ValueOf("plugin").ToText();
    var service, bus := d.provider.ValueOf("service").ToText(), d.provider.ValueOf("bus").ToText();
    if plugin != "" then ProviderInfo(plugin, d.provider.ValueOf("constructionString").ToText())
    else if bus != "" && service != "" then ProviderInfo("contextkit-dbus", bus + ":" + service)
    else ProviderInfo("", "")
  }

  /** Adding a declaration: known keys keep their data, and empty providers are not listed. */
  function Add(r: Registry, data: KeyData, info: ProviderInfo): Registry {
    var s := if data.name in r.keyData then r else r.(keyData := r.keyData[data.name := data]);
    if info.plugin == "" then s
    else s.(keyProviders := r.keyProviders[data.name := r.Providers(data.name) + [info]])
  }

  function Declare(r: Registry, d: Declaration): Registry {
    Add(r, DataOf(d), ProviderOf(d))
  }

  function Load(ds: seq<Declaration>): Registry {
    if |ds| == 0 then Registry(map[], map[]) else Declare(Load(ds[..|ds| - 1]), ds[|ds| - 1])
  }

  /** The keys directly below a provider. */
  function KeysBelow(ts: seq<Tree>, provider: Tree): seq<Declaration> {
    if |ts| == 0 then []
    else
      var n := |ts| - 1;
      KeysBelow(ts[..n], provider) + if ts[n].Name() == "key" then [Declaration(ts[n], provider)] else []
  }

  function ProvidersBelow(ts: seq<Tree>): seq<Declaration> {
    if |ts| == 0 then []
    else
      var n := |ts| - 1;
      ProvidersBelow(ts[..n]) + if ts[n].Name() == "provider" then KeysBelow(ts[n].Nodes(), ts[n]) else []
  }

  function InFile(f: File): seq<Declaration>
    requires f.Parsed? ==> IsElement(f.root)
  {
    if f.Unreadable? || (f.namespace != "" && f.namespace != NAMESPACE) then []
    else if f.root.items[0].ToText() in ["provider", "properties"] then KeysBelow(f.root.Nodes(), f.root)
    else ProvidersBelow(f.root.Nodes())
  }

  predicate AllElements(fs: seq<File>) {
    forall i | 0 <= i < |fs| :: fs[i].Parsed? ==> IsElement(fs[i].root)
  }

  function InFiles(fs: seq<File>): seq<Declaration>
    requires AllElements(fs)
  {
    if |fs| == 0 then [] else InFiles(fs[..|fs| - 1]) + InFile(fs[|fs| - 1])
  }

  // ---------------------------------------------------------------- what the loaded data means

  function FirstIndex(names: seq<string>, k: string): (i: int)
    ensures -1 <= i < |names|
    ensures i == -1 <==> k !in names
    ensures i >= 0 ==> names[i] == k && k !in names[..i]
  {
    if |names| == 0 then -1
    else
      var n := |names| - 1;
      assert names == names[..n] + [names[n]];
      var i := FirstIndex(names[..n], k);
      assert i >= 0 ==> names[..n][..i] == names[..i];
      if i >= 0 then i else if names[n] == k then n else -1
  }

  /** The names the declarations declare. */
  function Names(ds: seq<Declaration>): (names: seq<string>)
    ensures |names| == |ds|
  {
    seq(|ds|, i requires 0 <= i < |ds| => DataOf(ds[i]).name)
  }

  function AllProviders(ds: seq<Declaration>, k: string): seq<ProviderInfo> {
    if |ds| == 0 then []
    else
      var n := |ds| - 1;
      AllProviders(ds[..n], k) +
      if DataOf(ds[n]).name == k && ProviderOf(ds[n]).plugin != "" then [ProviderOf(ds[n])] else []
  }

  /** Data under its own name, and no providers for undeclared keys. */
  ghost predicate Consistent(r: Registry) {
    && (forall k | k in r.keyData :: r.keyData[k].name == k)
    && r.keyProviders.Keys <= r.keyData.Keys
  }

  lemma AddOne(r: Registry, data: KeyData, info: ProviderInfo, k: string)
    requires Consistent(r)
    ensures var s := Add(r, data, info);
      && Consistent(s)
      && (s.Declared(k) <==> r.Declared(k) || k == data.name)
      && (s.Declared(k) ==> s.keyData[k] == if r.Declared(k) then r.keyData[k] else data)
      && s.Providers(k) == r.Providers(k) + if data.name == k && info.plugin != "" then [info] else []
  {
  }

  /** The first declaration of a key gives its data; all declarations, in order, its providers. */
  lemma {:induction false} FirstDeclarationWins(ds: seq<Declaration>, k: string)
    ensures Consistent(Load(ds))
    ensures Load(ds).Declared(k) <==> k in Names(ds)
    ensures Load(ds).Declared(k) ==> Load(ds).keyData[k] == DataOf(ds[FirstIndex(Names(ds), k)])
    ensures Load(ds).Providers(k) == AllProviders(ds, k)
  {
    hide DataOf, ProviderOf, Add, Consistent;
    if |ds| == 0 {
      EmptyIsConsistent();
    } else {
      var n := |ds| - 1;
      FirstDeclarationWins(ds[..n], k);
      AddOne(Load(ds[..n]), DataOf(ds[n]), ProviderOf(ds[n]), k);
      assert Names(ds)[..n] == Names(ds[..n]);
      assert Names(ds) == Names(ds[..n]) + [DataOf(ds[n]).name];
    }
  }

  lemma EmptyIsConsistent()
    ensures Consistent(Registry(map[], map[]))
  {
  }

  // ---------------------------------------------------------------- the backend object

  class InfoXmlBackend {
    var keyDataHash: map<string, KeyData>
    var keyProvidersHash: map<string, seq<ProviderInfo>>
    var countOfFilesInLastParse: nat

    function View(): Registry
      reads this
    {
      Registry(keyDataHash, keyProvidersHash)
    }

    method ParseKey(keyTree: Tree, providerTree: Tree)
      modifies this`keyDataHash, this`keyProvidersHash
      ensures View() == Declare(old(View()), Declaration(keyTree, providerTree))
    {
      hide FirstNamed, EnsureNewTypes, ProviderOf;
      var key := keyTree.ValueOf("name").ToText();
      var doc := keyTree.ValueOf("doc").ToText();
      var typeInfo := EnsureNewTypes(keyTree.ValueOf("type"));
      var data := KeyData(key, typeInfo, doc, keyTree.Node("deprecated") != Null);
      assert data == DataOf(Declaration(keyTree, providerTree));
      if key !in keyDataHash {
        keyDataHash := keyDataHash[key := data];
      }
      var providerInfo := ReadProviderInfo(keyTree, providerTree);
      hide DataOf;
      if providerInfo.plugin == "" {
        return;
      }
      var list: seq<ProviderInfo> := [];
      if key in keyProvidersHash {
        list := keyProvidersHash[key];
      }
      list := list + [providerInfo];
      keyProvidersHash := keyProvidersHash[key := list];
    }

    static method ReadProviderInfo(ghost keyTree: Tree, providerTree: Tree) returns (info: ProviderInfo)
      ensures info == ProviderOf(Declaration(keyTree, providerTree))
    {
      hide FirstNamed;
      info := ProviderInfo(providerTree.ValueOf("plugin").ToText(),
                           providerTree.ValueOf("constructionString").ToText());
      if info.plugin == "" {
        var currentProvider := providerTree.ValueOf("service").ToText();
        var currentBus := providerTree.ValueOf("bus").ToText();
        if currentBus != "" && currentProvider != "" {
          info := ProviderInfo("contextkit-dbus", currentBus + ":" + currentProvider);
        } else {
          info := info.(constructionString := "");
        }
      }
    }

    /** The loop over the keys of one provider. */
    method ParseKeys(nodes: seq<Tree>, providerTree: Tree, ghost before: seq<Declaration>)
      requires View() == Load(before)
      modifies this`keyDataHash, this`keyProvidersHash
      ensures View() == Load(before + KeysBelow(nodes, providerTree))
    {
      hide Load, Declare;
      var i := 0;
      assert before + KeysBelow(nodes[..0], providerTree) == before;
      while i < |nodes|
        invariant 0 <= i <= |nodes|
        invariant View() == Load(before + KeysBelow(nodes[..i], providerTree))
      {
        assert nodes[..i + 1][..i] == nodes[..i];
        ghost var ds := before + KeysBelow(nodes[..i], providerTree);
        if nodes[i].Name() == "key" {
          ParseKey(nodes[i], providerTree);
          LoadOneMore(ds, Declaration(nodes[i], providerTree));
          assert before + KeysBelow(nodes[..i + 1], providerTree) == ds + [Declaration(nodes[i], providerTree)];
        } else {
          assert before + KeysBelow(nodes[..i + 1], providerTree) == ds;
        }
        i := i + 1;
      }
      assert nodes[..i] == nodes;
    }

    method ReadKeyDataFromXml(f: File, ghost before: seq<Declaration>)
      requires f.Parsed? ==> IsElement(f.root)
      requires View() == Load(before)
      modifies this`keyDataHash, this`keyProvidersHash
      ensures View() == Load(before + InFile(f))
    {
      hide Load, Declare, KeysBelow, FirstNamed, ProvidersBelow;
      if f.Unreadable? || (f.namespace != "" && f.namespace != NAMESPACE) {
        assert before + [] == before;
        return;
      }
      var nodes := f.root.Nodes();
      if f.root.items[0].ToText() == "provider" || f.root.items[0].ToText() == "properties" {
        ParseKeys(nodes, f.root, before);
        return;
      }
      var i := 0;
      NoProviders();
      assert before + [] == before;
      while i < |nodes|
        invariant 0 <= i <= |nodes|
        invariant View() == Load(before + ProvidersBelow(nodes[..i]))
      {
        ghost var ds := before + ProvidersBelow(nodes[..i]);
        ProvidersOneMore(nodes, i);
        if nodes[i].Name() == "provider" {
          ParseKeys(nodes[i].Nodes(), nodes[i], ds);
          assert before + ProvidersBelow(nodes[..i + 1]) == ds + KeysBelow(nodes[i].Nodes(), nodes[i]);
        }
        i := i + 1;
      }
      assert nodes[..i] == nodes;
    }

    /** `core` holds the core declarations file if it exists; it is not counted. */
    method RegenerateKeyDataList(core: seq<File>, readable: bool, files: seq<File>)
      requires |core| <= 1 && AllElements(core) && AllElements(files)
      modifies this
      ensures AllElements(core + files)
      ensures View() == Load(InFiles(if readable then core + files else core))
      ensures countOfFilesInLastParse == if readable then |files| else 0
    {
      hide Load, InFile, InFiles, IsElement, Declare, KeysBelow, ProvidersBelow;
      keyDataHash, keyProvidersHash, countOfFilesInLastParse := map[], map[], 0;
      NothingLoaded();
      NoFiles();
      if |core| == 1 {
        ReadKeyDataFromXml(core[0], []);
        InFilesOneMore(core, 0);
        assert core[..0] == [] && core[..1] == core;
      } else {
        assert core == [];
      }
      if !readable {
        return;
      }
      ghost var all := core + files;
      var i := 0;
      assert all[..|core|] == core;
      while i < |files|
        invariant 0 <= i <= |files| && countOfFilesInLastParse == i
        invariant View() == Load(InFiles(all[..|core| + i]))
      {
        ghost var j := |core| + i;
        InFilesOneMore(all, j);
        ReadKeyDataFromXml(files[i], InFiles(all[..j]));
        i := i + 1;
        countOfFilesInLastParse := countOfFilesInLastParse + 1;
      }
      assert all[..|core| + i] == all;
    }
  }

  lemma LoadOneMore(ds: seq<Declaration>, d: Declaration)
    ensures Load(ds + [d]) == Declare(Load(ds), d)
  {
    assert (ds + [d])[..|ds|] == ds;
  }

  lemma NoProviders()
    ensures ProvidersBelow([]) == []
  {
  }

  lemma ProvidersOneMore(ts: seq<Tree>, i: nat)
    requires i < |ts|
    ensures ProvidersBelow(ts[..i + 1]) ==
      if ts[i].Name() == "provider" then ProvidersBelow(ts[..i]) + KeysBelow(ts[i].Nodes(), ts[i])
      else ProvidersBelow(ts[..i])
  {
    assert ts[..i + 1][..i] == ts[..i];
  }

  lemma NoFiles()
    ensures InFiles([]) == []
  {
  }

  lemma InFilesOneMore(fs: seq<File>, j: nat)
    requires AllElements(fs) && j < |fs|
    ensures InFiles(fs[..j + 1]) == InFiles(fs[..j]) + InFile(fs[j])
  {
    assert fs[..j + 1][..j] == fs[..j];
  }

  lemma NothingLoaded()
    ensures Load([]) == Registry(map[], map[])
  {
  }
}
