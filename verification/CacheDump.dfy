/** Writing the registry into a cdb cache, and answering from the cache as from the registry. */
module CacheDump {
  import opened AssocTree
  import opened Cdb
  import opened XmlRegistry

  /** What the records of the cache stand for. */
  datatype Subject =
    Version | Keys | TypeOf(k: string) | DocOf(k: string) | DeprecatedOf(k: string) | ProvidersOf(k: string)

  function RecordName(s: Subject): string {
    match s
    case Version => "VERSION"
    case Keys => "KEYS"
    case TypeOf(k) => k + ":KEYTYPEINFO"
    case DocOf(k) => k + ":KEYDOC"
    case DeprecatedOf(k) => k + ":KEYDEPRECATED"
    case ProvidersOf(k) => k + ":PROVIDERS"
  }

  /** No two records share a name, whatever the keys are called. */
  lemma NamesNeverCollide(a: Subject, b: Subject)
    requires RecordName(a) == RecordName(b)
    ensures a == b
  {
    var x, y := RecordName(a), RecordName(b);
    assert x[|x| - 1] == y[|y| - 1];
    match a {
      case TypeOf(k) => assert x[..|x| - 12] == k && y[..|y| - 12] == b.k;
      case DocOf(k) => assert x[..|x| - 7] == k && y[..|y| - 7] == b.k;
      case DeprecatedOf(k) => assert x[..|x| - 14] == k && y[..|y| - 14] == b.k;
      case ProvidersOf(k) => assert x[..|x| - 10] == k && y[..|y| - 10] == b.k;
      case _ =>
    }
  }

  // ---------------------------------------------------------------- the dump as a function

  /** What the introspection object of a key reports; the key "" is never looked up, except that its
      deprecation is asked for each time. */
  datatype PropertyInfo = PropertyInfo(typeInfo: Tree, doc: string, deprecated: bool, providers: seq<ProviderInfo>)

  function Introspect(r: Registry, k: string): PropertyInfo {
    if k == "" then PropertyInfo(Null, "", r.Deprecated(k), [])
    else PropertyInfo(r.TypeInfo(k), r.Doc(k), r.Deprecated(k), r.Providers(k))
  }

  function HashOf(p: ProviderInfo): map<string, string> {
    map["plugin" := p.plugin, "constructionString" := p.constructionString]
  }

  function Hashes(ps: seq<ProviderInfo>): seq<map<string, string>> {
    seq(|ps|, i requires 0 <= i < |ps| => HashOf(ps[i]))
  }

  function TextAt(h: map<string, string>, name: string): string {
    if name in h then h[name] else ""
  }

  function InfosOf(hs: seq<map<string, string>>): seq<ProviderInfo> {
    seq(|hs|, i requires 0 <= i < |hs| => ProviderInfo(TextAt(hs[i], "plugin"), TextAt(hs[i], "constructionString")))
  }

  lemma HashesRoundTrip(ps: seq<ProviderInfo>)
    ensures InfosOf(Hashes(ps)) == ps
  {
    forall i | 0 <= i < |ps| ensures InfosOf(Hashes(ps))[i] == ps[i] {
      assert Hashes(ps)[i] == HashOf(ps[i]);
    }
  }

  /** The records a database must hold after the keys were dumped: one of each kind for every key,
      the version, and the list of keys. */
  function Expected(r: Registry, keys: seq<string>, s: Subject): seq<Record> {
    match s
    case Version => [Str(NAMESPACE)]
    case Keys => seq(|keys|, i requires 0 <= i < |keys| => Str(keys[i]))
    case TypeOf(k) => if k in keys then [Type(Introspect(r, k).typeInfo)] else []
    case DocOf(k) => if k in keys then [Str(Introspect(r, k).doc)] else []
    case DeprecatedOf(k) => if k in keys then [Flag(Introspect(r, k).deprecated)] else []
    case ProvidersOf(k) => if k in keys then [Infos(Hashes(Introspect(r, k).providers))] else []
  }

  ghost predicate IsDump(db: Database, r: Registry, keys: seq<string>) {
    forall s :: Values(db, RecordName(s)) == Expected(r, keys, s)
  }

  ghost predicate NoDuplicates(keys: seq<string>) {
    forall i, j | 0 <= i < j < |keys| :: keys[i] != keys[j]
  }

  /** A listing of the registry's keys, in whatever order. */
  ghost predicate IsListing(keys: seq<string>, r: Registry) {
    && NoDuplicates(keys)
    && forall k :: k in keys <==> r.Declared(k)
  }

  /** The records of one key, in the order they are written. */
  function DumpKey(db: Database, k: string, info: PropertyInfo): Database {
    var a := Put(db, RecordName(Keys), Str(k), PutAdd);
    var b := Put(a, RecordName(TypeOf(k)), Type(info.typeInfo), PutReplace);
    var c := Put(b, RecordName(DocOf(k)), Str(info.doc), PutReplace);
    var d := Put(c, RecordName(DeprecatedOf(k)), Flag(info.deprecated), PutReplace);
    Put(d, RecordName(ProvidersOf(k)), Infos(Hashes(info.providers)), PutAdd)
  }

  function DumpAll(r: Registry, keys: seq<string>): Database {
    if |keys| == 0 then Put([], RecordName(Version), Str(NAMESPACE), PutAdd)
    else
      var n := |keys| - 1;
      DumpKey(DumpAll(r, keys[..n]), keys[n], Introspect(r, keys[n]))
  }

  lemma PutSubject(db: Database, s: Subject, v: Record, mode: PutMode, t: Subject)
    requires mode != PutInsert
    ensures Values(Put(db, RecordName(s), v, mode), RecordName(t)) ==
      if s != t then Values(db, RecordName(t))
      else if mode == PutAdd then Values(db, RecordName(t)) + [v] else [v]
  {
    hide RecordName, Put, Values;
    PutThenFind(db, RecordName(s), v, mode, RecordName(t));
    if RecordName(s) == RecordName(t) {
      NamesNeverCollide(s, t);
    }
  }

  lemma DumpKeyRecords(db: Database, k: string, info: PropertyInfo, s: Subject)
    ensures Values(DumpKey(db, k, info), RecordName(s)) ==
      var vs := Values(db, RecordName(s));
      match s
      case Version => vs
      case Keys => vs + [Str(k)]
      case TypeOf(l) => if l == k then [Type(info.typeInfo)] else vs
      case DocOf(l) => if l == k then [Str(info.doc)] else vs
      case DeprecatedOf(l) => if l == k then [Flag(info.deprecated)] else vs
      case ProvidersOf(l) => if l == k then vs + [Infos(Hashes(info.providers))] else vs
  {
    hide RecordName, Put, Values, Hashes;
    var a := Put(db, RecordName(Keys), Str(k), PutAdd);
    var b := Put(a, RecordName(TypeOf(k)), Type(info.typeInfo), PutReplace);
    var c := Put(b, RecordName(DocOf(k)), Str(info.doc), PutReplace);
    var d := Put(c, RecordName(DeprecatedOf(k)), Flag(info.deprecated), PutReplace);
    PutSubject(db, Keys, Str(k), PutAdd, s);
    PutSubject(a, TypeOf(k), Type(info.typeInfo), PutReplace, s);
    PutSubject(b, DocOf(k), Str(info.doc), PutReplace, s);
    PutSubject(c, DeprecatedOf(k), Flag(info.deprecated), PutReplace, s);
    PutSubject(d, ProvidersOf(k), Infos(Hashes(info.providers)), PutAdd, s);
  }

  lemma {:induction false} DumpRecords(r: Registry, keys: seq<string>, s: Subject)
    requires NoDuplicates(keys)
    ensures Values(DumpAll(r, keys), RecordName(s)) == Expected(r, keys, s)
  {
    hide RecordName, DumpKey, Values, Hashes, Introspect;
    if |keys| == 0 {
      PutSubject([], Version, Str(NAMESPACE), PutAdd, s);
      NothingStored(RecordName(s));
    } else {
      var n := |keys| - 1;
      DumpRecords(r, keys[..n], s);
      DumpKeyRecords(DumpAll(r, keys[..n]), keys[n], Introspect(r, keys[n]), s);
      assert keys == keys[..n] + [keys[n]];
    }
  }

  lemma DumpIsDump(r: Registry, keys: seq<string>)
    requires NoDuplicates(keys)
    ensures IsDump(DumpAll(r, keys), r, keys)
  {
    hide DumpAll, Expected, RecordName, NoDuplicates, Values;
    forall s ensures Values(DumpAll(r, keys), RecordName(s)) == Expected(r, keys, s) {
      DumpRecords(r, keys, s);
    }
  }

  lemma RecordsOfDump(r: Registry, keys: seq<string>, s: Subject, name: string, vs: seq<Record>)
    requires NoDuplicates(keys) && name == RecordName(s) && vs == Expected(r, keys, s)
    ensures Values(DumpAll(r, keys), name) == vs
  {
    DumpRecords(r, keys, s);
  }

  /** The records of the dump, name by name. */
  lemma DumpWrittenOut(r: Registry, keys: seq<string>, k: string) returns (hs: seq<map<string, string>>)
    requires NoDuplicates(keys) && k in keys && k != ""
    ensures var db := DumpAll(r, keys);
      && Values(db, "VERSION") == [Str("http://contextkit.freedesktop.org/Provider")]
      && |Values(db, "KEYS")| == |keys| && (forall i | 0 <= i < |keys| :: Values(db, "KEYS")[i] == Str(keys[i]))
      && Values(db, k + ":KEYTYPEINFO") == [Type(r.TypeInfo(k))]
      && Values(db, k + ":KEYDOC") == [Str(r.Doc(k))]
      && Values(db, k + ":KEYDEPRECATED") == [Flag(r.Deprecated(k))]
      && Values(db, k + ":PROVIDERS") == [Infos(hs)]
    ensures |hs| == |r.Providers(k)|
    ensures forall i | 0 <= i < |hs| ::
      var p := r.Providers(k)[i];
      hs[i] == map["plugin" := p.plugin, "constructionString" := p.constructionString]
  {
    hide DumpAll, Values, NoDuplicates, Hashes;
    RecordsOfDump(r, keys, Version, "VERSION", [Str("http://contextkit.freedesktop.org/Provider")]);
    RecordsOfDump(r, keys, Keys, "KEYS", Expected(r, keys, Keys));
    RecordsOfDump(r, keys, TypeOf(k), k + ":KEYTYPEINFO", [Type(r.TypeInfo(k))]);
    RecordsOfDump(r, keys, DocOf(k), k + ":KEYDOC", [Str(r.Doc(k))]);
    RecordsOfDump(r, keys, DeprecatedOf(k), k + ":KEYDEPRECATED", [Flag(r.Deprecated(k))]);
    hs := Hashes(r.Providers(k));
    RecordsOfDump(r, keys, ProvidersOf(k), k + ":PROVIDERS", [Infos(hs)]);
    HashesWrittenOut(r.Providers(k));
  }

  lemma HashesWrittenOut(ps: seq<ProviderInfo>)
    ensures |Hashes(ps)| == |ps|
    ensures forall i | 0 <= i < |ps| ::
      Hashes(ps)[i] == map["plugin" := ps[i].plugin, "constructionString" := ps[i].constructionString]
  {
  }

  // ---------------------------------------------------------------- the dump loop

  method DumpRegistry(r: Registry, keys: seq<string>, writer: CDBWriter)
    requires writer.making && writer.contents == []
    modifies writer
    ensures !writer.making
    ensures writer.contents == DumpAll(r, keys)
    ensures IsListing(keys, r) ==> IsDump(writer.contents, r, keys)
  {
    hide Put, Values, IsListing, IsDump, Introspect, DumpKey;
    writer.Add("VERSION", Str(NAMESPACE));
    var i := 0;
    while i < |keys|
      invariant 0 <= i <= |keys| && writer.making
      invariant writer.contents == DumpAll(r, keys[..i])
    {
      WriteKey(keys[i], Introspect(r, keys[i]), writer);
      assert keys[..i + 1][..i] == keys[..i];
      i := i + 1;
    }
    assert keys[..i] == keys;
    writer.Close();
    if IsListing(keys, r) {
      ListingHasNoDuplicates(keys, r);
      DumpIsDump(r, keys);
    }
  }

  method WriteKey(key: string, keyInfo: PropertyInfo, writer: CDBWriter)
    requires writer.making
    modifies writer`contents
    ensures writer.contents == DumpKey(old(writer.contents), key, keyInfo)
  {
    hide Put, Values, Hashes;
    writer.Add("KEYS", Str(key));
    writer.Replace(key + ":KEYTYPEINFO", Type(keyInfo.typeInfo));
    writer.Replace(key + ":KEYDOC", Str(keyInfo.doc));
    writer.Replace(key + ":KEYDEPRECATED", Flag(keyInfo.deprecated));
    var providers := DumpProviders(keyInfo.providers);
    writer.Add(key + ":PROVIDERS", Infos(providers));
  }

  lemma ListingHasNoDuplicates(keys: seq<string>, r: Registry)
    requires IsListing(keys, r)
    ensures NoDuplicates(keys)
  {
  }

  method DumpProviders(infos: seq<ProviderInfo>) returns (providers: seq<map<string, string>>)
    ensures providers == Hashes(infos)
    ensures InfosOf(providers) == infos
  {
    providers := [];
    for i := 0 to |infos|
      invariant providers == Hashes(infos[..i])
    {
      var provider: map<string, string> := map[];
      provider := provider["plugin" := infos[i].plugin];
      provider := provider["constructionString" := infos[i].constructionString];
      assert provider == HashOf(infos[i]);
      providers := providers + [provider];
    }
    assert infos[..|infos|] == infos;
    HashesRoundTrip(infos);
  }

  // ---------------------------------------------------------------- answering from the cache

  predicate Compatible(db: Database) {
    First(db, "VERSION").ToText() in ["", NAMESPACE]
  }

  /** A database without a version may be used, and one whose first version is the supported one. */
  lemma SupportedVersions(db: Database)
    ensures Values(db, "VERSION") == [] ==> Compatible(db)
    ensures forall v: string, vs | Values(db, "VERSION") == [Str(v)] + vs ::
      Compatible(db) <==> v == "" || v == "http://contextkit.freedesktop.org/Provider"
  {
    hide Values;
    forall v: string, vs | Values(db, "VERSION") == [Str(v)] + vs
      ensures Compatible(db) <==> v == "" || v == "http://contextkit.freedesktop.org/Provider"
    {
      assert First(db, "VERSION") == Str(v);
    }
  }

  function ListKeys(db: Database): seq<string> {
    var vs := Values(db, "KEYS");
    seq(|vs|, i requires 0 <= i < |vs| => vs[i].ToText())
  }

  predicate KeyDeclared(db: Database, k: string) { Str(k) in Values(db, "KEYS") }

  function DocForKey(db: Database, k: string): string { First(db, k + ":KEYDOC").ToText() }

  predicate KeyDeprecated(db: Database, k: string) { First(db, k + ":KEYDEPRECATED").ToBool() }

  function TypeInfoForKey(db: Database, k: string): Tree { First(db, k + ":KEYTYPEINFO").ToTree() }

  function ProvidersForKey(db: Database, k: string): seq<ProviderInfo> {
    InfosOf(First(db, k + ":PROVIDERS").ToHashes())
  }

  /** The cache and the registry give the same answers about a key. */
  ghost predicate SameAnswers(db: Database, r: Registry, k: string) {
    && KeyDeclared(db, k) == r.Declared(k)
    && KeyDeprecated(db, k) == r.Deprecated(k)
    && DocForKey(db, k) == r.Doc(k)
    && TypeInfoForKey(db, k) == r.TypeInfo(k)
    && ProvidersForKey(db, k) == r.Providers(k)
  }

  lemma AnswersOfDump(db: Database, r: Registry, keys: seq<string>, k: string)
    requires IsDump(db, r, keys)
    ensures KeyDeclared(db, k) <==> k in keys
    ensures KeyDeprecated(db, k) <==> k in keys && Introspect(r, k).deprecated
    ensures DocForKey(db, k) == if k in keys then Introspect(r, k).doc else ""
    ensures TypeInfoForKey(db, k) == if k in keys then Introspect(r, k).typeInfo else Null
    ensures ProvidersForKey(db, k) == if k in keys then Introspect(r, k).providers else []
  {
    hide Values, Hashes, InfosOf, Introspect;
    DeclaredInDump(db, r, keys, k);
    assert Values(db, RecordName(DeprecatedOf(k))) == Expected(r, keys, DeprecatedOf(k));
    assert Values(db, RecordName(DocOf(k))) == Expected(r, keys, DocOf(k));
    assert Values(db, RecordName(TypeOf(k))) == Expected(r, keys, TypeOf(k));
    assert Values(db, RecordName(ProvidersOf(k))) == Expected(r, keys, ProvidersOf(k));
    HashesRoundTrip(Introspect(r, k).providers);
    NoHashes();
  }

  lemma NoHashes()
    ensures InfosOf([]) == []
  {
  }

  lemma DeclaredInDump(db: Database, r: Registry, keys: seq<string>, k: string)
    requires IsDump(db, r, keys)
    ensures KeyDeclared(db, k) <==> k in keys
  {
    hide Values;
    var vs := Expected(r, keys, Keys);
    assert Values(db, RecordName(Keys)) == vs;
    if k in keys {
      var i :| 0 <= i < |keys| && keys[i] == k;
      assert vs[i] == Str(k);
    }
  }

  /** The cache is compatible, lists the keys, and answers like the registry about every named key,
      declared or not. */
  lemma CacheAnswersLikeRegistry(r: Registry, keys: seq<string>, k: string)
    requires Consistent(r) && IsListing(keys, r)
    ensures Compatible(DumpAll(r, keys)) && ListKeys(DumpAll(r, keys)) == keys
    ensures k != "" ==> SameAnswers(DumpAll(r, keys), r, k)
  {
    var db := DumpAll(r, keys);
    DumpIsDump(r, keys);
    CompatibleAndListed(db, r, keys);
    if k != "" {
      AnswersOfDump(db, r, keys, k);
      SameAsIntrospection(db, r, keys, k);
    }
  }

  lemma CompatibleAndListed(db: Database, r: Registry, keys: seq<string>)
    requires IsDump(db, r, keys)
    ensures Compatible(db) && ListKeys(db) == keys
  {
    hide Values;
    assert Values(db, RecordName(Version)) == Expected(r, keys, Version);
    assert Values(db, RecordName(Keys)) == Expected(r, keys, Keys);
  }

  /** What is cached equals what the registry holds, exactly when introspection reports it all. */
  lemma SameAsIntrospection(db: Database, r: Registry, keys: seq<string>, k: string)
    requires Consistent(r) && IsListing(keys, r) && IsDump(db, r, keys)
    ensures SameAnswers(db, r, k) <==>
      Introspect(r, k) == PropertyInfo(r.TypeInfo(k), r.Doc(k), r.Deprecated(k), r.Providers(k))
  {
    hide IsDump, DocForKey, TypeInfoForKey, ProvidersForKey, KeyDeprecated, KeyDeclared;
    AnswersOfDump(db, r, keys, k);
  }

  /** The only key the cache can get wrong is the empty one, and it does unless nothing but its
      deprecation was declared. */
  lemma AgreementIsExact(r: Registry, keys: seq<string>)
    requires Consistent(r) && IsListing(keys, r)
    ensures (forall k :: SameAnswers(DumpAll(r, keys), r, k)) <==>
      r.TypeInfo("") == Null && r.Doc("") == "" && r.Providers("") == []
  {
    hide SameAnswers, DumpAll, Consistent, IsListing;
    var db := DumpAll(r, keys);
    ListingHasNoDuplicates(keys, r);
    DumpIsDump(r, keys);
    forall k ensures SameAnswers(db, r, k) <==>
      Introspect(r, k) == PropertyInfo(r.TypeInfo(k), r.Doc(k), r.Deprecated(k), r.Providers(k))
    {
      SameAsIntrospection(db, r, keys, k);
    }
  }

  /** From the XML files to the cache: every named key keeps the data of its first declaration and
      the providers of all. */
  lemma CacheHoldsDeclarations(ds: seq<Declaration>, keys: seq<string>, k: string)
    requires IsListing(keys, Load(ds)) && k != ""
    ensures var db := DumpAll(Load(ds), keys);
      && (KeyDeclared(db, k) <==> k in Names(ds))
      && ProvidersForKey(db, k) == AllProviders(ds, k)
      && (k in Names(ds) ==>
            var data := DataOf(ds[FirstIndex(Names(ds), k)]);
            && DocForKey(db, k) == data.doc && TypeInfoForKey(db, k) == data.typeInfo
            && KeyDeprecated(db, k) == data.deprecated)
  {
    hide DumpAll, Load, Names, FirstIndex, AllProviders, DataOf, IsListing, Consistent;
    hide DocForKey, TypeInfoForKey, ProvidersForKey, KeyDeprecated, KeyDeclared;
    FirstDeclarationWins(ds, k);
    CacheAnswersLikeRegistry(Load(ds), keys, k);
  }

  /** An incompatible database of one key shows the type of that key. */
  lemma IncompatibleTypeShows(k: string, t: Tree)
    requires t != Null
    ensures var db := [Entry(RecordName(Version), Str("another version")), Entry(RecordName(TypeOf(k)), Type(t))];
      !Compatible(db) && TypeInfoForKey(db, k) == t
  {
    var e, f := Entry(RecordName(Version), Str("another version")), Entry(RecordName(TypeOf(k)), Type(t));
    hide RecordName, Values;
    assert RecordName(Version) != RecordName(TypeOf(k)) by {
      if RecordName(Version) == RecordName(TypeOf(k)) { NamesNeverCollide(Version, TypeOf(k)); }
    }
    assert RecordName(Version) == "VERSION" && RecordName(TypeOf(k)) == k + ":KEYTYPEINFO" by { NamesOfRecords(k); }
    forall q
      ensures Values([e, f], q) == (if e.key == q then [e.value] else []) + (if f.key == q then [f.value] else [])
    {
      NothingStored(q);
      ValuesAppend([], e, q);
      ValuesAppend([e], f, q);
      assert [] + [e] == [e] && [e] + [f] == [e, f];
    }
  }

  lemma NamesOfRecords(k: string)
    ensures RecordName(Version) == "VERSION" && RecordName(TypeOf(k)) == k + ":KEYTYPEINFO"
  {
  }

  // ---------------------------------------------------------------- the backend object

  class InfoCdbBackend {
    const reader: CDBReader
    var databaseCompatible: bool
    var lastInode: int

    /** An open database is used exactly when its version fits, and a closed one has no contents. */
    ghost predicate Valid()
      reads this, reader
    {
      && (reader.readable ==> databaseCompatible == Compatible(reader.Contents()))
      && (reader.cdb.Some? ==> reader.readable)
    }

    /** The database answers come from: none if it is closed or incompatible. */
    ghost function Answering(): Database
      reads this, reader
    {
      if reader.readable && Compatible(reader.Contents()) then reader.Contents() else []
    }

    constructor (file: DatabaseFile, inode: int)
      ensures Valid() && fresh(reader) && lastInode == inode
      ensures Answering() == if file.Stored? && Compatible(file.db) then file.db else []
    {
      reader := new CDBReader(file);
      databaseCompatible, lastInode := false, inode;
      new;
      CheckCompatibility();
    }

    method CheckCompatibility()
      modifies this`databaseCompatible
      ensures databaseCompatible == (reader.readable && Compatible(reader.Contents()))
    {
      if !reader.readable {
        databaseCompatible := false;
      } else {
        var record := reader.ValueForKey("VERSION");
        var version := record.ToText();
        databaseCompatible := !(version != "" && version != NAMESPACE);
      }
    }

    /** A new inode means a new file; an unreadable one leaves the flag as it was. */
    method OnDatabaseDirectoryChanged(inode: int, file: DatabaseFile)
      requires Valid()
      modifies this, reader
      ensures Valid() && lastInode == inode
      ensures Answering() ==
        if inode == old(lastInode) then old(Answering())
        else if file.Stored? && Compatible(file.db) then file.db else []
    {
      if lastInode != inode {
        lastInode := inode;
        reader.Reopen(file);
        if reader.readable {
          CheckCompatibility();
        }
      }
    }

    method Keys() returns (keys: seq<string>)
      requires Valid()
      ensures keys == ListKeys(Answering())
    {
      NothingStored("KEYS");
      if !databaseCompatible {
        return [];
      }
      var values := reader.ValuesForKey("KEYS");
      keys := [];
      for i := 0 to |values|
        invariant |keys| == i && forall j | 0 <= j < i :: keys[j] == values[j].ToText()
      {
        keys := keys + [values[i].ToText()];
      }
    }

    method Doc(key: string) returns (doc: string)
      requires Valid()
      ensures doc == DocForKey(Answering(), key)
    {
      NothingStored(key + ":KEYDOC");
      if !databaseCompatible {
        return "";
      }
      var record := reader.ValueForKey(key + ":KEYDOC");
      return record.ToText();
    }

    method Declared(key: string) returns (declared: bool)
      requires Valid()
      ensures declared == KeyDeclared(Answering(), key)
    {
      NothingStored("KEYS");
      if !databaseCompatible {
        return false;
      }
      var values := reader.ValuesForKey("KEYS");
      return Str(key) in values;
    }

    method Deprecated(key: string) returns (deprecated: bool)
      requires Valid()
      ensures deprecated == KeyDeprecated(Answering(), key)
    {
      NothingStored(key + ":KEYDEPRECATED");
      if !databaseCompatible {
        return false;
      }
      var record := reader.ValueForKey(key + ":KEYDEPRECATED");
      return record.ToBool();
    }

    method Providers(key: string) returns (lst: seq<ProviderInfo>)
      requires Valid()
      ensures lst == ProvidersForKey(Answering(), key)
    {
      NothingStored(key + ":PROVIDERS");
      var providers := reader.ValueForKey(key + ":PROVIDERS");
      lst := [];
      if !databaseCompatible {
        return;
      }
      var hashes := providers.ToHashes();
      for i := 0 to |hashes|
        invariant lst == InfosOf(hashes[..i])
      {
        lst := lst + [ProviderInfo(TextAt(hashes[i], "plugin"), TextAt(hashes[i], "constructionString"))];
      }
      assert hashes[..|hashes|] == hashes;
    }

    /** The type is read even from an incompatible database: the answer is that of a database that
        may be used exactly if this one may, or holds no type for the key. */
    method TypeInfo(key: string) returns (typeInfo: Tree)
      requires Valid()
      ensures typeInfo == TypeInfoForKey(reader.Contents(), key)
      ensures typeInfo == TypeInfoForKey(Answering(), key) <==> Compatible(reader.Contents()) || typeInfo == Null
    {
      NothingStored(key + ":KEYTYPEINFO");
      var record := reader.ValueForKey(key + ":KEYTYPEINFO");
      return record.ToTree();
    }
  }
}
