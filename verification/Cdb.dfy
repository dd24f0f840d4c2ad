/** The cdb database as an insertion-ordered multimap, its writer and its reader. */
module Cdb {
  import opened AssocTree
  import opened Options

  /** A stored variant; `Nothing` is the variant of a missing record. */
  datatype Record =
    Nothing | Str(text: string) | Type(tree: Tree) | Flag(on: bool) | Infos(hashes: seq<map<string, string>>)
  {
    function ToText(): string { if Str? then text else "" }

    function ToTree(): Tree { if Type? then tree else Null }

    predicate ToBool() { Flag? && on }

    function ToHashes(): seq<map<string, string>> { if Infos? then hashes else [] }
  }

  datatype Entry = Entry(key: string, value: Record)

  type Database = seq<Entry>

  /** What a lookup finds: all values of the key, in the order of insertion. */
  function Values(db: Database, key: string): (vs: seq<Record>)
    ensures vs == [] <==> forall i | 0 <= i < |db| :: db[i].key != key
  {
    if |db| == 0 then []
    else
      var n := |db| - 1;
      assert db == db[..n] + [db[n]];
      Values(db[..n], key) + if db[n].key == key then [db[n].value] else []
  }

  function Removed(db: Database, key: string): Database {
    if |db| == 0 then []
    else
      var n := |db| - 1;
      Removed(db[..n], key) + if db[n].key == key then [] else [db[n]]
  }

  datatype PutMode = PutAdd | PutInsert | PutReplace

  function Put(db: Database, key: string, value: Record, mode: PutMode): Database {
    match mode
    case PutAdd => db + [Entry(key, value)]
    case PutInsert => if Values(db, key) == [] then db + [Entry(key, value)] else db
    case PutReplace => Removed(db, key) + [Entry(key, value)]
  }

  lemma ValuesAppend(db: Database, e: Entry, q: string)
    ensures Values(db + [e], q) == Values(db, q) + if e.key == q then [e.value] else []
  {
    assert (db + [e])[..|db|] == db;
  }

  lemma {:induction false} ValuesRemoved(db: Database, key: string, q: string)
    ensures Values(Removed(db, key), q) == if q == key then [] else Values(db, q)
  {
    if |db| > 0 {
      var n := |db| - 1;
      ValuesRemoved(db[..n], key, q);
      if db[n].key != key {
        ValuesAppend(Removed(db[..n], key), db[n], q);
      } else {
        assert Removed(db, key) == Removed(db[..n], key);
      }
    }
  }

  /** Adding appends, inserting keeps what is there, replacing leaves one value; other keys keep
      theirs. */
  lemma PutThenFind(db: Database, key: string, value: Record, mode: PutMode, q: string)
    ensures Values(Put(db, key, value, mode), q) ==
      if q != key then Values(db, q)
      else match mode
        case PutAdd => Values(db, key) + [value]
        case PutInsert => if Values(db, key) == [] then [value] else Values(db, key)
        case PutReplace => [value]
  {
    ValuesAppend(db, Entry(key, value), q);
    ValuesRemoved(db, key, q);
    ValuesAppend(Removed(db, key), Entry(key, value), q);
  }

  /** The next position at or after `from` that holds the key. */
  function FindNext(db: Database, key: string, from: nat): (i: nat)
    requires from <= |db|
    ensures from <= i <= |db|
    ensures i < |db| ==> db[i].key == key
    ensures forall j | from <= j < i :: db[j].key != key
    decreases |db| - from
  {
    if from == |db| || db[from].key == key then from else FindNext(db, key, from + 1)
  }

  /** Skipping entries of other keys skips no value. */
  lemma {:induction false} ValuesSkip(db: Database, key: string, i: nat, j: nat)
    requires i <= j <= |db|
    requires forall l | i <= l < j :: db[l].key != key
    ensures Values(db[..j], key) == Values(db[..i], key)
    decreases j
  {
    if i < j {
      ValuesSkip(db, key, i, j - 1);
      assert db[..j][..j - 1] == db[..j - 1];
      assert db[..j][j - 1].key != key;
    }
  }

  lemma NothingStored(key: string)
    ensures Values([], key) == []
  {
  }

  /** Reading the value at the cursor and moving on to the next one. */
  lemma ValuesStep(db: Database, key: string, i: nat, j: nat)
    requires i < j <= |db| && db[i].key == key && forall l | i < l < j :: db[l].key != key
    ensures Values(db[..j], key) == Values(db[..i], key) + [db[i].value]
  {
    hide Values;
    ValuesAppend(db[..i], db[i], key);
    assert db[..i + 1] == db[..i] + [db[i]];
    ValuesSkip(db, key, i + 1, j);
  }

  // ---------------------------------------------------------------- the writer object

  class CDBWriter {
    var making: bool
    var fd: int
    var contents: Database

    constructor (fdd: int)
      ensures fd == fdd && making == (fdd > 0) && contents == []
    {
      fd, making, contents := fdd, fdd > 0, [];
    }

    method PutRecord(key: string, value: Record, mode: PutMode)
      modifies this`contents
      ensures contents == if making then Put(old(contents), key, value, mode) else old(contents)
    {
      if !making {
        return;
      }
      contents := Put(contents, key, value, mode);
    }

    method Add(key: string, value: Record)
      modifies this`contents
      ensures making ==> forall q :: Values(contents, q) == Values(old(contents), q) + if q == key then [value] else []
      ensures contents == if making then Put(old(contents), key, value, PutAdd) else old(contents)
    {
      PutRecord(key, value, PutAdd);
      forall q { PutThenFind(old(contents), key, value, PutAdd, q); }
    }

    method Insert(key: string, value: Record)
      modifies this`contents
      ensures making && Values(old(contents), key) == [] ==> Values(contents, key) == [value]
      ensures !making || Values(old(contents), key) != [] ==> contents == old(contents)
      ensures forall q | q != key :: Values(contents, q) == Values(old(contents), q)
    {
      PutRecord(key, value, PutInsert);
      forall q { PutThenFind(old(contents), key, value, PutInsert, q); }
    }

    method Replace(key: string, value: Record)
      modifies this`contents
      ensures making ==> forall q :: Values(contents, q) == if q == key then [value] else Values(old(contents), q)
      ensures contents == if making then Put(old(contents), key, value, PutReplace) else old(contents)
    {
      PutRecord(key, value, PutReplace);
      forall q
        ensures Values(Put(old(contents), key, value, PutReplace), q) ==
          if q == key then [value] else Values(old(contents), q)
      {
        PutThenFind(old(contents), key, value, PutReplace, q);
      }
    }

    method Close()
      modifies this`making, this`fd
      ensures !making && fd <= 0 && (old(fd) <= 0 ==> fd == old(fd))
    {
      making := false;
      if fd > 0 {
        fd := 0;
      }
    }
  }

  // ---------------------------------------------------------------- the reader object

  /** What the path of a database leads to. */
  datatype DatabaseFile = Missing | Unopenable | Garbage | Stored(db: Database)

  class CDBReader {
    /** Whether the file is open; the database itself may still be unusable. */
    var readable: bool
    var cdb: Option<Database>

    /** What lookups see. */
    function Contents(): Database
      reads this
    {
      if cdb.Some? then cdb.value else []
    }

    constructor (file: DatabaseFile)
      ensures readable == (file.Garbage? || file.Stored?)
      ensures cdb == if file.Stored? then Some(file.db) else None
    {
      readable := false;
      cdb := None;
      new;
      Reopen(file);
    }

    method Close()
      modifies this
      ensures !readable && cdb == None
    {
      cdb, readable := None, false;
    }

    method Reopen(file: DatabaseFile)
      modifies this
      ensures readable == (file.Garbage? || file.Stored?)
      ensures cdb == if file.Stored? then Some(file.db) else None
    {
      Close();
      if file == Missing {
        return;
      }
      readable := file != Unopenable;
      if readable && file.Stored? {
        cdb := Some(file.db);
      }
    }

    method ValuesForKey(key: string) returns (list: seq<Record>)
      ensures list == Values(Contents(), key)
    {
      list := [];
      if cdb == None {
        return;
      }
      var db := cdb.value;
      var i := FindNext(db, key, 0);
      ValuesSkip(db, key, 0, i);
      NothingStored(key);
      assert db[..0] == [];
      hide Values, FindNext;
      while i < |db|
        invariant i <= |db| && (i < |db| ==> db[i].key == key)
        invariant list == Values(db[..i], key)
      {
        list := list + [db[i].value];
        var j := FindNext(db, key, i + 1);
        ValuesStep(db, key, i, j);
        i := j;
      }
      assert db[..i] == db;
    }

    method ValueForKey(key: string) returns (value: Record)
      ensures value == First(Contents(), key)
    {
      var ret := ValuesForKey(key);
      if |ret| == 0 {
        return Nothing;
      }
      return ret[0];
    }
  }

  function First(db: Database, key: string): Record {
    if Values(db, key) == [] then Nothing else Values(db, key)[0]
  }
}
