/**
  `SchemasService`: a cache of the JSON schemas found in the workspace's
  `schemas` directory, keyed by a name derived from the file name. The cache
  is a JavaScript `Map`, so it keeps its keys in first-insertion order and
  `set` on a present key replaces the value in place.

  The file system is given as the directory listing (or the error `readdir`
  fails with) and a reader from file name to contents (or the error
  `readFile` fails with); `JSON.parse` is an oracle.
 */
module Schemas {
  import opened Wrappers
  import opened Strings
  import opened Json
  import opened ExecutorErrors

  /** `SchemaMetadata`: `description` is None when it is `undefined`. */
  datatype SchemaMetadata = SchemaMetadata(name: string, description: Option<Json>, schema: Json)

  /** `SchemaInfoDto`. */
  datatype SchemaInfo = SchemaInfo(name: string, path: string, description: Option<Json>)

  /** `fs.readFile` of a file of the schemas directory, by file name. */
  type FileReader = string -> Result<string, string>

  const SchemaSuffix: string := "-schema.json"
  const JsonSuffix: string := ".json"
  /** `SchemaSuffix` without its ".json". */
  const SchemaStem: string := "-schema"

  /** The cache name of a file: the first "-schema.json" removed, then the first ".json" removed. */
  function DeriveName(file: string): string {
    ReplaceFirst(ReplaceFirst(file, SchemaSuffix, ""), JsonSuffix, "")
  }

  /** `files.filter((f) => f.endsWith('.json'))`. */
  function JsonFiles(files: seq<string>): (r: seq<string>)
    ensures forall f :: f in r <==> f in files && EndsWith(f, JsonSuffix)
    ensures |r| <= |files|
  {
    if files == [] then []
    else (if EndsWith(files[0], JsonSuffix) then [files[0]] else []) + JsonFiles(files[1..])
  }

  /** The TypeError `schema.description` raises when a file holds `null`. */
  const NullSchemaMessage: string := "Cannot read properties of null (reading 'description')"

  /** One file read, parsed and described, or the error that interrupts the loop. */
  function ReadEntry(file: string, readFile: FileReader, parse: Parser): (r: Result<SchemaMetadata, string>)
    ensures r.Success? ==> r.value.name == DeriveName(file)
    ensures r.Success? ==> readFile(file).Success? && parse(readFile(file).value) == Success(r.value.schema)
    ensures r.Success? ==> !r.value.schema.JNull?
  {
    match readFile(file)
    case Failure(e) => Failure(e)
    case Success(content) =>
      match parse(content)
      case Failure(e) => Failure(e)
      case Success(schema) =>
        if schema.JNull? then Failure(NullSchemaMessage)
        else
          var description := if TruthyOpt(Prop(schema, "description")) then Prop(schema, "description") else Prop(schema, "title");
          Success(SchemaMetadata(DeriveName(file), description, schema))
  }

  /** A schema's description is its truthy `description`, else its `title` (which may itself be absent). */
  lemma DescriptionFallsBackToTitle(file: string, readFile: FileReader, parse: Parser)
    requires ReadEntry(file, readFile, parse).Success?
    ensures var m := ReadEntry(file, readFile, parse).value;
      && (TruthyOpt(Prop(m.schema, "description")) ==> m.description == Prop(m.schema, "description"))
      && (!TruthyOpt(Prop(m.schema, "description")) ==> m.description == Prop(m.schema, "title"))
  {
  }

  /** The contents of the cache: its keys in insertion order and its entries. */
  datatype Cache = Cache(names: seq<string>, entries: map<string, SchemaMetadata>)

  /** The keys are distinct, they are exactly the entries' keys, and every entry is filed under its own name. */
  ghost predicate CacheValid(c: Cache) {
    && (forall i, j :: 0 <= i < j < |c.names| ==> c.names[i] != c.names[j])
    && (forall k :: k in c.entries <==> k in c.names)
    && (forall k :: k in c.entries ==> c.entries[k].name == k)
  }

  /** `Map.set(name, meta)`: the value is replaced, and a new key goes last. */
  function Put(c: Cache, name: string, meta: SchemaMetadata): (r: Cache)
    requires CacheValid(c) && meta.name == name
    ensures CacheValid(r)
    ensures r.entries == c.entries[name := meta]
    ensures name in c.entries ==> r.names == c.names
    ensures name !in c.entries ==> r.names == c.names + [name]
  {
    if name in c.entries then Cache(c.names, c.entries[name := meta])
    else Cache(c.names + [name], c.entries[name := meta])
  }

  /** The loop of `loadSchemas` over `files`: each file in turn is put into the cache, until one fails. */
  function LoadFiles(c: Cache, files: seq<string>, readFile: FileReader, parse: Parser): (r: Cache)
    requires CacheValid(c)
    ensures CacheValid(r)
    decreases |files|
  {
    if files == [] then c
    else
      match ReadEntry(files[0], readFile, parse)
      case Failure(_) => c
      case Success(meta) => LoadFiles(Put(c, meta.name, meta), files[1..], readFile, parse)
  }

  /** Loading never removes a key or reorders the keys already there. */
  lemma {:induction false} LoadFilesKeeps(c: Cache, files: seq<string>, readFile: FileReader, parse: Parser)
    requires CacheValid(c)
    ensures var r := LoadFiles(c, files, readFile, parse);
      |c.names| <= |r.names| && r.names[..|c.names|] == c.names
    decreases |files|
  {
    if files != [] {
      match ReadEntry(files[0], readFile, parse)
      case Failure(_) =>
      case Success(meta) =>
        var c' := Put(c, meta.name, meta);
        LoadFilesKeeps(c', files[1..], readFile, parse);
        var r := LoadFiles(c', files[1..], readFile, parse);
        assert r.names[..|c.names|] == r.names[..|c'.names|][..|c.names|];
    }
  }

  /** Every key a load adds is the derived name of one of its files. */
  lemma {:induction false} LoadedNamesComeFromFiles(c: Cache, files: seq<string>, readFile: FileReader, parse: Parser)
    requires CacheValid(c)
    ensures forall k :: k in LoadFiles(c, files, readFile, parse).entries ==>
      k in c.entries || exists f :: f in files && DeriveName(f) == k
    decreases |files|
  {
    if files != [] {
      match ReadEntry(files[0], readFile, parse)
      case Failure(_) =>
      case Success(meta) =>
        var c' := Put(c, meta.name, meta);
        LoadedNamesComeFromFiles(c', files[1..], readFile, parse);
        forall k | k in LoadFiles(c, files, readFile, parse).entries
          ensures k in c.entries || exists f :: f in files && DeriveName(f) == k
        {
          if k !in c.entries && k == meta.name {
            assert files[0] in files && DeriveName(files[0]) == k;
          } else if k !in c.entries {
            assert k !in c'.entries;
            var f :| f in files[1..] && DeriveName(f) == k;
            assert f in files;
          }
        }
    }
  }

  /**
    A file that fails interrupts the load: the result is what the files
    before it produced, and no later file is read.
   */
  lemma {:induction false} LoadStopsAtFailure(c: Cache, files: seq<string>, k: nat, readFile: FileReader, parse: Parser)
    requires CacheValid(c)
    requires k < |files| && ReadEntry(files[k], readFile, parse).Failure?
    ensures LoadFiles(c, files, readFile, parse) == LoadFiles(c, files[..k], readFile, parse)
    decreases k
  {
    if k > 0 {
      match ReadEntry(files[0], readFile, parse)
      case Failure(_) =>
      case Success(meta) =>
        var c' := Put(c, meta.name, meta);
        assert files[1..][k - 1] == files[k];
        LoadStopsAtFailure(c', files[1..], k - 1, readFile, parse);
        assert files[..k][1..] == files[1..][..k - 1];
    }
  }

  /** A load that reads every file: one more file puts one more entry. */
  lemma {:induction false} LoadFilesSnoc(c: Cache, files: seq<string>, f: string, readFile: FileReader, parse: Parser)
    requires CacheValid(c)
    requires forall g :: g in files ==> ReadEntry(g, readFile, parse).Success?
    requires ReadEntry(f, readFile, parse).Success?
    ensures var m := ReadEntry(f, readFile, parse).value;
      LoadFiles(c, files + [f], readFile, parse) == Put(LoadFiles(c, files, readFile, parse), m.name, m)
    decreases |files|
  {
    if files == [] {
      assert [f][1..] == [];
    } else {
      var meta := ReadEntry(files[0], readFile, parse).value;
      assert (files + [f])[0] == files[0];
      assert (files + [f])[1..] == files[1..] + [f];
      LoadFilesSnoc(Put(c, meta.name, meta), files[1..], f, readFile, parse);
    }
  }

  /** Every file of a prefix reads when every file reads. */
  lemma PrefixReads(files: seq<string>, n: nat, readFile: FileReader, parse: Parser)
    requires forall g :: g in files ==> ReadEntry(g, readFile, parse).Success?
    requires n <= |files|
    ensures forall g :: g in files[..n] ==> ReadEntry(g, readFile, parse).Success?
  {
    forall g | g in files[..n] ensures ReadEntry(g, readFile, parse).Success? {
      assert g in files;
    }
  }

  /**
    Last writer wins: when every file reads, the entry under a file's name is
    that file's schema, unless a later file derives the same name.
   */
  lemma LastWriterWins(c: Cache, files: seq<string>, i: nat, readFile: FileReader, parse: Parser)
    requires CacheValid(c)
    requires forall g :: g in files ==> ReadEntry(g, readFile, parse).Success?
    requires i < |files|
    requires forall j :: i < j < |files| ==> DeriveName(files[j]) != DeriveName(files[i])
    ensures var r := LoadFiles(c, files, readFile, parse);
      DeriveName(files[i]) in r.entries && r.entries[DeriveName(files[i])] == ReadEntry(files[i], readFile, parse).value
  {
    LastWriterFrom(c, files, i, |files|, readFile, parse);
    assert files[..|files|] == files;
  }

  lemma {:induction false} LastWriterFrom(c: Cache, files: seq<string>, i: nat, n: nat, readFile: FileReader, parse: Parser)
    requires CacheValid(c)
    requires forall g :: g in files ==> ReadEntry(g, readFile, parse).Success?
    requires i < n <= |files|
    requires forall j :: i < j < n ==> DeriveName(files[j]) != DeriveName(files[i])
    ensures var r := LoadFiles(c, files[..n], readFile, parse);
      DeriveName(files[i]) in r.entries && r.entries[DeriveName(files[i])] == ReadEntry(files[i], readFile, parse).value
    decreases n
  {
    var prefix, last := files[..n - 1], files[n - 1];
    assert files[..n] == prefix + [last];
    PrefixReads(files, n - 1, readFile, parse);
    var m := ReadEntry(last, readFile, parse).value;
    var r0 := LoadFiles(c, prefix, readFile, parse);
    assert LoadFiles(c, files[..n], readFile, parse).entries == r0.entries[m.name := m] by {
      LoadFilesSnoc(c, prefix, last, readFile, parse);
    }
    var key := DeriveName(files[i]);
    if i < n - 1 {
      assert key in r0.entries && r0.entries[key] == ReadEntry(files[i], readFile, parse).value by {
        LastWriterFrom(c, files, i, n - 1, readFile, parse);
      }
      assert m.name != key by {
        assert m.name == DeriveName(files[n - 1]);
      }
    } else {
      assert key == m.name && ReadEntry(files[i], readFile, parse).value == m;
    }
  }

  /** A name without dots is the name of its "-schema.json" file. */
  lemma DeriveNameOfSchemaFile(n: string)
    requires forall i :: 0 <= i < |n| ==> n[i] != '.'
    ensures DeriveName(n + SchemaSuffix) == n
  {
    FirstOccurrenceAtEnd(n, SchemaSuffix, 7);
    var s := n + SchemaSuffix;
    assert ReplaceFirst(s, SchemaSuffix, "") == n by {
      assert s[..|n|] == n;
      assert s[|n| + |SchemaSuffix|..] == [];
    }
    assert IndexOf(n, JsonSuffix, 0).None? by {
      forall j: nat | j + |JsonSuffix| <= |n| ensures !OccursAt(n, JsonSuffix, j) {
        assert n[j..j + |JsonSuffix|][0] == n[j];
      }
    }
  }

  /** `pat` holds one '.', at `d`; after a text without dots its first occurrence is the appended one. */
  lemma FirstOccurrenceAtEnd(n: string, pat: string, d: nat)
    requires forall i :: 0 <= i < |n| ==> n[i] != '.'
    requires d < |pat| && pat[d] == '.'
    requires forall e :: 0 <= e < |pat| && e != d ==> pat[e] != '.'
    ensures IndexOf(n + pat, pat, 0) == Some(|n|)
  {
    var s := n + pat;
    assert OccursAt(s, pat, |n|) by {
      assert s[|n|..|n| + |pat|] == pat;
    }
    forall j: nat | j < |n| && j + |pat| <= |s| ensures !OccursAt(s, pat, j) {
      assert s[j..j + |pat|][d] == s[j + d];
      if j + d < |n| {
        assert s[j + d] == n[j + d];
      } else {
        assert s[j + d] == pat[j + d - |n|];
      }
    }
  }

  /** "n.json" and "n-schema.json" derive the same name, for a name `n` without dots that does not end in "-schema". */
  lemma SuffixesCollide(n: string)
    requires forall i :: 0 <= i < |n| ==> n[i] != '.'
    requires !EndsWith(n, SchemaStem)
    ensures DeriveName(n + JsonSuffix) == n && DeriveName(n + SchemaSuffix) == n
  {
    DeriveNameOfSchemaFile(n);
    PlainJsonName(n);
  }

  /** A name without dots that does not end in "-schema" is the name of its ".json" file. */
  lemma PlainJsonName(n: string)
    requires forall i :: 0 <= i < |n| ==> n[i] != '.'
    requires !EndsWith(n, SchemaStem)
    ensures DeriveName(n + JsonSuffix) == n
  {
    var s := n + JsonSuffix;
    assert IndexOf(s, SchemaSuffix, 0).None? by {
      forall j: nat | j + |SchemaSuffix| <= |s| ensures !OccursAt(s, SchemaSuffix, j) {
        if OccursAt(s, SchemaSuffix, j) {
          SchemaSuffixOnlyAfterStem(n, j);
        }
      }
    }
    FirstOccurrenceAtEnd(n, JsonSuffix, 0);
    assert s[..|n|] == n;
    assert s[|n| + |JsonSuffix|..] == [];
  }

  /**
    In a dot-free name followed by ".json", "-schema.json" can only sit where its
    '.' meets the one '.' there, so it occurs only if the name ends in "-schema".
   */
  lemma SchemaSuffixOnlyAfterStem(n: string, j: nat)
    requires forall i :: 0 <= i < |n| ==> n[i] != '.'
    requires OccursAt(n + JsonSuffix, SchemaSuffix, j)
    ensures EndsWith(n, SchemaStem)
  {
    var s := n + JsonSuffix;
    assert SchemaSuffix[7] == '.' && SchemaSuffix[..7] == SchemaStem;
    assert s[j + 7] == '.' by {
      assert s[j..j + |SchemaSuffix|][7] == s[j + 7];
    }
    assert j + 7 == |n|;
    assert n[|n| - 7..] == s[j..j + 7] == s[j..j + |SchemaSuffix|][..7];
  }

  /**
    Two files whose names collide leave one entry: the later file's schema,
    under the key the earlier file created.
   */
  lemma CollisionKeepsLater(n: string, readFile: FileReader, parse: Parser)
    requires forall i :: 0 <= i < |n| ==> n[i] != '.'
    requires !EndsWith(n, SchemaStem)
    requires ReadEntry(n + JsonSuffix, readFile, parse).Success? && ReadEntry(n + SchemaSuffix, readFile, parse).Success?
    ensures var r := LoadFiles(Cache([], map[]), [n + JsonSuffix, n + SchemaSuffix], readFile, parse);
      r.names == [n] && r.entries == map[n := ReadEntry(n + SchemaSuffix, readFile, parse).value]
  {
    SuffixesCollide(n);
    var files := [n + JsonSuffix, n + SchemaSuffix];
    var m1, m2 := ReadEntry(files[0], readFile, parse).value, ReadEntry(files[1], readFile, parse).value;
    var c1 := Put(Cache([], map[]), n, m1);
    var c2 := Put(c1, n, m2);
    assert files[1..] == [n + SchemaSuffix] && files[1..][1..] == [];
    assert LoadFiles(Cache([], map[]), files, readFile, parse) == LoadFiles(c1, files[1..], readFile, parse);
    assert LoadFiles(c1, files[1..], readFile, parse) == LoadFiles(c2, [], readFile, parse);
    assert c2.entries == map[n := m2];
  }

  /** The path `listSchemas` reports for a cached name. */
  function ListedPath(name: string): string {
    "schemas/" + name + SchemaSuffix
  }

  /** For a name without dots the listed path names the file the schema is loaded from. */
  lemma ListedPathRoundTrip(name: string)
    requires forall i :: 0 <= i < |name| ==> name[i] != '.'
    ensures ListedPath(name) == "schemas/" + name + SchemaSuffix
    ensures DeriveName(ListedPath(name)[|"schemas/"|..]) == name
  {
    assert ListedPath(name)[|"schemas/"|..] == name + SchemaSuffix;
    DeriveNameOfSchemaFile(name);
  }

  const NotFoundPrefix: string := "Schema not found: "

  /** The service and its `schemasCache`: `names` is the map's key order, `entries` its contents. */
  class SchemasService {
    var names: seq<string>
    var entries: map<string, SchemaMetadata>

    function State(): Cache
      reads this
    {
      Cache(names, entries)
    }

    ghost predicate Valid()
      reads this
    {
      CacheValid(State())
    }

    constructor()
      ensures State() == Cache([], map[]) && Valid()
    {
      names := [];
      entries := map[];
    }

    /**
      `loadSchemas`: every ".json" file of the listing is read, parsed and put
      under its derived name. An error (the listing's or any file's) is caught
      and logged: the load stops there and keeps what it has put so far.
     */
    method LoadSchemas(listing: Result<seq<string>, string>, readFile: FileReader, parse: Parser)
      requires Valid()
      modifies this
      ensures Valid()
      ensures listing.Failure? ==> State() == old(State())
      ensures listing.Success? ==> State() == LoadFiles(old(State()), JsonFiles(listing.value), readFile, parse)
    {
      if listing.Failure? {
        return;
      }
      var jsonFiles := JsonFiles(listing.value);
      var i := 0;
      while i < |jsonFiles|
        invariant 0 <= i <= |jsonFiles|
        invariant Valid()
        invariant LoadFiles(old(State()), jsonFiles, readFile, parse) == LoadFiles(State(), jsonFiles[i..], readFile, parse)
      {
        assert jsonFiles[i..][0] == jsonFiles[i] && jsonFiles[i..][1..] == jsonFiles[i + 1..];
        var entry := ReadEntry(jsonFiles[i], readFile, parse);
        if entry.Failure? {
          break;
        }
        var name := entry.value.name;
        if name !in entries {
          names := names + [name];
        }
        entries := entries[name := entry.value];
        i := i + 1;
      }
    }

    /** `getSchema`: the cached schema, or `SCHEMA_NOT_FOUND` naming the schema. */
    function GetSchema(name: string): (r: Result<Json, ExecutorException>)
      reads this
      ensures r.Success? <==> name in entries
      ensures r.Success? ==> r.value == entries[name].schema
      ensures r.Failure? ==> r.error == Exception(SchemaNotFound, NotFoundPrefix + name) && r.error.Status() == 404
    {
      if name in entries then Success(entries[name].schema)
      else Failure(Exception(SchemaNotFound, NotFoundPrefix + name))
    }

    /** `listSchemas`: one entry per cached name, in the map's order. */
    function ListSchemas(): (r: seq<SchemaInfo>)
      requires Valid()
      reads this
      ensures |r| == |names|
      ensures forall i :: 0 <= i < |r| ==>
        r[i].name == names[i] && r[i].path == ListedPath(names[i]) && r[i].description == entries[names[i]].description
    {
      seq(|names|, i requires 0 <= i < |names| && names[i] in entries reads this =>
        SchemaInfo(names[i], ListedPath(names[i]), entries[names[i]].description))
    }

    /** `reloadSchemas`: the cache is cleared, then loaded again. */
    method ReloadSchemas(listing: Result<seq<string>, string>, readFile: FileReader, parse: Parser)
      requires Valid()
      modifies this
      ensures Valid()
      ensures listing.Failure? ==> State() == Cache([], map[])
      ensures listing.Success? ==> State() == LoadFiles(Cache([], map[]), JsonFiles(listing.value), readFile, parse)
    {
      names := [];
      entries := map[];
      LoadSchemas(listing, readFile, parse);
    }
  }

  /** After a reload every cached name belongs to a ".json" file of the new listing: names whose files vanished are gone. */
  lemma ReloadForgetsVanished(files: seq<string>, readFile: FileReader, parse: Parser, k: string)
    requires k in LoadFiles(Cache([], map[]), JsonFiles(files), readFile, parse).entries
    ensures exists f :: f in files && EndsWith(f, JsonSuffix) && DeriveName(f) == k
  {
    LoadedNamesComeFromFiles(Cache([], map[]), JsonFiles(files), readFile, parse);
  }
}
