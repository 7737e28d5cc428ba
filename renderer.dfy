/**
 * Loader planning and rendering: which structs get a loader, with which
 * cache policy, which files are emitted, under which names, with which
 * primary key and which extra imports.
 *
 * Template execution and source formatting are not modelled: a file
 * carries the template data it would be rendered from.
 */
module Renderer {
  import opened Opts
  import opened Model

  /** A struct planned for a loader (renderer.LoaderStruct). */
  datatype LoaderStruct = LoaderStruct(structure: Struct, loaderName: string, cache: Cache)

  /** The cache policy of a struct without a matching cache entry. */
  const DefaultCache := Cache("", "", "no-cache", "", 0)

  /** A request made to the import builder. */
  datatype ImportRequest = SqlDriver | WithoutAlias(path: string) | WithAlias(path: string, alias: string)

  /**
   * The helpers the renderer calls but this model does not define:
   * `strcase.ToSnake`, and a field type's `TypeWithPackage()` and `Import()`
   * applied to the field's type name.
   */
  datatype Collaborators = Collaborators(
    toSnake: string -> string,
    typeWithPackage: string -> string,
    typeImport: string -> ImportRequest)

  /** The requests Render adds for every loader file. */
  const LoaderImports := [SqlDriver, WithoutAlias("context"), WithoutAlias("github.com/graph-gophers/dataloader/v7")]

  /** The requests an LRU-cached loader adds. */
  const LruImports := [WithAlias("github.com/debugger84/sqlc-dataloader/cache", "loaderCache"), WithoutAlias("time")]

  datatype DataLoaderTplData = DataLoaderTplData(
    loader: LoaderStruct,
    package: string,
    primaryKeyColumnName: string,
    primaryKeyFieldType: string,
    primaryKeyFieldName: string,
    imports: seq<ImportRequest>)

  datatype LoaderFactoryTplData = LoaderFactoryTplData(
    structs: seq<LoaderStruct>,
    package: string,
    imports: seq<ImportRequest>,
    modelPackage: string)

  datatype Template = DataLoaderTemplate(loaderData: DataLoaderTplData) | LoaderFactoryTemplate(factoryData: LoaderFactoryTplData)

  /** An output file: its name and the template data its contents are rendered from. */
  datatype File = File(name: string, template: Template)

  // ---------------------------------------------------------------------
  // Loader planning
  // ---------------------------------------------------------------------

  /** A cache entry applies to a struct: same table, and type "lru" or "memory". */
  predicate CacheApplies(c: Cache, s: Struct) {
    c.table == s.fullTableName && (c.typ == "lru" || c.typ == "memory")
  }

  /** The first applicable cache entry, or the no-cache default. */
  function CacheFor(s: Struct, caches: seq<Cache>): Cache {
    if caches == [] then DefaultCache
    else if CacheApplies(caches[0], s) then caches[0]
    else CacheFor(s, caches[1..])
  }

  /** The cache policy is the first applicable entry in configuration order. */
  lemma {:induction false} CacheForFirstMatch(s: Struct, caches: seq<Cache>, i: nat)
    requires i < |caches| && CacheApplies(caches[i], s)
    requires forall j :: 0 <= j < i ==> !CacheApplies(caches[j], s)
    ensures CacheFor(s, caches) == caches[i]
  {
    if i > 0 {
      forall j | 0 <= j < i - 1 ensures !CacheApplies(caches[1..][j], s) {
        assert caches[1..][j] == caches[j + 1];
      }
      assert caches[1..][i - 1] == caches[i];
      CacheForFirstMatch(s, caches[1..], i - 1);
    }
  }

  /** Without an applicable entry (wrong table, or a type other than "lru"/"memory"), the policy is "no-cache". */
  lemma {:induction false} CacheForDefault(s: Struct, caches: seq<Cache>)
    requires forall j :: 0 <= j < |caches| ==> !CacheApplies(caches[j], s)
    ensures CacheFor(s, caches) == DefaultCache
  {
    if caches != [] {
      forall j | 0 <= j < |caches[1..]| ensures !CacheApplies(caches[1..][j], s) {
        assert caches[1..][j] == caches[j + 1];
      }
      CacheForDefault(s, caches[1..]);
    }
  }

  /** The loader entry of a struct that is not excluded. */
  function LoaderEntry(s: Struct, caches: seq<Cache>): LoaderStruct {
    LoaderStruct(s, s.typeName + "Loader", CacheFor(s, caches))
  }

  /** The loader entries of the structs that are not excluded, in input order. */
  function LoaderEntries(structs: seq<Struct>, caches: seq<Cache>, excludeTables: seq<string>): seq<LoaderStruct> {
    if structs == [] then []
    else
      var s := structs[|structs| - 1];
      LoaderEntries(structs[..|structs| - 1], caches, excludeTables)
        + (if s.fullTableName in excludeTables then [] else [LoaderEntry(s, caches)])
  }

  lemma LoaderEntriesStep(structs: seq<Struct>, i: nat, caches: seq<Cache>, excludeTables: seq<string>)
    requires i < |structs|
    ensures LoaderEntries(structs[..i + 1], caches, excludeTables)
         == LoaderEntries(structs[..i], caches, excludeTables)
          + (if structs[i].fullTableName in excludeTables then [] else [LoaderEntry(structs[i], caches)])
  {
    assert structs[..i + 1][..i] == structs[..i];
  }

  /** There are never more loader entries than structs. */
  lemma {:induction false} LoaderEntriesBound(structs: seq<Struct>, caches: seq<Cache>, excludeTables: seq<string>)
    ensures |LoaderEntries(structs, caches, excludeTables)| <= |structs|
  {
    if structs != [] {
      LoaderEntriesBound(structs[..|structs| - 1], caches, excludeTables);
    }
  }

  /**
   * Every entry is the entry of an input struct whose table is not
   * excluded: named `<TypeName>Loader`, with the first applicable cache.
   */
  lemma {:induction false} LoaderEntriesSound(structs: seq<Struct>, caches: seq<Cache>, excludeTables: seq<string>)
    ensures forall e :: e in LoaderEntries(structs, caches, excludeTables) ==>
      && e.structure in structs
      && e.structure.fullTableName !in excludeTables
      && e == LoaderEntry(e.structure, caches)
  {
    if structs != [] {
      var init := structs[..|structs| - 1];
      LoaderEntriesSound(init, caches, excludeTables);
      assert forall s :: s in init ==> s in structs;
    }
  }

  /** Every input struct whose table is not excluded has its entry. */
  lemma {:induction false} LoaderEntriesComplete(structs: seq<Struct>, caches: seq<Cache>, excludeTables: seq<string>)
    ensures forall s :: s in structs && s.fullTableName !in excludeTables ==>
      LoaderEntry(s, caches) in LoaderEntries(structs, caches, excludeTables)
  {
    if structs != [] {
      var init := structs[..|structs| - 1];
      LoaderEntriesComplete(init, caches, excludeTables);
      assert structs == init + [structs[|structs| - 1]];
    }
  }

  /** Planning concatenated struct lists concatenates their plans: input order is kept. */
  lemma {:induction false} LoaderEntriesAppend(a: seq<Struct>, b: seq<Struct>, caches: seq<Cache>, excludeTables: seq<string>)
    ensures LoaderEntries(a + b, caches, excludeTables) == LoaderEntries(a, caches, excludeTables) + LoaderEntries(b, caches, excludeTables)
  {
    if b == [] {
      assert a + b == a;
    } else {
      assert (a + b)[..|a + b| - 1] == a + b[..|b| - 1];
      LoaderEntriesAppend(a, b[..|b| - 1], caches, excludeTables);
    }
  }

  /** With nothing excluded, there is exactly one entry per struct, in input order. */
  lemma {:induction false} LoaderEntriesNoneExcluded(structs: seq<Struct>, caches: seq<Cache>, excludeTables: seq<string>)
    requires forall i :: 0 <= i < |structs| ==> structs[i].fullTableName !in excludeTables
    ensures |LoaderEntries(structs, caches, excludeTables)| == |structs|
    ensures forall i :: 0 <= i < |structs| ==> LoaderEntries(structs, caches, excludeTables)[i] == LoaderEntry(structs[i], caches)
  {
    if structs != [] {
      LoaderEntriesNoneExcluded(structs[..|structs| - 1], caches, excludeTables);
    }
  }

  /** The cache loop of NewDataLoaderRenderer: the first applicable entry, else the default. */
  method FindCache(s: Struct, caches: seq<Cache>) returns (structCache: Cache)
    ensures structCache == CacheFor(s, caches)
  {
    structCache := DefaultCache;
    var k := 0;
    while k < |caches|
      invariant 0 <= k <= |caches|
      invariant CacheFor(s, caches[k..]) == CacheFor(s, caches)
      invariant structCache == DefaultCache
    {
      if caches[k].table == s.fullTableName && (caches[k].typ == "lru" || caches[k].typ == "memory") {
        structCache := caches[k];
        break;
      }
      assert caches[k..][1..] == caches[k + 1..];
      k := k + 1;
    }
  }

  /** The exclusion loop of NewDataLoaderRenderer. */
  method IsExcluded(s: Struct, excludeTables: seq<string>) returns (skip: bool)
    ensures skip <==> s.fullTableName in excludeTables
  {
    skip := false;
    var k := 0;
    while k < |excludeTables|
      invariant 0 <= k <= |excludeTables|
      invariant !skip && s.fullTableName !in excludeTables[..k]
    {
      if excludeTables[k] == s.fullTableName {
        skip := true;
        break;
      }
      assert excludeTables[..k + 1] == excludeTables[..k] + [excludeTables[k]];
      k := k + 1;
    }
    assert !skip ==> excludeTables[..k] == excludeTables;
  }

  // ---------------------------------------------------------------------
  // Rendering
  // ---------------------------------------------------------------------

  /** The first field flagged as primary key, or the zero field when there is none. */
  function PrimaryKeyOf(fields: seq<Field>): Field {
    if fields == [] then ZeroField
    else if fields[0].IsPrimaryKey() then fields[0]
    else PrimaryKeyOf(fields[1..])
  }

  /** The primary key is the first field flagged as such. */
  lemma {:induction false} PrimaryKeyIsFirstFlagged(fields: seq<Field>, i: nat)
    requires i < |fields| && fields[i].isPrimaryKey
    requires forall j :: 0 <= j < i ==> !fields[j].isPrimaryKey
    ensures PrimaryKeyOf(fields) == fields[i]
  {
    if i > 0 {
      forall j | 0 <= j < i - 1 ensures !fields[1..][j].isPrimaryKey {
        assert fields[1..][j] == fields[j + 1];
      }
      assert fields[1..][i - 1] == fields[i];
      PrimaryKeyIsFirstFlagged(fields[1..], i - 1);
    }
  }

  /** Without a flagged field, the primary key is the zero field. */
  lemma {:induction false} PrimaryKeyAbsent(fields: seq<Field>)
    requires forall j :: 0 <= j < |fields| ==> !fields[j].isPrimaryKey
    ensures PrimaryKeyOf(fields) == ZeroField
  {
    if fields != [] {
      forall j | 0 <= j < |fields[1..]| ensures !fields[1..][j].isPrimaryKey {
        assert fields[1..][j] == fields[j + 1];
      }
      PrimaryKeyAbsent(fields[1..]);
    }
  }

  /** The loader file's name. */
  function LoaderFileName(loaderPackage: string, s: Struct, env: Collaborators): string {
    if loaderPackage != s.packageName then loaderPackage + "/" + env.toSnake(s.typeName) + ".go"
    else env.toSnake(s.typeName) + "_loader.go"
  }

  /** The factory file's name. */
  function FactoryFileName(loaderPackage: string, modelPackage: string): string {
    if loaderPackage != modelPackage then loaderPackage + "/loader_factory.go" else "loader_factory.go"
  }

  /** The requests a loader file makes before its primary key's: an LRU cache adds the cache package and "time". */
  function DataLoaderImports(s: LoaderStruct, importer: seq<ImportRequest>): seq<ImportRequest> {
    if s.cache.typ == "lru" then importer + LruImports else importer
  }

  /** The file renderDataLoader produces for one loader. */
  function DataLoaderFile(s: LoaderStruct, loaderPackage: string, importer: seq<ImportRequest>, env: Collaborators): File {
    var pk := PrimaryKeyOf(s.structure.fields);
    File(LoaderFileName(loaderPackage, s.structure, env),
         DataLoaderTemplate(DataLoaderTplData(s, loaderPackage, pk.DBName(), env.typeWithPackage(pk.Type()), pk.Name(),
                                               DataLoaderImports(s, importer) + [env.typeImport(pk.Type())])))
  }

  /** The file renderLoaderFactory produces; its model package is that of the first loader's struct. */
  function FactoryFile(structs: seq<LoaderStruct>, loaderPackage: string, importer: seq<ImportRequest>): File
    requires structs != []
  {
    var modelPackage := structs[0].structure.packageName;
    File(FactoryFileName(loaderPackage, modelPackage),
         LoaderFactoryTemplate(LoaderFactoryTplData(structs, loaderPackage, importer, modelPackage)))
  }

  /** One loader file per entry whose struct has a primary key, in entry order. */
  function LoaderFiles(structs: seq<LoaderStruct>, loaderPackage: string, importer: seq<ImportRequest>, env: Collaborators): seq<File> {
    if structs == [] then []
    else
      var s := structs[|structs| - 1];
      LoaderFiles(structs[..|structs| - 1], loaderPackage, importer, env)
        + (if s.structure.hasPrimaryKey then [DataLoaderFile(s, loaderPackage, importer, env)] else [])
  }

  /** All files Render emits: none without entries, else the loader files followed by the factory file. */
  function RenderedFiles(structs: seq<LoaderStruct>, loaderPackage: string, importer: seq<ImportRequest>, env: Collaborators): seq<File> {
    if structs == [] then []
    else LoaderFiles(structs, loaderPackage, importer + LoaderImports, env) + [FactoryFile(structs, loaderPackage, importer)]
  }

  /** The number of entries whose struct has a primary key. */
  function CountWithPrimaryKey(structs: seq<LoaderStruct>): nat {
    if structs == [] then 0
    else CountWithPrimaryKey(structs[..|structs| - 1]) + (if structs[|structs| - 1].structure.hasPrimaryKey then 1 else 0)
  }

  lemma LoaderFilesStep(structs: seq<LoaderStruct>, i: nat, loaderPackage: string, importer: seq<ImportRequest>, env: Collaborators)
    requires i < |structs|
    ensures LoaderFiles(structs[..i + 1], loaderPackage, importer, env)
         == LoaderFiles(structs[..i], loaderPackage, importer, env)
          + (if structs[i].structure.hasPrimaryKey then [DataLoaderFile(structs[i], loaderPackage, importer, env)] else [])
  {
    assert structs[..i + 1][..i] == structs[..i];
  }

  lemma {:induction false} LoaderFilesCount(structs: seq<LoaderStruct>, loaderPackage: string, importer: seq<ImportRequest>, env: Collaborators)
    ensures |LoaderFiles(structs, loaderPackage, importer, env)| == CountWithPrimaryKey(structs)
    ensures CountWithPrimaryKey(structs) <= |structs|
  {
    if structs != [] {
      LoaderFilesCount(structs[..|structs| - 1], loaderPackage, importer, env);
    }
  }

  /** Each loader file is the file of an entry whose struct has a primary key. */
  lemma {:induction false} LoaderFilesSound(structs: seq<LoaderStruct>, loaderPackage: string, importer: seq<ImportRequest>, env: Collaborators)
    ensures forall f :: f in LoaderFiles(structs, loaderPackage, importer, env) ==>
      exists s :: s in structs && s.structure.hasPrimaryKey && f == DataLoaderFile(s, loaderPackage, importer, env)
  {
    if structs != [] {
      var init := structs[..|structs| - 1];
      LoaderFilesSound(init, loaderPackage, importer, env);
      assert forall s :: s in init ==> s in structs;
    }
  }

  /** Every entry whose struct has a primary key has its loader file. */
  lemma {:induction false} LoaderFilesComplete(structs: seq<LoaderStruct>, loaderPackage: string, importer: seq<ImportRequest>, env: Collaborators)
    ensures forall s :: s in structs && s.structure.hasPrimaryKey ==>
      DataLoaderFile(s, loaderPackage, importer, env) in LoaderFiles(structs, loaderPackage, importer, env)
  {
    if structs != [] {
      var init := structs[..|structs| - 1];
      LoaderFilesComplete(init, loaderPackage, importer, env);
      assert structs == init + [structs[|structs| - 1]];
    }
  }

  /** Rendering concatenated entry lists concatenates their loader files: entry order is kept. */
  lemma {:induction false} LoaderFilesAppend(a: seq<LoaderStruct>, b: seq<LoaderStruct>, loaderPackage: string, importer: seq<ImportRequest>, env: Collaborators)
    ensures LoaderFiles(a + b, loaderPackage, importer, env) == LoaderFiles(a, loaderPackage, importer, env) + LoaderFiles(b, loaderPackage, importer, env)
  {
    if b == [] {
      assert a + b == a;
    } else {
      var init := b[..|b| - 1];
      assert (a + b)[..|a + b| - 1] == a + init;
      assert (a + b)[|a + b| - 1] == b[|b| - 1];
      LoaderFilesAppend(a, init, loaderPackage, importer, env);
    }
  }

  /**
   * The factory file lists every entry in order, takes its model package
   * from the first entry, and lies in the loader package's directory
   * exactly when that differs from the model package.
   */
  lemma FactoryFileShape(structs: seq<LoaderStruct>, loaderPackage: string, importer: seq<ImportRequest>)
    requires structs != []
    ensures var f := FactoryFile(structs, loaderPackage, importer);
      && f.template.LoaderFactoryTemplate?
      && f.template.factoryData.structs == structs
      && f.template.factoryData.modelPackage == structs[0].structure.packageName
      && f.template.factoryData.imports == importer
      && (f.name == "loader_factory.go" <==> loaderPackage == structs[0].structure.packageName)
      && (loaderPackage != structs[0].structure.packageName ==> InDirectory(f.name, loaderPackage))
  {
    PrefixInDirectory(loaderPackage, "loader_factory.go");
    assert |loaderPackage + "/loader_factory.go"| != |"loader_factory.go"|;
  }

  /**
   * Render emits no file without entries; otherwise one file per entry with
   * a primary key, and the factory file last.
   */
  lemma RenderedFilesShape(structs: seq<LoaderStruct>, loaderPackage: string, importer: seq<ImportRequest>, env: Collaborators)
    ensures structs == [] ==> RenderedFiles(structs, loaderPackage, importer, env) == []
    ensures structs != [] ==>
      var files := RenderedFiles(structs, loaderPackage, importer, env);
      && |files| == CountWithPrimaryKey(structs) + 1
      && files[|files| - 1] == FactoryFile(structs, loaderPackage, importer)
      && files[|files| - 1].name == FactoryFileName(loaderPackage, structs[0].structure.packageName)
  {
    LoaderFilesCount(structs, loaderPackage, importer + LoaderImports, env);
  }

  /** The file name lies in directory `dir`: it starts with `dir` followed by a slash. */
  predicate InDirectory(name: string, dir: string) {
    |name| > |dir| && name[..|dir| + 1] == dir + "/"
  }

  lemma PrefixInDirectory(dir: string, rest: string)
    ensures InDirectory(dir + "/" + rest, dir)
  {
    assert (dir + "/" + rest)[..|dir| + 1] == dir + "/";
  }

  /**
   * When no entry's model package is the loader package, every emitted
   * file, loaders and factory alike, is placed under the loader package's
   * directory.
   */
  lemma SeparatePackageFilesInLoaderDirectory(structs: seq<LoaderStruct>, loaderPackage: string, importer: seq<ImportRequest>, env: Collaborators)
    requires forall i :: 0 <= i < |structs| ==> structs[i].structure.packageName != loaderPackage
    ensures forall f :: f in RenderedFiles(structs, loaderPackage, importer, env) ==> InDirectory(f.name, loaderPackage)
  {
    if structs != [] {
      var loaderImporter := importer + LoaderImports;
      LoaderFilesSound(structs, loaderPackage, loaderImporter, env);
      forall f | f in LoaderFiles(structs, loaderPackage, loaderImporter, env)
        ensures InDirectory(f.name, loaderPackage)
      {
        var s :| s in structs && s.structure.hasPrimaryKey && f == DataLoaderFile(s, loaderPackage, loaderImporter, env);
        PrefixInDirectory(loaderPackage, env.toSnake(s.structure.typeName) + ".go");
        assert loaderPackage + "/" + env.toSnake(s.structure.typeName) + ".go" == loaderPackage + "/" + (env.toSnake(s.structure.typeName) + ".go");
      }
      PrefixInDirectory(loaderPackage, "loader_factory.go");
    }
  }

  /**
   * The DataLoaderRenderer: the planned loader entries, the loader package
   * and the import requests the builder starts with.
   */
  class DataLoaderRenderer {
    var structs: seq<LoaderStruct>
    var loaderPackage: string
    var importer: seq<ImportRequest>

    /** NewDataLoaderRenderer: plans one loader entry per struct whose table is not excluded. */
    constructor (structs: seq<Struct>, options: Options, importer: seq<ImportRequest>)
      ensures this.structs == LoaderEntries(structs, options.cache, options.excludeTables)
      ensures loaderPackage == options.package
      ensures this.importer == importer
    {
      var loaderStructs: seq<LoaderStruct> := [];
      for i := 0 to |structs|
        invariant loaderStructs == LoaderEntries(structs[..i], options.cache, options.excludeTables)
      {
        var s := structs[i];
        LoaderEntriesStep(structs, i, options.cache, options.excludeTables);
        var loaderName := s.typeName + "Loader";
        var structCache := FindCache(s, options.cache);
        var skip := IsExcluded(s, options.excludeTables);
        if skip {
          continue;
        }
        loaderStructs := loaderStructs + [LoaderStruct(s, loaderName, structCache)];
      }
      assert structs[..|structs|] == structs;
      this.structs := loaderStructs;
      this.loaderPackage := options.package;
      this.importer := importer;
    }

    /** renderDataLoader: the loader file of one entry. */
    method RenderDataLoader(s: LoaderStruct, importer: seq<ImportRequest>, env: Collaborators) returns (file: File)
      ensures file == DataLoaderFile(s, loaderPackage, importer, env)
    {
      var fields := s.structure.fields;
      var pkField := ZeroField;
      var k := 0;
      while k < |fields|
        invariant 0 <= k <= |fields|
        invariant PrimaryKeyOf(fields[k..]) == PrimaryKeyOf(fields)
        invariant pkField == ZeroField
      {
        if fields[k].IsPrimaryKey() {
          pkField := fields[k];
          break;
        }
        assert fields[k..][1..] == fields[k + 1..];
        k := k + 1;
      }

      var imports := importer;
      if s.cache.typ == "lru" {
        imports := imports + LruImports;
      }

      var tctx := DataLoaderTplData(s, loaderPackage, pkField.DBName(), env.typeWithPackage(pkField.Type()), pkField.Name(),
                                    imports + [env.typeImport(pkField.Type())]);
      var filename := env.toSnake(s.structure.typeName) + "_loader.go";
      if loaderPackage != s.structure.packageName {
        filename := loaderPackage + "/" + env.toSnake(s.structure.typeName) + ".go";
      }
      file := File(filename, DataLoaderTemplate(tctx));
    }

    /** renderLoaderFactory: the factory file; the caller passes at least one entry. */
    method RenderLoaderFactory(structs: seq<LoaderStruct>, importer: seq<ImportRequest>) returns (file: File)
      requires structs != []
      ensures file == FactoryFile(structs, loaderPackage, importer)
    {
      var s := structs[0];
      var tctx := LoaderFactoryTplData(structs, loaderPackage, importer, s.structure.packageName);
      var filename := "loader_factory.go";
      if loaderPackage != s.structure.packageName {
        filename := loaderPackage + "/" + filename;
      }
      file := File(filename, LoaderFactoryTemplate(tctx));
    }

    /** Render: the loader files of the entries with a primary key, then the factory file. */
    method Render(env: Collaborators) returns (files: seq<File>)
      ensures files == RenderedFiles(structs, loaderPackage, importer, env)
    {
      if |structs| == 0 {
        return [];
      }
      files := [];
      var loaderImporter := importer + LoaderImports;
      for i := 0 to |structs|
        invariant files == LoaderFiles(structs[..i], loaderPackage, loaderImporter, env)
      {
        var s := structs[i];
        LoaderFilesStep(structs, i, loaderPackage, loaderImporter, env);
        if !s.structure.hasPrimaryKey {
          continue;
        }
        var file := RenderDataLoader(s, loaderImporter, env);
        files := files + [file];
      }
      assert structs[..|structs|] == structs;
      var factoryImporter := importer;
      var file := RenderLoaderFactory(structs, factoryImporter);
      files := files + [file];
    }
  }

  // ---------------------------------------------------------------------
  // Whole-pipeline consequences for one table
  // ---------------------------------------------------------------------

  /** An excluded table yields no loader entry and no file, whatever cache entries name it. */
  lemma ExcludedTableRendersNothing(s: Struct, options: Options, importer: seq<ImportRequest>, env: Collaborators)
    requires s.fullTableName in options.excludeTables
    ensures LoaderEntries([s], options.cache, options.excludeTables) == []
    ensures RenderedFiles(LoaderEntries([s], options.cache, options.excludeTables), options.package, importer, env) == []
  {
    assert [s][..0] == [];
  }

  /** A single table with a primary key yields one loader file and the factory file. */
  lemma SingleTableRendersTwoFiles(s: Struct, options: Options, importer: seq<ImportRequest>, env: Collaborators)
    requires s.fullTableName !in options.excludeTables
    requires s.hasPrimaryKey
    ensures var entries := LoaderEntries([s], options.cache, options.excludeTables);
      && entries == [LoaderEntry(s, options.cache)]
      && |RenderedFiles(entries, options.package, importer, env)| == 2
  {
    assert [s][..0] == [];
    var entries := LoaderEntries([s], options.cache, options.excludeTables);
    RenderedFilesShape(entries, options.package, importer, env);
    assert entries[..0] == [];
  }

  /**
   * When the first applicable cache entry for the struct's table is an LRU
   * entry, it becomes the loader's cache, and the loader asks for the LRU
   * imports before its primary key's import. An earlier "memory" entry for
   * the same table would take precedence instead.
   */
  lemma LruCacheSelected(s: Struct, caches: seq<Cache>, i: nat, loaderPackage: string, importer: seq<ImportRequest>, env: Collaborators)
    requires i < |caches| && caches[i].table == s.fullTableName && caches[i].typ == "lru"
    requires forall j :: 0 <= j < i ==> !CacheApplies(caches[j], s)
    ensures LoaderEntry(s, caches).cache == caches[i]
    ensures DataLoaderFile(LoaderEntry(s, caches), loaderPackage, importer, env).template.loaderData.imports
         == importer + LruImports + [env.typeImport(PrimaryKeyOf(s.fields).Type())]
  {
    CacheForFirstMatch(s, caches, i);
  }
}
