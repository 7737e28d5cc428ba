# sqlc-dataloader core, modelled in Dafny

sqlc-dataloader is a sqlc plugin that generates Go data loaders: one batched
loader per table struct, plus a loader factory. This project models the
plugin's core:

- **Opts** (`opts.dfy`): the plugin options. It covers:
  - package-name derivation from `out`;
  - parsing type overrides, stopping at the first error;
  - the `["id"]` initialism default and the initialism set;
  - merging global options into local ones (global overrides first, global renames win);
  - the error messages of each stage.
- **SqlType** (`sqltype.dfy`): the custom type catalogue. Every enum and composite type of a non-system schema gets two Go types, a nullable one and a non-nullable one.
- **GoType** (`gotype.dfy`): choosing the engine transformer. It also covers the Go type of a column:
  - the first selected override wins;
  - otherwise the engine transformer gives the type;
  - slice and array prefixes are added on top.
- **Model** (`model.dfy`): the field and struct records the renderer reads.
- **Renderer** (`renderer.dfy`): the `DataLoaderRenderer` class. It covers:
  - which structs get a loader (excluded tables are dropped);
  - which cache policy each loader gets;
  - which files `Render` emits, under which names;
  - each loader's primary key and extra imports.

Collaborators outside the core are function-typed parameters. These are:

- the name normaliser;
- `Override.parse`, `Override.Matches`, `sdk.MatchString` and `sdk.DataType`;
- the SQL driver's `IsPGX`;
- the engine transformers' `ToGoType`;
- `filepath.Base` and `strcase.ToSnake`;
- a field type's `TypeWithPackage()` and `Import()`, applied to the field's type name.

Every property is proved for every choice of them.

Where the code departs from what a reader might expect, the model follows the code:

- The override scan tries each override in order: first its column test, then its type test. It does not try all column rules before any type rule. `GoType.EarlierTypeMatchWins` shows the consequence.
- A cache entry is matched on its `table` only, never on its loader name, and only with type `lru` or `memory`. The TTL is never validated.
- `internal/renderer/dataloader.go` reads `Cache.Table` and `Options.ExcludeTables`, which `internal/opts/options.go` does not declare; the model adds both fields.
- The SQL engine constants are declared outside `internal/opts/options.go`; the model takes their values as `"mysql"`, `"sqlite"` and `"postgresql"`.

## Model

| member | source | states |
|---|---|---|
| Opts.ParseAllSucceeds | internal/opts/options.go:87-91 | if every override parses, the result has one parsed override per input, in order |
| Opts.ParseAllFirstFailure | internal/opts/options.go:87-91 | the error returned is that of the first override, in list order, that fails; later overrides are not consulted |
| Opts.ParseOverrides | internal/opts/options.go:87-91 | the loop returns at the first error and otherwise yields all parsed overrides, i.e. equals ParseAll |
| Opts.BuildInitialismsMap | internal/opts/options.go:98-101 | a string is in the initialism set exactly when it is in the initialism list |
| Opts.ParseOpts | internal/opts/options.go:70-104 | empty options give the zero options; undecodable options give "unmarshalling plugin options: …"; no package and no out give "invalid options: missing package name"; otherwise a given package is kept and a missing one is taken from base(out), the first override-parse error is returned, initialisms default to ["id"] when absent and the initialism set is built from them |
| Opts.ParseGlobalOpts | internal/opts/options.go:106-120 | empty global options give the zero value; undecodable ones give "unmarshalling global options: …"; otherwise overrides are parsed with first-error semantics |
| Opts.Merge | internal/opts/options.go:58-66 | only overrides and rename change; overrides become global ++ local; with a non-empty global rename map the result map has the union of keys, global values win, local-only keys keep their values; with an empty one rename is untouched (a nil map stays nil) |
| Opts.Parse | internal/opts/options.go:49-67 | returns the plugin options' error, else the global options' error, else the merged options |
| Opts.ParseStagesInOrder | internal/opts/options.go:49-67 | a plugin-options error is reported before any global-options error; on success the global overrides precede the local ones |
| Opts.ValidateOpts | internal/opts/options.go:122-125 | every option set is accepted |
| Opts.EmptyOptionsAreZero | internal/opts/options.go:72-74 | an empty plugin-options document yields the zero options, with no package and no initialism default |
| Opts.PackageNameDerived | internal/opts/options.go:79-85 | a missing package is derived from base(out); with neither, parsing fails with the missing-package error |
| Opts.InitialismsDefaulted | internal/opts/options.go:93-101 | initialisms become ["id"] when absent and the set holds exactly the listed initialisms |
| SqlType.CompositeNullName | internal/sqltype/custom_type.go:62-69 | the nullable composite type is "*string" exactly when pointers are emitted for null types (pgx and the option), "sql.NullString" otherwise |
| SqlType.AppendEnumTypes | internal/sqltype/custom_type.go:37-60 | appends, per enum in order, the nullable "Null"-prefixed entry then the non-nullable entry, both package-qualified when a destination package is given |
| SqlType.AppendCompositeTypes | internal/sqltype/custom_type.go:64-86 | appends, per composite type in order, the non-nullable "string" entry then the nullable entry |
| SqlType.AppendSchemaTypes | internal/sqltype/custom_type.go:37-86 | a user schema appends its enum pairs, then its composite pairs |
| SqlType.NewCustomTypes | internal/sqltype/custom_type.go:24-90 | the catalogue is the concatenation, in schema order, of each non-system schema's enum pairs followed by its composite pairs |
| SqlType.EnumEntriesLength | internal/sqltype/custom_type.go:37-60 | every enum contributes exactly two entries |
| SqlType.CompositeEntriesLength | internal/sqltype/custom_type.go:64-86 | every composite type contributes exactly two entries |
| SqlType.CustomTypesLength | internal/sqltype/custom_type.go:32-87 | the catalogue has exactly two entries per enum and composite type of the user schemas |
| SqlType.CustomTypesAppend | internal/sqltype/custom_type.go:32-87 | schemas are processed independently: the catalogue of concatenated schema lists is the concatenation of their catalogues |
| SqlType.SystemSchemaContributesNothing | internal/sqltype/custom_type.go:33-35 | pg_catalog and information_schema add nothing, wherever they appear in the list |
| SqlType.EnumEntriesAt | internal/sqltype/custom_type.go:37-60 | entry 2k is the nullable "Null"+name type of enum k and entry 2k+1 its non-nullable type, with the enum's SQL name and schema |
| SqlType.CompositeEntriesAt | internal/sqltype/custom_type.go:64-86 | entry 2k is the non-nullable "string" type of composite k and entry 2k+1 its nullable type |
| SqlType.SchemaEntriesLayout | internal/sqltype/custom_type.go:37-86 | a user schema's entries are its enum pairs first, then its composite pairs, each at its computed position |
| SqlType.EnumPairDiffersOnlyInNullability | internal/sqltype/custom_type.go:38-58 | the two entries of an enum differ only in nullability and the "Null" prefix placed after the package qualifier |
| GoType.NewGoTypeFormatter | internal/gotype/go_type.go:23-33 | the formatter takes its default schema from the options and keeps the transformer and options |
| GoType.NewDbToGoTypeTransformer | internal/gotype/go_type.go:35-50 | succeeds exactly for mysql, sqlite and postgresql, choosing the matching transformer over the given custom types; any other engine fails with "unsupported sql engine <engine>" |
| GoType.FirstOverride | internal/gotype/go_type.go:66-91 | the scan yields "" exactly when no override is selected (it has a type name and its column test or type test passes) |
| GoType.FirstOverrideIsFirstMatch | internal/gotype/go_type.go:71-88 | the type of the first selected override is returned, whatever later overrides match |
| GoType.FirstOverrideWitness | internal/gotype/go_type.go:71-88 | a non-empty result is the type of a selected override with none selected before it |
| GoType.UnnamedOverrideNeverSelected | internal/gotype/go_type.go:74-76 | an override without a Go type name is skipped even when its tests pass |
| GoType.EarlierTypeMatchWins | internal/gotype/go_type.go:82-87 | overrides are tried one at a time, so a type-match override listed first beats a later column-match override |
| GoType.ToGoType | internal/gotype/go_type.go:52-64 | a slice parameter gets one "[]", otherwise an array column gets ArrayDims "[]", otherwise the base type is returned unwrapped |
| GoType.ToGoTypeUnwraps | internal/gotype/go_type.go:52-64 | for a base type that does not itself start with "[]", stripping the leading "[]" from the formatted type gives back the base type and the wrap depth (overrides such as "[]byte" are outside this lemma) |
| GoType.TwoDimensionalArray | internal/gotype/go_type.go:60-62 | a two-dimensional array column is formatted as "[][]" + base type |
| GoType.TransformerOnlyWithoutOverride | internal/gotype/go_type.go:53-56 | with a selected override the engine transformer does not affect the result; without one the base type is the transformer's |
| Model.AccessorsReturnStored | internal/model/field.go:19-49 | every Field accessor returns the value the field was built with |
| Renderer.CacheForFirstMatch | internal/renderer/dataloader.go:57-63 | a struct's cache is the first entry for its table whose type is lru or memory |
| Renderer.CacheForDefault | internal/renderer/dataloader.go:51-55 | without such an entry the struct gets the "no-cache" default |
| Renderer.FindCache | internal/renderer/dataloader.go:55-63 | the cache loop with early exit computes exactly that policy |
| Renderer.IsExcluded | internal/renderer/dataloader.go:65-71 | the skip flag is set exactly when the struct's table is in the exclusion list |
| Renderer.DataLoaderRenderer.constructor | internal/renderer/dataloader.go:45-90 | the renderer holds one entry per non-excluded struct in input order, named TypeName+"Loader" with its cache policy, plus the options' package and the importer |
| Renderer.LoaderEntriesBound | internal/renderer/dataloader.go:54-83 | there are never more loader entries than structs |
| Renderer.LoaderEntriesSound | internal/renderer/dataloader.go:54-83 | every entry comes from an input struct whose table is not excluded and carries its loader name and cache |
| Renderer.LoaderEntriesComplete | internal/renderer/dataloader.go:54-83 | every input struct whose table is not excluded has its entry |
| Renderer.LoaderEntriesAppend | internal/renderer/dataloader.go:54-83 | planning preserves input order: plans of concatenated lists concatenate |
| Renderer.LoaderEntriesNoneExcluded | internal/renderer/dataloader.go:54-83 | with no exclusions there is exactly one entry per struct, entry i for struct i |
| Renderer.PrimaryKeyIsFirstFlagged | internal/renderer/dataloader.go:179-185 | the primary key is the first field flagged as such, whatever later fields say |
| Renderer.PrimaryKeyAbsent | internal/renderer/dataloader.go:179-185 | with no flagged field the primary key is the zero field (empty column, type and name) |
| Renderer.DataLoaderRenderer.RenderDataLoader | internal/renderer/dataloader.go:174-225 | the loader file has the first primary-key field's column, its type with package and its name; its imports are the given ones, then the LRU imports when the cache is lru, then the primary-key type's import; it is named <snake>_loader.go, or <pkg>/<snake>.go when the loader package differs from the model package |
| Renderer.DataLoaderRenderer.RenderLoaderFactory | internal/renderer/dataloader.go:135-172 | the factory file lists all entries, takes its model package from the first entry, and is named loader_factory.go, or <pkg>/loader_factory.go when the packages differ |
| Renderer.FactoryFileShape | internal/renderer/dataloader.go:140-165 | the factory file lists every entry in order with the base imports, takes the first entry's model package, and is named loader_factory.go exactly when the loader package is the model package, otherwise it lies under "<pkg>/" |
| Renderer.DataLoaderRenderer.Render | internal/renderer/dataloader.go:92-133 | no entries give no files; otherwise one loader file per entry with a primary key in entry order, using the sql driver, context and dataloader imports, then the factory file with the base imports |
| Renderer.LoaderFilesCount | internal/renderer/dataloader.go:114-123 | the number of loader files equals the number of entries with a primary key |
| Renderer.LoaderFilesSound | internal/renderer/dataloader.go:114-123 | each loader file is the rendered file of an entry that has a primary key |
| Renderer.LoaderFilesComplete | internal/renderer/dataloader.go:114-123 | every entry whose struct has a primary key has its loader file |
| Renderer.LoaderFilesAppend | internal/renderer/dataloader.go:114-123 | loader files follow entry order: the files of concatenated entry lists concatenate |
| Renderer.RenderedFilesShape | internal/renderer/dataloader.go:92-133 | Render emits nothing without entries, otherwise primary-key-count + 1 files with the factory file last |
| Renderer.SeparatePackageFilesInLoaderDirectory | internal/renderer/dataloader.go:162-165 | when no struct lives in the loader package, every emitted file name starts with "<loader package>/" |
| Renderer.ExcludedTableRendersNothing | internal/renderer/dataloader.go:65-74 | a single excluded table yields no entry and no file, whatever cache entries name it |
| Renderer.SingleTableRendersTwoFiles | internal/renderer/dataloader.go:92-133 | a single non-excluded table with a primary key yields exactly two files (loader and factory) |
| Renderer.LruCacheSelected | internal/renderer/dataloader.go:187-201 | when the first applicable entry for the table (in configuration order, lru or memory) is an lru entry, it becomes the loader's cache, and its file asks for the cache package (alias loaderCache) and "time" before the primary-key type's import |

## Left out

- JSON decoding of the options documents is left out. A request carries each document as empty, malformed (with the decoder's message) or already decoded.
- The following are parameters of the model and are never defined: `Override.parse` and `Override.Matches`, `sdk.MatchString` and `sdk.DataType`, the name normaliser, `Options.Driver().IsPGX()`, the MySQL/SQLite/PostgreSQL transformers' `ToGoType`, `filepath.Base`, `strcase.ToSnake`, and a field type's `TypeWithPackage()` and `Import()`. Their behaviour is outside the core.
- The template text, template execution, `format.Source` and their errors are not modelled. A file carries the template data it would be rendered from, so the two error returns of `renderDataLoader` and `renderLoaderFactory` never occur in the model.
- Renderer.DataLoaderRenderer.Render: the import builder is modelled as the list of requests made to it, and the import rows above assume that each `Add…` call returns an extended builder without changing the one it is called on. If the builder's `Add…` updated it in place, the LRU and primary-key requests of one loader would also reach later loaders and the factory file; the builder's source is not part of this model. Its deduplication and ordering, and `ImportContainer(&s)`, are not modelled either.
- GoType.ToGoType: `ArrayDims` is a natural number. A negative dimension count from the protocol, which `strings.Repeat` would reject at run time, is not modelled.
- The struct builder and the SQL driver are not part of this model (`model.BuildStructs`, `imports.NewImportBuilder`, `Options.Driver`). A struct's type name, package, full table name and primary-key flag are stored fields.
- The runtime cache packages (`cache/`) are not part of this model; neither is the generated loaders' TTL and size handling.
- `internal/generator.go` is not part of this model. It derives the model package and wires the stages together.
