/**
 * Plugin options: the records decoded from the configuration document, and
 * the post-processing that `Parse` applies after decoding (package-name
 * derivation, initialism defaults, parsing of type overrides, and the merge
 * of the global overrides and renames).
 *
 * JSON decoding is not modelled: a request carries each options document as
 * a `Payload` that is either empty, malformed, or already decoded.
 */
module Opts {
  import opened Wrappers

  /** Values of the SQL engine setting. */
  const SQLEngineMySQL := "mysql"
  const SQLEngineSQLite := "sqlite"
  const SQLEnginePostgresql := "postgresql"

  /** Per-table cache configuration (opts.Cache). */
  datatype Cache = Cache(table: string, loaderName: string, typ: string, ttl: string, size: int)

  /** The resolved part of a type override rule (the override's ShimOverride). */
  datatype ShimOverride = ShimOverride(
    goTypeName: string,
    dbType: string,
    nullable: bool,
    unsigned: bool,
    column: string,
    columnName: string)

  /** A type override rule; its table pattern lives in the unmodelled rest of the rule. */
  datatype Override = Override(tablePattern: string, shim: ShimOverride)

  /**
   * The plugin options. `rename` and `initialisms` keep Go's distinction
   * between a nil value (`None`) and an empty one.
   */
  datatype Options = Options(
    emitExactTableNames: bool,
    package: string,
    out: string,
    overrides: seq<Override>,
    rename: Option<map<string, string>>,
    omitSqlcVersion: bool,
    defaultSchema: string,
    inflectionExcludeTableNames: seq<string>,
    initialisms: Option<seq<string>>,
    sqlPackage: string,
    emitPointersForNullTypes: bool,
    primaryKeysColumns: seq<string>,
    modelImport: string,
    cache: seq<Cache>,
    excludeTables: seq<string>,
    initialismsMap: set<string>)

  /** The zero value of Options. */
  const ZeroOptions := Options(false, "", "", [], None, false, "", [], None, "", false, [], "", [], [], {})

  datatype GlobalOptions = GlobalOptions(overrides: seq<Override>, rename: Option<map<string, string>>)

  const ZeroGlobalOptions := GlobalOptions([], None)

  /** An options document as found in the request: absent (zero length), not valid JSON, or decoded. */
  datatype Payload<T> = Empty | Malformed(reason: string) | Decoded(value: T)

  datatype GenerateRequest = GenerateRequest(pluginOptions: Payload<Options>, globalOptions: Payload<GlobalOptions>)

  const MissingPackageName := "invalid options: missing package name"

  /** The rename map with a nil map read as the empty map, as Go's `len` and lookups read it. */
  function RenameMap(m: Option<map<string, string>>): map<string, string> {
    m.GetOr(map[])
  }

  /**
   * Parses every override in list order and stops at the first error
   * (`Override.parse`, supplied as `parse`).
   */
  function ParseAll(os: seq<Override>, parse: Override -> Result<Override, string>): Result<seq<Override>, string> {
    if os == [] then Success([])
    else
      match parse(os[0])
      case Failure(e) => Failure(e)
      case Success(o) =>
        match ParseAll(os[1..], parse)
        case Failure(e) => Failure(e)
        case Success(rest) => Success([o] + rest)
  }

  /** When every override parses, the result holds the parsed overrides in their original order. */
  lemma {:induction false} ParseAllSucceeds(os: seq<Override>, parse: Override -> Result<Override, string>)
    requires forall i :: 0 <= i < |os| ==> parse(os[i]).Success?
    ensures ParseAll(os, parse).Success?
    ensures |ParseAll(os, parse).value| == |os|
    ensures forall i :: 0 <= i < |os| ==> ParseAll(os, parse).value[i] == parse(os[i]).value
  {
    if os != [] {
      forall i | 0 <= i < |os[1..]| ensures parse(os[1..][i]).Success? {
        assert os[1..][i] == os[i + 1];
      }
      ParseAllSucceeds(os[1..], parse);
      forall i | 0 <= i < |os| ensures ParseAll(os, parse).value[i] == parse(os[i]).value {
        if i > 0 {
          assert os[1..][i - 1] == os[i];
        }
      }
    }
  }

  /** The error reported is that of the first override, in list order, that fails to parse. */
  lemma {:induction false} ParseAllFirstFailure(os: seq<Override>, parse: Override -> Result<Override, string>, i: nat)
    requires i < |os|
    requires forall j :: 0 <= j < i ==> parse(os[j]).Success?
    requires parse(os[i]).Failure?
    ensures ParseAll(os, parse) == Failure(parse(os[i]).error)
  {
    if i > 0 {
      forall j | 0 <= j < i - 1 ensures parse(os[1..][j]).Success? {
        assert os[1..][j] == os[j + 1];
      }
      assert os[1..][i - 1] == os[i];
      ParseAllFirstFailure(os[1..], parse, i - 1);
    }
  }

  /** `parseOpts`: the options after decoding, package derivation, override parsing and initialism defaults. */
  function PluginOptionsOutcome(
    doc: Payload<Options>,
    parse: Override -> Result<Override, string>,
    base: string -> string
  ): Result<Options, string>
  {
    match doc
    case Empty => Success(ZeroOptions)
    case Malformed(e) => Failure("unmarshalling plugin options: " + e)
    case Decoded(o) =>
      if o.package == "" && o.out == "" then Failure(MissingPackageName)
      else
        match ParseAll(o.overrides, parse)
        case Failure(e) => Failure(e)
        case Success(parsed) =>
          var inits := o.initialisms.GetOr(["id"]);
          Success(o.(package := if o.package == "" then base(o.out) else o.package,
                     overrides := parsed,
                     initialisms := Some(inits),
                     initialismsMap := set x | x in inits))
  }

  /** `parseGlobalOpts`: the global options after decoding and override parsing. */
  function GlobalOptionsOutcome(doc: Payload<GlobalOptions>, parse: Override -> Result<Override, string>): Result<GlobalOptions, string> {
    match doc
    case Empty => Success(ZeroGlobalOptions)
    case Malformed(e) => Failure("unmarshalling global options: " + e)
    case Decoded(g) =>
      match ParseAll(g.overrides, parse)
      case Failure(e) => Failure(e)
      case Success(parsed) => Success(g.(overrides := parsed))
  }

  /**
   * The merge `Parse` applies: global overrides go first, and global renames
   * are copied over the local ones.
   */
  function Merge(o: Options, g: GlobalOptions): (r: Options)
    ensures r == o.(overrides := r.overrides, rename := r.rename)
    ensures r.overrides == g.overrides + o.overrides
    ensures |RenameMap(g.rename)| == 0 ==> r.rename == o.rename
    ensures |RenameMap(g.rename)| > 0 ==>
      && r.rename.Some?
      && r.rename.value.Keys == RenameMap(o.rename).Keys + RenameMap(g.rename).Keys
      && (forall k :: k in RenameMap(g.rename) ==> r.rename.value[k] == RenameMap(g.rename)[k])
      && (forall k :: k in RenameMap(o.rename) && k !in RenameMap(g.rename) ==> r.rename.value[k] == RenameMap(o.rename)[k])
  {
    var overrides := if |g.overrides| > 0 then g.overrides + o.overrides else o.overrides;
    var rename := if |RenameMap(g.rename)| > 0 then Some(RenameMap(o.rename) + RenameMap(g.rename)) else o.rename;
    o.(overrides := overrides, rename := rename)
  }

  /** What `Parse` returns: the first error of the two stages, or the merged options. */
  function ParseOutcome(req: GenerateRequest, parse: Override -> Result<Override, string>, base: string -> string): Result<Options, string> {
    match PluginOptionsOutcome(req.pluginOptions, parse, base)
    case Failure(e) => Failure(e)
    case Success(o) =>
      match GlobalOptionsOutcome(req.globalOptions, parse)
      case Failure(e) => Failure(e)
      case Success(g) => Success(Merge(o, g))
  }

  /** Parses the overrides one by one, returning at the first error. */
  method ParseOverrides(os: seq<Override>, parse: Override -> Result<Override, string>) returns (r: Result<seq<Override>, string>)
    ensures r == ParseAll(os, parse)
  {
    var parsed: seq<Override> := [];
    var i := 0;
    while i < |os|
      invariant 0 <= i <= |os|
      invariant |parsed| == i
      invariant forall j :: 0 <= j < i ==> parse(os[j]).Success? && parsed[j] == parse(os[j]).value
    {
      var p := parse(os[i]);
      if p.Failure? {
        ParseAllFirstFailure(os, parse, i);
        return Failure(p.error);
      }
      parsed := parsed + [p.value];
      i := i + 1;
    }
    ParseAllSucceeds(os, parse);
    assert parsed == ParseAll(os, parse).value;
    r := Success(parsed);
  }

  /** Builds the initialism set from the initialism list. */
  method BuildInitialismsMap(initialisms: seq<string>) returns (m: set<string>)
    ensures forall x :: x in m <==> x in initialisms
  {
    m := {};
    for k := 0 to |initialisms|
      invariant forall x :: x in m <==> x in initialisms[..k]
    {
      assert initialisms[..k + 1] == initialisms[..k] + [initialisms[k]];
      m := m + {initialisms[k]};
    }
    assert initialisms[..|initialisms|] == initialisms;
  }

  /** parseOpts */
  method ParseOpts(req: GenerateRequest, parse: Override -> Result<Override, string>, base: string -> string) returns (r: Result<Options, string>)
    ensures r == PluginOptionsOutcome(req.pluginOptions, parse, base)
  {
    match req.pluginOptions {
      case Empty =>
        return Success(ZeroOptions);
      case Malformed(e) =>
        return Failure("unmarshalling plugin options: " + e);
      case Decoded(decoded) =>
        var options := decoded;
        if options.package == "" {
          if options.out != "" {
            options := options.(package := base(options.out));
          } else {
            return Failure(MissingPackageName);
          }
        }
        var parsed := ParseOverrides(options.overrides, parse);
        if parsed.Failure? {
          return Failure(parsed.error);
        }
        options := options.(overrides := parsed.value);
        if options.initialisms.None? {
          options := options.(initialisms := Some(["id"]));
        }
        var m := BuildInitialismsMap(options.initialisms.value);
        assert m == set x | x in options.initialisms.value;
        options := options.(initialismsMap := m);
        return Success(options);
    }
  }

  /** parseGlobalOpts */
  method ParseGlobalOpts(req: GenerateRequest, parse: Override -> Result<Override, string>) returns (r: Result<GlobalOptions, string>)
    ensures r == GlobalOptionsOutcome(req.globalOptions, parse)
  {
    match req.globalOptions {
      case Empty =>
        return Success(ZeroGlobalOptions);
      case Malformed(e) =>
        return Failure("unmarshalling global options: " + e);
      case Decoded(decoded) =>
        var options := decoded;
        var parsed := ParseOverrides(options.overrides, parse);
        if parsed.Failure? {
          return Failure(parsed.error);
        }
        options := options.(overrides := parsed.value);
        return Success(options);
    }
  }

  /** Parse: local options, then global options, then the merge. */
  method Parse(req: GenerateRequest, parse: Override -> Result<Override, string>, base: string -> string) returns (r: Result<Options, string>)
    ensures r == ParseOutcome(req, parse, base)
  {
    var options :- ParseOpts(req, parse, base);
    var global :- ParseGlobalOpts(req, parse);
    if |global.overrides| > 0 {
      options := options.(overrides := global.overrides + options.overrides);
    }
    if |RenameMap(global.rename)| > 0 {
      if options.rename.None? {
        options := options.(rename := Some(map[]));
      }
      options := options.(rename := Some(options.rename.value + RenameMap(global.rename)));
    }
    return Success(options);
  }

  /**
   * Parse reports the plugin options' error before looking at the global
   * options; with both stages successful, the global overrides precede the
   * local ones.
   */
  lemma ParseStagesInOrder(req: GenerateRequest, parse: Override -> Result<Override, string>, base: string -> string)
    ensures PluginOptionsOutcome(req.pluginOptions, parse, base).Failure? ==>
      ParseOutcome(req, parse, base) == Failure(PluginOptionsOutcome(req.pluginOptions, parse, base).error)
    ensures PluginOptionsOutcome(req.pluginOptions, parse, base).Success? && GlobalOptionsOutcome(req.globalOptions, parse).Failure? ==>
      ParseOutcome(req, parse, base) == Failure(GlobalOptionsOutcome(req.globalOptions, parse).error)
    ensures PluginOptionsOutcome(req.pluginOptions, parse, base).Success? && GlobalOptionsOutcome(req.globalOptions, parse).Success? ==>
      && ParseOutcome(req, parse, base).Success?
      && ParseOutcome(req, parse, base).value.overrides
         == GlobalOptionsOutcome(req.globalOptions, parse).value.overrides + PluginOptionsOutcome(req.pluginOptions, parse, base).value.overrides
  {
  }

  /** ValidateOpts accepts every option set. */
  function ValidateOpts(o: Options): (err: Option<string>)
    ensures err == None
  {
    None
  }

  /** Empty plugin options give the zero options with no error and no defaults. */
  lemma EmptyOptionsAreZero(req: GenerateRequest, parse: Override -> Result<Override, string>, base: string -> string)
    requires req.pluginOptions.Empty?
    ensures PluginOptionsOutcome(req.pluginOptions, parse, base) == Success(ZeroOptions)
    ensures ZeroOptions.package == "" && ZeroOptions.initialisms == None
  {
  }

  /**
   * A missing package name is taken from the base name of `out`; with no
   * `out` either, parsing fails.
   */
  lemma PackageNameDerived(o: Options, parse: Override -> Result<Override, string>, base: string -> string)
    ensures o.package == "" && o.out == "" ==> PluginOptionsOutcome(Decoded(o), parse, base) == Failure(MissingPackageName)
    ensures PluginOptionsOutcome(Decoded(o), parse, base).Success? ==>
      PluginOptionsOutcome(Decoded(o), parse, base).value.package == (if o.package == "" then base(o.out) else o.package)
  {
  }

  /** Initialisms default to ["id"], and the initialism set holds exactly the listed initialisms. */
  lemma InitialismsDefaulted(o: Options, parse: Override -> Result<Override, string>, base: string -> string)
    requires PluginOptionsOutcome(Decoded(o), parse, base).Success?
    ensures var r := PluginOptionsOutcome(Decoded(o), parse, base).value;
      && r.initialisms == Some(if o.initialisms.None? then ["id"] else o.initialisms.value)
      && (forall x :: x in r.initialismsMap <==> x in r.initialisms.value)
  {
  }
}
