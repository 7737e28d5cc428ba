/**
 * Column type formatting: the configured overrides are searched first, the
 * engine's type transformer is the fallback, and the result is wrapped in
 * slice prefixes for slice parameters and array columns.
 */
module GoType {
  import opened Wrappers
  import opened Plugin
  import opened Opts
  import SqlType

  /** The engine-specific type transformer chosen by NewDbTOGoTypeTransformer. */
  datatype Transformer =
    | MysqlTypeTransformer(customTypes: seq<SqlType.CustomType>)
    | SqliteTypeTransformer(options: Options, customTypes: seq<SqlType.CustomType>)
    | PostgresqlTypeTransformer(options: Options, customTypes: seq<SqlType.CustomType>)

  /**
   * The matching helpers the override scan calls but this model does not
   * define: `sdk.DataType`, `sdk.MatchString` and `Override.Matches`.
   */
  datatype Collaborators = Collaborators(
    dataType: Identifier -> string,
    matchString: (string, string) -> bool,
    overrideMatches: (Override, Identifier, string) -> bool)

  /** The `ToGoType` of the engine transformers, which this model does not define. */
  type EngineGoType = (Transformer, Column) -> string

  datatype GoTypeFormatter = GoTypeFormatter(defaultSchema: string, transformer: Transformer, options: Options)

  function NewGoTypeFormatter(transformer: Transformer, options: Options): (f: GoTypeFormatter)
    ensures f.defaultSchema == options.defaultSchema
    ensures f.transformer == transformer && f.options == options
  {
    GoTypeFormatter(options.defaultSchema, transformer, options)
  }

  predicate IsSupportedEngine(engine: string) {
    engine == SQLEngineMySQL || engine == SQLEngineSQLite || engine == SQLEnginePostgresql
  }

  /** Selects the transformer for the engine; any other engine is a construction-time error. */
  function NewDbToGoTypeTransformer(engine: string, customTypes: seq<SqlType.CustomType>, options: Options): (r: Result<Transformer, string>)
    ensures r.Success? <==> IsSupportedEngine(engine)
    ensures r.Failure? ==> r.error == "unsupported sql engine " + engine
    ensures r.Success? ==> r.value.customTypes == customTypes
    ensures engine == SQLEngineMySQL ==> r.Success? && r.value.MysqlTypeTransformer?
    ensures engine == SQLEngineSQLite ==> r.Success? && r.value == SqliteTypeTransformer(options, customTypes)
    ensures engine == SQLEnginePostgresql ==> r.Success? && r.value == PostgresqlTypeTransformer(options, customTypes)
  {
    if engine == SQLEngineMySQL then Success(MysqlTypeTransformer(customTypes))
    else if engine == SQLEngineSQLite then Success(SqliteTypeTransformer(options, customTypes))
    else if engine == SQLEnginePostgresql then Success(PostgresqlTypeTransformer(options, customTypes))
    else Failure("unsupported sql engine " + engine)
  }

  /** The column name overrides are matched against: the original name when there is one. */
  function OverrideColumnName(col: Column): string {
    if col.originalName != "" then col.originalName else col.name
  }

  /** A column-match override applies to the column. */
  predicate ColumnMatches(env: Collaborators, f: GoTypeFormatter, o: Override, col: Column) {
    && o.shim.column != ""
    && env.matchString(o.shim.columnName, OverrideColumnName(col))
    && env.overrideMatches(o, col.table, f.defaultSchema)
  }

  /**
   * A type-match override applies to the column. The nullability test is an
   * inequality against the column's not-null status, which counts an array
   * column as not null.
   */
  predicate TypeMatches(env: Collaborators, o: Override, col: Column) {
    && o.shim.dbType != ""
    && o.shim.dbType == env.dataType(col.typ)
    && o.shim.nullable != (col.notNull || col.isArray)
    && o.shim.unsigned == col.unsigned
  }

  /** The override is selected for the column: it names a type and one of its two tests passes. */
  predicate Selects(env: Collaborators, f: GoTypeFormatter, o: Override, col: Column) {
    o.shim.goTypeName != "" && (ColumnMatches(env, f, o, col) || TypeMatches(env, o, col))
  }

  /** The first-match scan over `os`; "" when no override is selected. */
  function FirstOverride(env: Collaborators, f: GoTypeFormatter, os: seq<Override>, col: Column): (r: string)
    ensures r == "" <==> forall i :: 0 <= i < |os| ==> !Selects(env, f, os[i], col)
  {
    if os == [] then ""
    else if os[0].shim.goTypeName == "" then FirstOverride(env, f, os[1..], col)
    else if ColumnMatches(env, f, os[0], col) then os[0].shim.goTypeName
    else if TypeMatches(env, os[0], col) then os[0].shim.goTypeName
    else
      var r := FirstOverride(env, f, os[1..], col);
      assert forall i :: 1 <= i < |os| ==> os[i] == os[1..][i - 1];
      r
  }

  /** overriddenType: the type of the first selected configured override, or "". */
  function OverriddenType(env: Collaborators, f: GoTypeFormatter, col: Column): string {
    FirstOverride(env, f, f.options.overrides, col)
  }

  /**
   * The scan returns the type of the override at the first selected
   * position, whatever later overrides would match.
   */
  lemma {:induction false} FirstOverrideIsFirstMatch(env: Collaborators, f: GoTypeFormatter, os: seq<Override>, col: Column, i: nat)
    requires i < |os|
    requires Selects(env, f, os[i], col)
    requires forall j :: 0 <= j < i ==> !Selects(env, f, os[j], col)
    ensures FirstOverride(env, f, os, col) == os[i].shim.goTypeName
  {
    if i > 0 {
      forall j | 0 <= j < i - 1 ensures !Selects(env, f, os[1..][j], col) {
        assert os[1..][j] == os[j + 1];
      }
      assert os[1..][i - 1] == os[i];
      FirstOverrideIsFirstMatch(env, f, os[1..], col, i - 1);
    }
  }

  /** A non-empty result is the type of some selected override with no selected override before it. */
  lemma {:induction false} FirstOverrideWitness(env: Collaborators, f: GoTypeFormatter, os: seq<Override>, col: Column)
    requires FirstOverride(env, f, os, col) != ""
    ensures exists i ::
      && 0 <= i < |os|
      && Selects(env, f, os[i], col)
      && (forall j :: 0 <= j < i ==> !Selects(env, f, os[j], col))
      && FirstOverride(env, f, os, col) == os[i].shim.goTypeName
  {
    if !Selects(env, f, os[0], col) {
      FirstOverrideWitness(env, f, os[1..], col);
      var k :| 0 <= k < |os[1..]| && Selects(env, f, os[1..][k], col)
        && (forall j :: 0 <= j < k ==> !Selects(env, f, os[1..][j], col))
        && FirstOverride(env, f, os[1..], col) == os[1..][k].shim.goTypeName;
      assert os[1..][k] == os[k + 1];
      forall j | 0 <= j < k + 1 ensures !Selects(env, f, os[j], col) {
        if j > 0 {
          assert os[j] == os[1..][j - 1];
        }
      }
    } else {
      assert Selects(env, f, os[0], col);
    }
  }

  /** Overrides without a Go type name are never selected, even when both their tests pass. */
  lemma UnnamedOverrideNeverSelected(env: Collaborators, f: GoTypeFormatter, o: Override, rest: seq<Override>, col: Column)
    requires o.shim.goTypeName == ""
    ensures FirstOverride(env, f, [o] + rest, col) == FirstOverride(env, f, rest, col)
  {
    assert ([o] + rest)[1..] == rest;
  }

  /**
   * Overrides are tried one at a time: a type-match override listed before a
   * column-match override wins over it.
   */
  lemma EarlierTypeMatchWins(env: Collaborators, f: GoTypeFormatter, typeRule: Override, columnRule: Override, col: Column)
    requires typeRule.shim.goTypeName != "" && TypeMatches(env, typeRule, col)
    requires columnRule.shim.goTypeName != "" && ColumnMatches(env, f, columnRule, col)
    ensures FirstOverride(env, f, [typeRule, columnRule], col) == typeRule.shim.goTypeName
  {
  }

  /** The base type: the override when one is selected, else the engine transformer's type. */
  function BaseType(env: Collaborators, engine: EngineGoType, f: GoTypeFormatter, col: Column): string {
    var overridden := OverriddenType(env, f, col);
    if overridden == "" then engine(f.transformer, col) else overridden
  }

  /** The number of slice prefixes: one for a slice parameter, the array depth for an array column. */
  function WrapDepth(col: Column): nat {
    if col.isSqlcSlice then 1
    else if col.isArray then col.arrayDims
    else 0
  }

  function Repeat(s: string, n: nat): string {
    if n == 0 then "" else s + Repeat(s, n - 1)
  }

  /** ToGoType. */
  function ToGoType(env: Collaborators, engine: EngineGoType, f: GoTypeFormatter, col: Column): (r: string)
    ensures col.isSqlcSlice ==> r == "[]" + BaseType(env, engine, f, col)
    ensures !col.isSqlcSlice && col.isArray ==> r == Repeat("[]", col.arrayDims) + BaseType(env, engine, f, col)
    ensures !col.isSqlcSlice && !col.isArray ==> r == BaseType(env, engine, f, col)
  {
    var gotype := BaseType(env, engine, f, col);
    if col.isSqlcSlice then "[]" + gotype
    else if col.isArray then Repeat("[]", col.arrayDims) + gotype
    else gotype
  }

  /** Splits a Go type into its element type and the number of leading "[]". */
  function StripSlices(t: string): (string, nat)
    decreases |t|
  {
    if StartsWithSlice(t) then
      var (elem, depth) := StripSlices(t[2..]);
      (elem, depth + 1)
    else (t, 0)
  }

  predicate StartsWithSlice(t: string) {
    |t| >= 2 && t[..2] == "[]"
  }

  lemma {:induction false} StripRepeat(n: nat, base: string)
    requires !StartsWithSlice(base)
    ensures StripSlices(Repeat("[]", n) + base) == (base, n)
  {
    if n > 0 {
      var t := Repeat("[]", n) + base;
      assert t == "[]" + (Repeat("[]", n - 1) + base);
      assert t[..2] == "[]";
      assert t[2..] == Repeat("[]", n - 1) + base;
      StripRepeat(n - 1, base);
    } else {
      assert Repeat("[]", n) + base == base;
    }
  }

  /**
   * The formatted type is the base type under exactly `WrapDepth` slice
   * prefixes: a slice parameter gets one whatever its array flags say, an
   * array column gets its dimension count (none for zero dimensions).
   */
  lemma ToGoTypeUnwraps(env: Collaborators, engine: EngineGoType, f: GoTypeFormatter, col: Column)
    requires !StartsWithSlice(BaseType(env, engine, f, col))
    ensures StripSlices(ToGoType(env, engine, f, col)) == (BaseType(env, engine, f, col), WrapDepth(col))
  {
    var base := BaseType(env, engine, f, col);
    StripRepeat(WrapDepth(col), base);
    if col.isSqlcSlice {
      assert Repeat("[]", 1) == "[]";
    } else if !col.isArray {
      assert Repeat("[]", 0) + base == base;
    }
  }

  /** An array column of depth two is wrapped twice, whatever its nullability. */
  lemma TwoDimensionalArray(env: Collaborators, engine: EngineGoType, f: GoTypeFormatter, col: Column)
    requires !col.isSqlcSlice && col.isArray && col.arrayDims == 2
    ensures ToGoType(env, engine, f, col) == "[][]" + BaseType(env, engine, f, col)
  {
    assert Repeat("[]", 2) == "[][]";
  }

  /**
   * The engine transformer is consulted only when no override is selected:
   * with a selected override, the formatted type does not depend on it.
   */
  lemma TransformerOnlyWithoutOverride(env: Collaborators, engine: EngineGoType, other: EngineGoType, f: GoTypeFormatter, col: Column)
    ensures OverriddenType(env, f, col) != "" ==> ToGoType(env, engine, f, col) == ToGoType(env, other, f, col)
    ensures OverriddenType(env, f, col) == "" ==> BaseType(env, engine, f, col) == engine(f.transformer, col)
  {
  }
}
