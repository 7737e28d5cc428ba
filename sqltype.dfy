/**
 * The custom type catalogue: for every enum and composite type of the
 * catalogue's user schemas, a pair of Go type names (nullable and
 * non-nullable).
 */
module SqlType {
  import Plugin
  import opened Opts

  datatype CustomTypeKind = EnumType | CompositeType {
    /** The kind's string value. */
    function Value(): string {
      match this
      case EnumType => "enum"
      case CompositeType => "composite"
    }
  }

  datatype CustomType = CustomType(
    goTypeName: string,
    sqlTypeName: string,
    schema: string,
    kind: CustomTypeKind,
    isNullable: bool)

  /**
   * The name normaliser built from the options; its two conversions are
   * not part of this model and are supplied by the caller.
   */
  datatype NameNormalizer = NameNormalizer(
    normalizeSqlName: (string, string) -> string,
    normalizeGoType: string -> string)

  predicate IsSystemSchema(name: string) {
    name == "pg_catalog" || name == "information_schema"
  }

  /** Prefixes `name` with the destination package when one is given. */
  function Qualified(destPackage: string, name: string): string {
    if destPackage != "" then destPackage + "." + name else name
  }

  /** The Go type name of an enum, before package qualification. */
  function EnumGoName(n: NameNormalizer, schema: string, e: Plugin.Enum): string {
    n.normalizeGoType(n.normalizeSqlName(schema, e.name))
  }

  /** The two entries of one enum: the nullable one first. */
  function EnumPair(n: NameNormalizer, schema: string, e: Plugin.Enum, destPackage: string): seq<CustomType> {
    var name := EnumGoName(n, schema, e);
    [CustomType(Qualified(destPackage, "Null" + name), e.name, schema, EnumType, true),
     CustomType(Qualified(destPackage, name), e.name, schema, EnumType, false)]
  }

  /** The Go type of a nullable composite value. */
  function CompositeNullName(emitPointersForNull: bool): (name: string)
    ensures name == "*string" <==> emitPointersForNull
    ensures name == "sql.NullString" <==> !emitPointersForNull
  {
    if emitPointersForNull then "*string" else "sql.NullString"
  }

  /** The two entries of one composite type: the non-nullable one first. */
  function CompositePair(schema: string, ct: Plugin.CompositeType, emitPointersForNull: bool): seq<CustomType> {
    [CustomType("string", ct.name, schema, CompositeType, false),
     CustomType(CompositeNullName(emitPointersForNull), ct.name, schema, CompositeType, true)]
  }

  function EnumEntries(n: NameNormalizer, schema: string, es: seq<Plugin.Enum>, destPackage: string): seq<CustomType> {
    if es == [] then []
    else EnumEntries(n, schema, es[..|es| - 1], destPackage) + EnumPair(n, schema, es[|es| - 1], destPackage)
  }

  function CompositeEntries(schema: string, cts: seq<Plugin.CompositeType>, emitPointersForNull: bool): seq<CustomType> {
    if cts == [] then []
    else CompositeEntries(schema, cts[..|cts| - 1], emitPointersForNull) + CompositePair(schema, cts[|cts| - 1], emitPointersForNull)
  }

  /** Whether composite types get a pointer as their nullable type. */
  function EmitPointersForNull(options: Options, isPGX: string -> bool): bool {
    isPGX(options.sqlPackage) && options.emitPointersForNullTypes
  }

  /** The entries one schema contributes: its enums, then its composite types. */
  function SchemaEntries(n: NameNormalizer, s: Plugin.Schema, options: Options, isPGX: string -> bool, destPackage: string): seq<CustomType> {
    if IsSystemSchema(s.name) then []
    else EnumEntries(n, s.name, s.enums, destPackage) + CompositeEntries(s.name, s.compositeTypes, EmitPointersForNull(options, isPGX))
  }

  /** The whole catalogue: the schemas' entries in schema order. */
  function CustomTypes(n: NameNormalizer, schemas: seq<Plugin.Schema>, options: Options, isPGX: string -> bool, destPackage: string): seq<CustomType> {
    if schemas == [] then []
    else CustomTypes(n, schemas[..|schemas| - 1], options, isPGX, destPackage) + SchemaEntries(n, schemas[|schemas| - 1], options, isPGX, destPackage)
  }

  lemma CustomTypesStep(n: NameNormalizer, schemas: seq<Plugin.Schema>, i: nat, options: Options, isPGX: string -> bool, destPackage: string)
    requires i < |schemas|
    ensures CustomTypes(n, schemas[..i + 1], options, isPGX, destPackage)
         == CustomTypes(n, schemas[..i], options, isPGX, destPackage) + SchemaEntries(n, schemas[i], options, isPGX, destPackage)
  {
    assert schemas[..i + 1][..i] == schemas[..i];
  }

  lemma EnumEntriesStep(n: NameNormalizer, schema: string, es: seq<Plugin.Enum>, j: nat, destPackage: string)
    requires j < |es|
    ensures EnumEntries(n, schema, es[..j + 1], destPackage) == EnumEntries(n, schema, es[..j], destPackage) + EnumPair(n, schema, es[j], destPackage)
  {
    assert es[..j + 1][..j] == es[..j];
  }

  lemma CompositeEntriesStep(schema: string, cts: seq<Plugin.CompositeType>, j: nat, emit: bool)
    requires j < |cts|
    ensures CompositeEntries(schema, cts[..j + 1], emit) == CompositeEntries(schema, cts[..j], emit) + CompositePair(schema, cts[j], emit)
  {
    assert cts[..j + 1][..j] == cts[..j];
  }

  /** The enum loop of NewCustomTypes: appends one (nullable, non-nullable) pair per enum. */
  method AppendEnumTypes(customTypes: seq<CustomType>, schema: Plugin.Schema, normalizer: NameNormalizer, destPackage: string)
    returns (r: seq<CustomType>)
    ensures r == customTypes + EnumEntries(normalizer, schema.name, schema.enums, destPackage)
  {
    r := customTypes;
    for j := 0 to |schema.enums|
      invariant r == customTypes + EnumEntries(normalizer, schema.name, schema.enums[..j], destPackage)
    {
      var e := schema.enums[j];
      var sqlName := normalizer.normalizeSqlName(schema.name, e.name);
      var name := normalizer.normalizeGoType(sqlName);
      var nullName := "Null" + name;
      if destPackage != "" {
        name := destPackage + "." + name;
        nullName := destPackage + "." + nullName;
      }
      var pair := [
        CustomType(nullName, e.name, schema.name, EnumType, true),
        CustomType(name, e.name, schema.name, EnumType, false)
      ];
      assert pair == EnumPair(normalizer, schema.name, e, destPackage);
      EnumEntriesStep(normalizer, schema.name, schema.enums, j, destPackage);
      r := r + pair;
    }
    assert schema.enums[..|schema.enums|] == schema.enums;
  }

  /** The composite-type loop of NewCustomTypes: appends one (non-nullable, nullable) pair per composite type. */
  method AppendCompositeTypes(customTypes: seq<CustomType>, schema: Plugin.Schema, emitPointersForNull: bool)
    returns (r: seq<CustomType>)
    ensures r == customTypes + CompositeEntries(schema.name, schema.compositeTypes, emitPointersForNull)
  {
    r := customTypes;
    for j := 0 to |schema.compositeTypes|
      invariant r == customTypes + CompositeEntries(schema.name, schema.compositeTypes[..j], emitPointersForNull)
    {
      var ct := schema.compositeTypes[j];
      var name := "string";
      var nullName := "sql.NullString";
      if emitPointersForNull {
        nullName := "*string";
      }
      var pair := [
        CustomType(name, ct.name, schema.name, CompositeType, false),
        CustomType(nullName, ct.name, schema.name, CompositeType, true)
      ];
      assert pair == CompositePair(schema.name, ct, emitPointersForNull);
      CompositeEntriesStep(schema.name, schema.compositeTypes, j, emitPointersForNull);
      r := r + pair;
    }
    assert schema.compositeTypes[..|schema.compositeTypes|] == schema.compositeTypes;
  }

  /** One pass of NewCustomTypes' schema loop over a user schema: its enums, then its composite types. */
  method AppendSchemaTypes(
    customTypes: seq<CustomType>,
    schema: Plugin.Schema,
    options: Options,
    destPackage: string,
    normalizer: NameNormalizer,
    isPGX: string -> bool
  ) returns (r: seq<CustomType>)
    requires !IsSystemSchema(schema.name)
    ensures r == customTypes + SchemaEntries(normalizer, schema, options, isPGX, destPackage)
  {
    r := AppendEnumTypes(customTypes, schema, normalizer, destPackage);
    var emitPointersForNull := isPGX(options.sqlPackage) && options.emitPointersForNullTypes;
    r := AppendCompositeTypes(r, schema, emitPointersForNull);
  }

  /**
   * NewCustomTypes. The driver's `IsPGX` is supplied as `isPGX`, applied to
   * the configured SQL package.
   */
  method NewCustomTypes(
    schemas: seq<Plugin.Schema>,
    options: Options,
    destPackage: string,
    normalizer: NameNormalizer,
    isPGX: string -> bool
  ) returns (customTypes: seq<CustomType>)
    ensures customTypes == CustomTypes(normalizer, schemas, options, isPGX, destPackage)
  {
    customTypes := [];
    for i := 0 to |schemas|
      invariant customTypes == CustomTypes(normalizer, schemas[..i], options, isPGX, destPackage)
    {
      var schema := schemas[i];
      CustomTypesStep(normalizer, schemas, i, options, isPGX, destPackage);
      if schema.name == "pg_catalog" || schema.name == "information_schema" {
        continue;
      }
      customTypes := AppendSchemaTypes(customTypes, schema, options, destPackage, normalizer, isPGX);
    }
    assert schemas[..|schemas|] == schemas;
  }

  /** The number of enums and composite types over the user schemas. */
  function TypeCount(schemas: seq<Plugin.Schema>): nat {
    if schemas == [] then 0
    else
      var s := schemas[|schemas| - 1];
      TypeCount(schemas[..|schemas| - 1]) + (if IsSystemSchema(s.name) then 0 else |s.enums| + |s.compositeTypes|)
  }

  lemma {:induction false} EnumEntriesLength(n: NameNormalizer, schema: string, es: seq<Plugin.Enum>, destPackage: string)
    ensures |EnumEntries(n, schema, es, destPackage)| == 2 * |es|
  {
    if es != [] {
      EnumEntriesLength(n, schema, es[..|es| - 1], destPackage);
    }
  }

  lemma {:induction false} CompositeEntriesLength(schema: string, cts: seq<Plugin.CompositeType>, emit: bool)
    ensures |CompositeEntries(schema, cts, emit)| == 2 * |cts|
  {
    if cts != [] {
      CompositeEntriesLength(schema, cts[..|cts| - 1], emit);
    }
  }

  /** Every enum and composite type of a user schema yields exactly two entries. */
  lemma {:induction false} CustomTypesLength(n: NameNormalizer, schemas: seq<Plugin.Schema>, options: Options, isPGX: string -> bool, destPackage: string)
    ensures |CustomTypes(n, schemas, options, isPGX, destPackage)| == 2 * TypeCount(schemas)
  {
    if schemas != [] {
      var s := schemas[|schemas| - 1];
      CustomTypesLength(n, schemas[..|schemas| - 1], options, isPGX, destPackage);
      EnumEntriesLength(n, s.name, s.enums, destPackage);
      CompositeEntriesLength(s.name, s.compositeTypes, EmitPointersForNull(options, isPGX));
    }
  }

  /** The catalogue of concatenated schema lists is the concatenation of their catalogues. */
  lemma {:induction false} CustomTypesAppend(n: NameNormalizer, a: seq<Plugin.Schema>, b: seq<Plugin.Schema>, options: Options, isPGX: string -> bool, destPackage: string)
    ensures CustomTypes(n, a + b, options, isPGX, destPackage) == CustomTypes(n, a, options, isPGX, destPackage) + CustomTypes(n, b, options, isPGX, destPackage)
  {
    if b == [] {
      assert a + b == a;
    } else {
      var init := b[..|b| - 1];
      var last := b[|b| - 1];
      assert (a + b)[..|a + b| - 1] == a + init;
      assert (a + b)[|a + b| - 1] == last;
      CustomTypesAppend(n, a, init, options, isPGX, destPackage);
      var ca := CustomTypes(n, a, options, isPGX, destPackage);
      var ci := CustomTypes(n, init, options, isPGX, destPackage);
      var e := SchemaEntries(n, last, options, isPGX, destPackage);
      assert CustomTypes(n, a + b, options, isPGX, destPackage) == (ca + ci) + e;
      assert CustomTypes(n, b, options, isPGX, destPackage) == ci + e;
      assert (ca + ci) + e == ca + (ci + e);
    }
  }

  /** System schemas contribute nothing, wherever they appear. */
  lemma SystemSchemaContributesNothing(n: NameNormalizer, a: seq<Plugin.Schema>, s: Plugin.Schema, b: seq<Plugin.Schema>, options: Options, isPGX: string -> bool, destPackage: string)
    requires IsSystemSchema(s.name)
    ensures CustomTypes(n, a + [s] + b, options, isPGX, destPackage) == CustomTypes(n, a + b, options, isPGX, destPackage)
  {
    assert [s][..0] == [];
    assert CustomTypes(n, [s], options, isPGX, destPackage) == [];
    CustomTypesAppend(n, a, [s], options, isPGX, destPackage);
    assert CustomTypes(n, a + [s], options, isPGX, destPackage) == CustomTypes(n, a, options, isPGX, destPackage);
    CustomTypesAppend(n, a + [s], b, options, isPGX, destPackage);
    CustomTypesAppend(n, a, b, options, isPGX, destPackage);
  }

  /**
   * The k-th enum of a schema yields entries 2k (nullable, `Null` prefix)
   * and 2k+1 (non-nullable), which agree on SQL name, schema and kind.
   */
  lemma {:induction false} EnumEntriesAt(n: NameNormalizer, schema: string, es: seq<Plugin.Enum>, destPackage: string, k: nat)
    requires k < |es|
    ensures |EnumEntries(n, schema, es, destPackage)| == 2 * |es|
    ensures EnumEntries(n, schema, es, destPackage)[2 * k] == CustomType(Qualified(destPackage, "Null" + EnumGoName(n, schema, es[k])), es[k].name, schema, EnumType, true)
    ensures EnumEntries(n, schema, es, destPackage)[2 * k + 1] == CustomType(Qualified(destPackage, EnumGoName(n, schema, es[k])), es[k].name, schema, EnumType, false)
  {
    EnumEntriesLength(n, schema, es, destPackage);
    EnumEntriesLength(n, schema, es[..|es| - 1], destPackage);
    if k < |es| - 1 {
      EnumEntriesAt(n, schema, es[..|es| - 1], destPackage, k);
    }
  }

  /**
   * The k-th composite type of a schema yields entries 2k (non-nullable
   * "string") and 2k+1 (nullable).
   */
  lemma {:induction false} CompositeEntriesAt(schema: string, cts: seq<Plugin.CompositeType>, emit: bool, k: nat)
    requires k < |cts|
    ensures |CompositeEntries(schema, cts, emit)| == 2 * |cts|
    ensures CompositeEntries(schema, cts, emit)[2 * k] == CustomType("string", cts[k].name, schema, CompositeType, false)
    ensures CompositeEntries(schema, cts, emit)[2 * k + 1] == CustomType(CompositeNullName(emit), cts[k].name, schema, CompositeType, true)
  {
    CompositeEntriesLength(schema, cts, emit);
    CompositeEntriesLength(schema, cts[..|cts| - 1], emit);
    if k < |cts| - 1 {
      CompositeEntriesAt(schema, cts[..|cts| - 1], emit, k);
    }
  }

  /**
   * Within a user schema's entries, its enums come first, in order, each
   * as a (nullable, non-nullable) pair; its composite types follow, each as
   * a (non-nullable, nullable) pair.
   */
  lemma SchemaEntriesLayout(n: NameNormalizer, s: Plugin.Schema, options: Options, isPGX: string -> bool, destPackage: string)
    requires !IsSystemSchema(s.name)
    ensures var entries := SchemaEntries(n, s, options, isPGX, destPackage);
      && |entries| == 2 * (|s.enums| + |s.compositeTypes|)
      && (forall k :: 0 <= k < |s.enums| ==>
            && entries[2 * k] == CustomType(Qualified(destPackage, "Null" + EnumGoName(n, s.name, s.enums[k])), s.enums[k].name, s.name, EnumType, true)
            && entries[2 * k + 1] == CustomType(Qualified(destPackage, EnumGoName(n, s.name, s.enums[k])), s.enums[k].name, s.name, EnumType, false))
      && (forall k :: 0 <= k < |s.compositeTypes| ==>
            && entries[2 * |s.enums| + 2 * k] == CustomType("string", s.compositeTypes[k].name, s.name, CompositeType, false)
            && entries[2 * |s.enums| + 2 * k + 1] == CustomType(CompositeNullName(EmitPointersForNull(options, isPGX)), s.compositeTypes[k].name, s.name, CompositeType, true))
  {
    var emit := EmitPointersForNull(options, isPGX);
    EnumEntriesLength(n, s.name, s.enums, destPackage);
    CompositeEntriesLength(s.name, s.compositeTypes, emit);
    forall k | 0 <= k < |s.enums|
      ensures EnumEntries(n, s.name, s.enums, destPackage)[2 * k] == CustomType(Qualified(destPackage, "Null" + EnumGoName(n, s.name, s.enums[k])), s.enums[k].name, s.name, EnumType, true)
      ensures EnumEntries(n, s.name, s.enums, destPackage)[2 * k + 1] == CustomType(Qualified(destPackage, EnumGoName(n, s.name, s.enums[k])), s.enums[k].name, s.name, EnumType, false)
    {
      EnumEntriesAt(n, s.name, s.enums, destPackage, k);
    }
    forall k | 0 <= k < |s.compositeTypes|
      ensures CompositeEntries(s.name, s.compositeTypes, emit)[2 * k] == CustomType("string", s.compositeTypes[k].name, s.name, CompositeType, false)
      ensures CompositeEntries(s.name, s.compositeTypes, emit)[2 * k + 1] == CustomType(CompositeNullName(emit), s.compositeTypes[k].name, s.name, CompositeType, true)
    {
      CompositeEntriesAt(s.name, s.compositeTypes, emit, k);
    }
  }

  /** The two entries of an enum differ only in nullability and in the `Null` prefix. */
  lemma EnumPairDiffersOnlyInNullability(n: NameNormalizer, schema: string, e: Plugin.Enum, destPackage: string)
    ensures var p := EnumPair(n, schema, e, destPackage);
      && |p| == 2
      && p[0].isNullable && !p[1].isNullable
      && p[0] == p[1].(goTypeName := p[0].goTypeName, isNullable := true)
      && (destPackage == "" ==> p[0].goTypeName == "Null" + p[1].goTypeName)
      && (destPackage != "" ==>
            p[0].goTypeName == destPackage + ".Null" + EnumGoName(n, schema, e) && p[1].goTypeName == destPackage + "." + EnumGoName(n, schema, e))
  {
  }
}
