/**
 * The struct and field records the loader renderer consumes. A field is a
 * plain record read through accessors; a struct's type, table name and
 * primary-key test are computed by code outside this model, so their
 * results are stored in the record.
 */
module Model {
  import opened Wrappers
  import Plugin

  /** A field of a generated struct (model.Field), possibly with embedded child fields. */
  datatype Field = Field(
    name: string,
    dbName: string,
    typeName: string,
    tags: map<string, string>,
    comment: string,
    column: Option<Plugin.Column>,
    isPrimaryKey: bool,
    embedFields: seq<Field>)
  {
    function Name(): string { name }
    function DBName(): string { dbName }
    function Type(): string { typeName }
    function Tags(): map<string, string> { tags }
    function Comment(): string { comment }
    function Column(): Option<Plugin.Column> { column }
    function EmbedFields(): seq<Field> { embedFields }
    function IsPrimaryKey(): bool { isPrimaryKey }
  }

  /** Go's zero value of model.Field. */
  const ZeroField := Field("", "", "", map[], "", None, false, [])

  /**
   * A generated struct (model.Struct): `typeName` and `packageName` are its
   * `Type().TypeName()` and `Type().PackageName()`, `fullTableName` its
   * `FullTableName()`, `hasPrimaryKey` its `HasPrimaryKey()`.
   */
  datatype Struct = Struct(
    typeName: string,
    packageName: string,
    fullTableName: string,
    hasPrimaryKey: bool,
    fields: seq<Field>)

  /** Every accessor returns the value the field was built with, embedded fields in their stored order. */
  lemma AccessorsReturnStored(
    name: string, dbName: string, typeName: string, tags: map<string, string>, comment: string,
    column: Option<Plugin.Column>, isPrimaryKey: bool, embedFields: seq<Field>)
    ensures var f := Field(name, dbName, typeName, tags, comment, column, isPrimaryKey, embedFields);
      && f.Name() == name && f.DBName() == dbName && f.Type() == typeName
      && f.Tags() == tags && f.Comment() == comment && f.Column() == column
      && f.IsPrimaryKey() == isPrimaryKey
      && |f.EmbedFields()| == |embedFields|
      && (forall i :: 0 <= i < |embedFields| ==> f.EmbedFields()[i] == embedFields[i])
  {
  }
}
