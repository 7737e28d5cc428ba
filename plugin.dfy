/**
 * The records that sqlc's plugin protocol hands to the generator: identifiers,
 * columns and schemas of an already parsed catalogue. They are inputs only.
 */
module Plugin {

  /** A possibly schema-qualified name (plugin.Identifier). */
  datatype Identifier = Identifier(catalog: string, schema: string, name: string)

  /**
   * A column of a table or of a query result (plugin.Column). `arrayDims`
   * is a count of array dimensions; `isSqlcSlice` marks a `sqlc.slice()`
   * bind parameter.
   */
  datatype Column = Column(
    name: string,
    originalName: string,
    notNull: bool,
    unsigned: bool,
    isArray: bool,
    arrayDims: nat,
    isSqlcSlice: bool,
    table: Identifier,
    typ: Identifier)

  datatype Enum = Enum(name: string, vals: seq<string>)

  datatype CompositeType = CompositeType(name: string)

  datatype Schema = Schema(name: string, enums: seq<Enum>, compositeTypes: seq<CompositeType>)
}
