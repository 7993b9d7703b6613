/**
 * The records the SQL parser produces (sql_parser.py:12-53) and hands to the
 * DBML generator.  A `None` field stands for Python's `None`.
 */
module Schema {
  import opened Wrappers

  datatype Column = Column(
    name: string,
    dataType: string,
    isPrimaryKey: bool,
    isForeignKey: bool,
    isNotNull: bool,
    defaultValue: Option<string>,
    constraints: seq<string>,
    referencesTable: Option<string>,
    referencesColumn: Option<string>)

  datatype ForeignKey = ForeignKey(
    column: string,
    referencesTable: string,
    referencesColumn: string,
    constraintName: string)

  datatype Table = Table(
    name: string,
    columns: seq<Column>,
    primaryKeys: seq<string>,
    foreignKeys: seq<ForeignKey>,
    indexes: seq<string>,
    constraints: seq<string>)

  /** One entry of `get_relationships` (sql_parser.py:274-280). */
  datatype Relationship = Relationship(
    fromTable: string,
    fromColumn: string,
    toTable: string,
    toColumn: string,
    constraintName: string)

  /** A column as `_parse_column_definition` builds it: not yet annotated as a foreign key. */
  predicate IsUnannotated(c: Column) {
    !c.isForeignKey && c.referencesTable.None? && c.referencesColumn.None?
  }

  /** Table names are the keys of the parser's dictionary, so they are unique. */
  predicate DistinctNames(tables: seq<Table>) {
    forall i, j :: 0 <= i < j < |tables| ==> tables[i].name != tables[j].name
  }
}
