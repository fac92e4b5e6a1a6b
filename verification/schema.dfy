/**
 * The schema snapshot value types (src-tauri/src/models/schema.rs). All of
 * them derive `PartialEq`, which is Dafny's structural datatype equality.
 */
module Schema {
  import opened Wrappers
  import opened Ints

  datatype Column = Column(
    name: string,
    data_type: string,
    nullable: bool,
    default_value: Option<string>,
    auto_increment: bool,
    comment: Option<string>,
    ordinal_position: u32)

  datatype PrimaryKey = PrimaryKey(name: Option<string>, columns: seq<string>)

  datatype Index = Index(name: string, columns: seq<string>, unique: bool, index_type: string)

  datatype ForeignKey = ForeignKey(
    name: string,
    columns: seq<string>,
    ref_table: string,
    ref_columns: seq<string>,
    on_delete: string,
    on_update: string)

  datatype UniqueConstraint = UniqueConstraint(name: string, columns: seq<string>)

  datatype TableSchema = TableSchema(
    name: string,
    columns: seq<Column>,
    primary_key: Option<PrimaryKey>,
    indexes: seq<Index>,
    foreign_keys: seq<ForeignKey>,
    unique_constraints: seq<UniqueConstraint>)

  // Identity keys used to match objects across two snapshots.
  function TableName(t: TableSchema): string { t.name }
  function ColumnName(c: Column): string { c.name }
  function IndexName(i: Index): string { i.name }
  function ForeignKeyName(f: ForeignKey): string { f.name }
  function UniqueName(u: UniqueConstraint): string { u.name }
}
