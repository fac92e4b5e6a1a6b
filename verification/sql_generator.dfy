/**
 * The `SqlGenerator` interface (src-tauri/src/db/traits.rs) as a record of
 * its twelve operations, the two dialects that implement it, and the choice
 * of dialect per database kind (src-tauri/src/main.rs).
 */
module Generators {
  import opened Wrappers
  import opened Text
  import opened Schema
  import opened SqlCommon
  import Connection
  import MySqlGen
  import PostgresGen

  datatype SqlGenerator = SqlGenerator(
    quoteIdentifier: string -> string,
    createTable: TableSchema -> string,
    dropTable: string -> string,
    addColumn: (string, Column) -> string,
    dropColumn: (string, string) -> string,
    modifyColumn: (string, Column) -> string,
    addIndex: (string, Index) -> string,
    dropIndex: (string, string) -> string,
    addForeignKey: (string, ForeignKey) -> string,
    dropForeignKey: (string, string) -> string,
    addUnique: (string, UniqueConstraint) -> string,
    dropUnique: (string, string) -> string)

  datatype Dialect = MySqlDialect | PostgresDialect

  /** The identifier delimiter of each dialect. */
  function QuoteChar(d: Dialect): char
  {
    match d
    case MySqlDialect => MySqlGen.Backtick
    case PostgresDialect => PostgresGen.DoubleQuote
  }

  function Generator(d: Dialect): (g: SqlGenerator)
    ensures forall name :: Undelimit(g.quoteIdentifier(name), QuoteChar(d)) == Some(name)
  {
    match d
    case MySqlDialect =>
      SqlGenerator(
        MySqlGen.QuoteIdentifier, MySqlGen.CreateTable, MySqlGen.DropTable, MySqlGen.AddColumn,
        MySqlGen.DropColumn, MySqlGen.ModifyColumn, MySqlGen.AddIndex, MySqlGen.DropIndex,
        MySqlGen.AddForeignKey, MySqlGen.DropForeignKey, MySqlGen.AddUnique, MySqlGen.DropUnique)
    case PostgresDialect =>
      SqlGenerator(
        PostgresGen.QuoteIdentifier, PostgresGen.CreateTable, PostgresGen.DropTable, PostgresGen.AddColumn,
        PostgresGen.DropColumn, PostgresGen.ModifyColumn, PostgresGen.AddIndex, PostgresGen.DropIndex,
        PostgresGen.AddForeignKey, PostgresGen.DropForeignKey, PostgresGen.AddUnique, PostgresGen.DropUnique)
  }

  /** MySQL and MariaDB connections share the MySQL driver and so its generator. */
  function DialectOf(t: Connection.DbType): (d: Dialect)
    ensures d == PostgresDialect <==> t == Connection.PostgreSQL
  {
    match t
    case MySQL => MySqlDialect
    case MariaDB => MySqlDialect
    case PostgreSQL => PostgresDialect
  }

  // ---------------------------------------------------------------------------
  // Templates shared by both dialects, parameterised by the quoting function
  // ---------------------------------------------------------------------------

  function AddIndexTemplate(q: string -> string, table: string, idx: Index): string
  {
    "CREATE " + KindKeyword(idx.unique) + " " + q(idx.name) + " ON " + q(table) + (" (" + QuoteList(idx.columns, q) + ");")
  }

  function AddForeignKeyTemplate(q: string -> string, table: string, fk: ForeignKey): string
  {
    "ALTER TABLE " + q(table) + " ADD CONSTRAINT " + q(fk.name)
    + (" FOREIGN KEY (" + QuoteList(fk.columns, q) + ") REFERENCES " + q(fk.ref_table) + " ("
       + QuoteList(fk.ref_columns, q) + ") ON DELETE " + fk.on_delete + " ON UPDATE " + fk.on_update + ";")
  }

  function AddUniqueTemplate(q: string -> string, table: string, uc: UniqueConstraint): string
  {
    "ALTER TABLE " + q(table) + " ADD CONSTRAINT " + q(uc.name) + (" UNIQUE (" + QuoteList(uc.columns, q) + ");")
  }

  /**
   * Adding an index, a foreign key or a unique constraint, and dropping a
   * table or a column, is the same text in both dialects up to identifier
   * quoting; referential actions are copied verbatim.
   */
  lemma SharedTemplates(d: Dialect, table: string, column: string, idx: Index, fk: ForeignKey, uc: UniqueConstraint)
    ensures var g := Generator(d);
      && g.addIndex(table, idx) == AddIndexTemplate(g.quoteIdentifier, table, idx)
      && g.addForeignKey(table, fk) == AddForeignKeyTemplate(g.quoteIdentifier, table, fk)
      && g.addUnique(table, uc) == AddUniqueTemplate(g.quoteIdentifier, table, uc)
      && g.dropTable(table) == "DROP TABLE " + g.quoteIdentifier(table) + ";"
      && g.dropColumn(table, column) == "ALTER TABLE " + g.quoteIdentifier(table) + " DROP COLUMN " + g.quoteIdentifier(column) + ";"
  {
  }

  /** Quoting is injective in both dialects, so distinct names never render alike. */
  lemma QuoteInjective(d: Dialect, a: string, b: string)
    ensures Generator(d).quoteIdentifier(a) == Generator(d).quoteIdentifier(b) <==> a == b
  {
    var g := Generator(d);
    if g.quoteIdentifier(a) == g.quoteIdentifier(b) {
      assert Some(a) == Undelimit(g.quoteIdentifier(a), QuoteChar(d)) == Some(b);
    }
  }

  /**
   * The dialects part ways when dropping: MySQL names the table when dropping
   * an index and drops a unique constraint as an index, so its foreign-key
   * and unique drops differ; PostgreSQL drops an index by name alone and both
   * constraints by the same statement.
   */
  lemma DropForms(table: string, other: string, name: string)
    ensures Generator(PostgresDialect).dropIndex(table, name) == Generator(PostgresDialect).dropIndex(other, name)
    ensures Generator(PostgresDialect).dropForeignKey(table, name) == Generator(PostgresDialect).dropUnique(table, name)
    ensures Generator(MySqlDialect).dropIndex(table, name) == Generator(MySqlDialect).dropIndex(other, name) <==> table == other
    ensures Generator(MySqlDialect).dropForeignKey(table, name) != Generator(MySqlDialect).dropUnique(table, name)
  {
    MySqlGen.DropStatementsDetermineTargets(table, name, other, name);
    MySqlGen.ForeignKeyAndUniqueDropsDiffer(table, name, table, name);
  }

  /** CREATE TABLE opens the same way in both dialects. */
  lemma CreateTableOpening(d: Dialect, t: TableSchema)
    ensures StartsWith(Generator(d).createTable(t), "CREATE TABLE " + Generator(d).quoteIdentifier(t.name) + " (\n")
  {
    match d
    case MySqlDialect => MySqlGen.CreateTableFrame(t);
    case PostgresDialect => PostgresGen.CreateTableOpens(t);
  }
}
