/**
 * The PostgreSQL statement builder (`impl SqlGenerator for PostgresDriver`,
 * src-tauri/src/db/postgres.rs). Identifiers are double-quoted with inner
 * double quotes doubled. Auto-increment columns are written as SERIAL, column
 * comments are never emitted, and indexes are created by separate statements
 * after CREATE TABLE.
 */
module PostgresGen {
  import opened Wrappers
  import opened Text
  import opened Seqs
  import opened Schema
  import opened SqlCommon

  const DoubleQuote: char := '"'

  /** `"name"` with every inner double quote doubled; it always reads back to `name`. */
  function QuoteIdentifier(name: string): (r: string)
    ensures Undelimit(r, DoubleQuote) == Some(name)
  {
    UndelimitDelimit(name, DoubleQuote);
    Delimit(name, DoubleQuote)
  }

  /** The quoted names joined by ", ". */
  function QuoteAll(names: seq<string>): string
  {
    QuoteList(names, QuoteIdentifier)
  }

  /** The type written for a column: SERIAL replaces the declared type of an auto-increment column. */
  function ColumnType(c: Column): (r: string)
    ensures c.auto_increment ==> r == "SERIAL"
    ensures !c.auto_increment ==> r == c.data_type
  {
    if c.auto_increment then "SERIAL" else c.data_type
  }

  /** SERIAL already implies NOT NULL, so it is written only for plain non-nullable columns. */
  function NotNullClause(c: Column): (r: string)
    ensures r == " NOT NULL" <==> !c.nullable && !c.auto_increment
    ensures r == "" <==> c.nullable || c.auto_increment
  {
    if !c.nullable && !c.auto_increment then " NOT NULL" else ""
  }

  /** The modifiers after the type: NOT NULL, then DEFAULT. */
  function ColumnModifiers(c: Column): string
  {
    NotNullClause(c) + DefaultClause(c)
  }

  /** `"name" type modifiers`, shared by create and add. */
  function ColumnDefinition(c: Column): string
  {
    QuoteIdentifier(c.name) + (" " + ColumnType(c) + ColumnModifiers(c))
  }

  // ---------------------------------------------------------------------------
  // generate_create_table
  // ---------------------------------------------------------------------------

  function ColumnPart(c: Column): string
  {
    "  " + ColumnDefinition(c)
  }

  function PrimaryKeyParts(pk: Option<PrimaryKey>): seq<string>
  {
    match pk
    case None => []
    case Some(p) => ["  PRIMARY KEY (" + QuoteAll(p.columns) + ")"]
  }

  function InlineUnique(uc: UniqueConstraint): string
  {
    "  CONSTRAINT " + QuoteIdentifier(uc.name) + " UNIQUE (" + QuoteAll(uc.columns) + ")"
  }

  function InlineForeignKey(fk: ForeignKey): string
  {
    "  CONSTRAINT " + QuoteIdentifier(fk.name) + " FOREIGN KEY (" + QuoteAll(fk.columns) + ") REFERENCES "
    + QuoteIdentifier(fk.ref_table) + " (" + QuoteAll(fk.ref_columns) + ") ON DELETE " + fk.on_delete
    + " ON UPDATE " + fk.on_update
  }

  /**
   * The comma-separated body of CREATE TABLE: every column in order, then the
   * primary key if any, then every unique constraint, then every foreign key.
   * Indexes have no inline form here.
   */
  function CreateTableParts(t: TableSchema): (parts: seq<string>)
    ensures var pk := if t.primary_key.Some? then 1 else 0;
            var nc := |t.columns|;
            var nu := |t.unique_constraints|;
            && |parts| == nc + pk + nu + |t.foreign_keys|
            && (forall i :: 0 <= i < nc ==> parts[i] == ColumnPart(t.columns[i]))
            && (t.primary_key.Some? ==> parts[nc] == "  PRIMARY KEY (" + QuoteAll(t.primary_key.value.columns) + ")")
            && (forall i :: 0 <= i < nu ==> parts[nc + pk + i] == InlineUnique(t.unique_constraints[i]))
            && (forall i :: 0 <= i < |t.foreign_keys| ==> parts[nc + pk + nu + i] == InlineForeignKey(t.foreign_keys[i]))
  {
    Map(t.columns, ColumnPart) + PrimaryKeyParts(t.primary_key)
    + Map(t.unique_constraints, InlineUnique) + Map(t.foreign_keys, InlineForeignKey)
  }

  /** One "\nCREATE ... ON table (...);" per index, in order. */
  function TrailingIndexes(table: string, idxs: seq<Index>): string
  {
    if idxs == [] then ""
    else TrailingIndexes(table, idxs[..|idxs| - 1]) + "\n" + AddIndex(table, idxs[|idxs| - 1])
  }

  /** CREATE TABLE without the index statements; the table's name reads back from it. */
  function TableStatement(t: TableSchema): (r: string)
    ensures Names(r, "CREATE TABLE ", t.name, DoubleQuote)
  {
    NamesOf("CREATE TABLE ", t.name, " (\n" + Join(CreateTableParts(t), ",\n") + "\n);", DoubleQuote);
    "CREATE TABLE " + QuoteIdentifier(t.name) + (" (\n" + Join(CreateTableParts(t), ",\n") + "\n);")
  }

  /** The table's name reads back from the front of the whole script. */
  function CreateTable(t: TableSchema): (r: string)
    ensures Names(r, "CREATE TABLE ", t.name, DoubleQuote)
  {
    var trailing := TrailingIndexes(t.name, t.indexes);
    StatementRest(t);
    NamesExtend(TableStatement(t), "CREATE TABLE ", t.name, trailing, DoubleQuote);
    TableStatement(t) + trailing
  }

  // ---------------------------------------------------------------------------
  // The remaining statements
  // ---------------------------------------------------------------------------

  // Each statement's contract says which names read back from it, and where:
  // the table and the object it adds or drops can be recovered from the text.

  function DropTable(table: string): (r: string)
    ensures Names(r, "DROP TABLE ", table, DoubleQuote)
    ensures NamesThen(r, "DROP TABLE ", table, ";", DoubleQuote)
  {
    NamesOf("DROP TABLE ", table, ";", DoubleQuote);
    "DROP TABLE " + QuoteIdentifier(table) + ";"
  }

  function AddColumn(table: string, c: Column): (r: string)
    ensures NamesTwo(r, "ALTER TABLE ", table, " ADD COLUMN ", c.name, DoubleQuote)
  {
    NamesTwoOfPart("ALTER TABLE ", table, " ADD COLUMN ", c.name, " " + ColumnType(c) + ColumnModifiers(c), ";", DoubleQuote);
    "ALTER TABLE " + QuoteIdentifier(table) + " ADD COLUMN " + ColumnDefinition(c) + ";"
  }

  function DropColumn(table: string, column: string): (r: string)
    ensures NamesTwo(r, "ALTER TABLE ", table, " DROP COLUMN ", column, DoubleQuote)
    ensures NamesTwoThen(r, "ALTER TABLE ", table, " DROP COLUMN ", column, ";", DoubleQuote)
  {
    NamesTwoOf("ALTER TABLE ", table, " DROP COLUMN ", column, ";", DoubleQuote);
    "ALTER TABLE " + QuoteIdentifier(table) + " DROP COLUMN " + QuoteIdentifier(column) + ";"
  }

  /** Only the type changes; nullability and the default are not touched. */
  function ModifyColumn(table: string, c: Column): (r: string)
    ensures NamesTwo(r, "ALTER TABLE ", table, " ALTER COLUMN ", c.name, DoubleQuote)
    ensures NamesTwoThen(r, "ALTER TABLE ", table, " ALTER COLUMN ", c.name, " TYPE " + ColumnType(c) + ";", DoubleQuote)
  {
    NamesTwoOf("ALTER TABLE ", table, " ALTER COLUMN ", c.name, " TYPE " + ColumnType(c) + ";", DoubleQuote);
    "ALTER TABLE " + QuoteIdentifier(table) + " ALTER COLUMN " + QuoteIdentifier(c.name) + (" TYPE " + ColumnType(c) + ";")
  }

  function AddIndex(table: string, idx: Index): (r: string)
    ensures NamesTwo(r, "CREATE " + KindKeyword(idx.unique) + " ", idx.name, " ON ", table, DoubleQuote)
    ensures StartsWith(r, "CREATE UNIQUE INDEX ") <==> idx.unique
  {
    NamesTwoOf("CREATE " + KindKeyword(idx.unique) + " ", idx.name, " ON ", table, " (" + QuoteAll(idx.columns) + ");", DoubleQuote);
    KindKeywordLeads(idx.unique, QuoteIdentifier(idx.name), " ON ", QuoteIdentifier(table), " (" + QuoteAll(idx.columns) + ");");
    "CREATE " + KindKeyword(idx.unique) + " " + QuoteIdentifier(idx.name) + " ON " + QuoteIdentifier(table)
    + (" (" + QuoteAll(idx.columns) + ");")
  }

  /** Index names are schema-wide in PostgreSQL: the table is not mentioned. */
  function DropIndex(table: string, index: string): (r: string)
    ensures Names(r, "DROP INDEX ", index, DoubleQuote)
    ensures NamesThen(r, "DROP INDEX ", index, ";", DoubleQuote)
  {
    NamesOf("DROP INDEX ", index, ";", DoubleQuote);
    "DROP INDEX " + QuoteIdentifier(index) + ";"
  }

  function AddForeignKey(table: string, fk: ForeignKey): (r: string)
    ensures NamesTwo(r, "ALTER TABLE ", table, " ADD CONSTRAINT ", fk.name, DoubleQuote)
  {
    NamesTwoOf("ALTER TABLE ", table, " ADD CONSTRAINT ", fk.name,
               " FOREIGN KEY (" + QuoteAll(fk.columns) + ") REFERENCES " + QuoteIdentifier(fk.ref_table) + " ("
               + QuoteAll(fk.ref_columns) + ") ON DELETE " + fk.on_delete + " ON UPDATE " + fk.on_update + ";", DoubleQuote);
    "ALTER TABLE " + QuoteIdentifier(table) + " ADD CONSTRAINT " + QuoteIdentifier(fk.name)
    + (" FOREIGN KEY (" + QuoteAll(fk.columns) + ") REFERENCES " + QuoteIdentifier(fk.ref_table) + " ("
       + QuoteAll(fk.ref_columns) + ") ON DELETE " + fk.on_delete + " ON UPDATE " + fk.on_update + ";")
  }

  function DropForeignKey(table: string, fk: string): (r: string)
    ensures NamesTwo(r, "ALTER TABLE ", table, " DROP CONSTRAINT ", fk, DoubleQuote)
    ensures NamesTwoThen(r, "ALTER TABLE ", table, " DROP CONSTRAINT ", fk, ";", DoubleQuote)
  {
    NamesTwoOf("ALTER TABLE ", table, " DROP CONSTRAINT ", fk, ";", DoubleQuote);
    "ALTER TABLE " + QuoteIdentifier(table) + " DROP CONSTRAINT " + QuoteIdentifier(fk) + ";"
  }

  function AddUnique(table: string, uc: UniqueConstraint): (r: string)
    ensures NamesTwo(r, "ALTER TABLE ", table, " ADD CONSTRAINT ", uc.name, DoubleQuote)
  {
    NamesTwoOf("ALTER TABLE ", table, " ADD CONSTRAINT ", uc.name, " UNIQUE (" + QuoteAll(uc.columns) + ");", DoubleQuote);
    "ALTER TABLE " + QuoteIdentifier(table) + " ADD CONSTRAINT " + QuoteIdentifier(uc.name)
    + (" UNIQUE (" + QuoteAll(uc.columns) + ");")
  }

  function DropUnique(table: string, uc: string): (r: string)
    ensures NamesTwo(r, "ALTER TABLE ", table, " DROP CONSTRAINT ", uc, DoubleQuote)
    ensures NamesTwoThen(r, "ALTER TABLE ", table, " DROP CONSTRAINT ", uc, ";", DoubleQuote)
  {
    NamesTwoOf("ALTER TABLE ", table, " DROP CONSTRAINT ", uc, ";", DoubleQuote);
    "ALTER TABLE " + QuoteIdentifier(table) + " DROP CONSTRAINT " + QuoteIdentifier(uc) + ";"
  }

  // ---------------------------------------------------------------------------
  // Properties
  // ---------------------------------------------------------------------------

  /**
   * The column definition in full: the quoted name, SERIAL or the declared
   * type, then NOT NULL and DEFAULT, each present only when the column calls
   * for it. Comments and AUTO_INCREMENT never appear.
   */
  lemma ColumnDefinitionOrder(c: Column)
    ensures ColumnDefinition(c) ==
      QuoteIdentifier(c.name) + " " + (if c.auto_increment then "SERIAL" else c.data_type)
      + (if !c.nullable && !c.auto_increment then " NOT NULL" else "")
      + (if c.default_value.Some? then " DEFAULT " + c.default_value.value else "")
  {
    var n, d := NotNullClause(c), DefaultClause(c);
    assert n == (if !c.nullable && !c.auto_increment then " NOT NULL" else "");
    assert d == (if c.default_value.Some? then " DEFAULT " + c.default_value.value else "");
    Regroup(QuoteIdentifier(c.name), " ", ColumnType(c), n, d);
  }

  lemma Regroup(x: string, y: string, z: string, n: string, d: string)
    ensures x + (y + z + (n + d)) == x + y + z + n + d
  {
  }

  /**
   * Two drop statements of one kind are the same text exactly when they drop
   * the same object of the same table, except DROP INDEX, which names no
   * table: dropping same-named indexes of two tables is one statement.
   */
  lemma DropStatementsDetermineTargets(t1: string, n1: string, t2: string, n2: string)
    ensures DropTable(t1) == DropTable(t2) <==> t1 == t2
    ensures DropColumn(t1, n1) == DropColumn(t2, n2) <==> t1 == t2 && n1 == n2
    ensures DropIndex(t1, n1) == DropIndex(t2, n2) <==> n1 == n2
    ensures DropForeignKey(t1, n1) == DropForeignKey(t2, n2) <==> t1 == t2 && n1 == n2
    ensures DropUnique(t1, n1) == DropUnique(t2, n2) <==> t1 == t2 && n1 == n2
  {
    if DropColumn(t1, n1) == DropColumn(t2, n2) {
      NamesTwoUnique(DropColumn(t1, n1), "ALTER TABLE ", " DROP COLUMN ", t1, n1, t2, n2, DoubleQuote);
    }
    if DropForeignKey(t1, n1) == DropForeignKey(t2, n2) {
      NamesTwoUnique(DropForeignKey(t1, n1), "ALTER TABLE ", " DROP CONSTRAINT ", t1, n1, t2, n2, DoubleQuote);
    }
    if DropUnique(t1, n1) == DropUnique(t2, n2) {
      NamesTwoUnique(DropUnique(t1, n1), "ALTER TABLE ", " DROP CONSTRAINT ", t1, n1, t2, n2, DoubleQuote);
    }
  }

  /** " NOT NULL" follows the type exactly for a non-nullable column that is not auto-increment. */
  lemma NotNullIffPlainNotNullable(c: Column)
    ensures StartsWith(ColumnModifiers(c), " NOT NULL") <==> !c.nullable && !c.auto_increment
  {
    if c.nullable || c.auto_increment {
      SecondChar(DefaultClause(c), "");
      assert ColumnModifiers(c) == DefaultClause(c);
    }
  }

  /**
   * CREATE TABLE is the statement for the table without its indexes followed
   * by one CREATE INDEX statement per index, each on its own line.
   */
  lemma CreateTableThenIndexes(t: TableSchema)
    ensures CreateTable(t) == CreateTable(t.(indexes := [])) + TrailingIndexes(t.name, t.indexes)
  {
    TableStatementIgnoresIndexes(t, []);
    assert CreateTable(t.(indexes := [])) == TableStatement(t) + "" == TableStatement(t);
  }

  /** CREATE TABLE opens with the quoted name, before any column or index. */
  lemma CreateTableOpens(t: TableSchema)
    ensures StartsWith(CreateTable(t), "CREATE TABLE " + QuoteIdentifier(t.name) + " (\n")
  {
    StatementOpens(t);
    StartsWithExtend(TableStatement(t), "CREATE TABLE " + QuoteIdentifier(t.name) + " (\n", TrailingIndexes(t.name, t.indexes));
  }

  lemma StatementRest(t: TableSchema)
    ensures AfterName(TableStatement(t), "CREATE TABLE ", DoubleQuote).value.1 != []
  {
    var body := " (\n" + Join(CreateTableParts(t), ",\n") + "\n);";
    NamesOf("CREATE TABLE ", t.name, body, DoubleQuote);
    assert TableStatement(t) == "CREATE TABLE " + Delimit(t.name, DoubleQuote) + body;
  }

  /**
   * The inline parts are separated by ",\n": a foreign key added to a table
   * (whose inline form comes last) goes in just before the closing "\n);" of
   * the table statement, after ",\n" unless it is the only part.
   */
  lemma TableStatementAddForeignKey(t: TableSchema, fk: ForeignKey)
    ensures var s := TableStatement(t);
      |s| >= 3 &&
      TableStatement(t.(foreign_keys := t.foreign_keys + [fk])) ==
        s[..|s| - 3] + (if |CreateTableParts(t)| == 0 then "" else ",\n") + InlineForeignKey(fk) + "\n);"
  {
    var t' := t.(foreign_keys := t.foreign_keys + [fk]);
    TableStatementShape(t);
    ShapeAddForeignKey(t, fk);
    FramedSnocOf(TableStatement(t), TableStatement(t'), "CREATE TABLE " + QuoteIdentifier(t.name), " (\n", CreateTableParts(t),
                 InlineForeignKey(fk), ",\n", "\n);");
  }

  lemma TableStatementShape(t: TableSchema)
    ensures TableStatement(t) == "CREATE TABLE " + QuoteIdentifier(t.name) + (" (\n" + Join(CreateTableParts(t), ",\n") + "\n);")
  {
  }

  lemma PartsAddForeignKey(t: TableSchema, fk: ForeignKey)
    ensures CreateTableParts(t.(foreign_keys := t.foreign_keys + [fk])) == CreateTableParts(t) + [InlineForeignKey(fk)]
  {
    MapAppend(t.foreign_keys, [fk], InlineForeignKey);
  }

  lemma ShapeAddForeignKey(t: TableSchema, fk: ForeignKey)
    ensures TableStatement(t.(foreign_keys := t.foreign_keys + [fk])) ==
      "CREATE TABLE " + QuoteIdentifier(t.name) + (" (\n" + Join(CreateTableParts(t) + [InlineForeignKey(fk)], ",\n") + "\n);")
  {
    PartsAddForeignKey(t, fk);
    TableStatementShape(t.(foreign_keys := t.foreign_keys + [fk]));
  }

  lemma StatementOpens(t: TableSchema)
    ensures StartsWith(TableStatement(t), "CREATE TABLE " + QuoteIdentifier(t.name) + " (\n")
  {
  }

  /** Adding an index to a table appends exactly its CREATE INDEX statement. */
  lemma CreateTableAddIndex(t: TableSchema, idx: Index)
    ensures CreateTable(t.(indexes := t.indexes + [idx])) == CreateTable(t) + "\n" + AddIndex(t.name, idx)
  {
    var t' := t.(indexes := t.indexes + [idx]);
    TableStatementIgnoresIndexes(t, t'.indexes);
    TrailingIndexesSnoc(t.name, t.indexes, idx);
    AppendAfter(TableStatement(t), TrailingIndexes(t.name, t.indexes), TrailingIndexes(t.name, t'.indexes),
                "\n", AddIndex(t.name, idx));
  }

  lemma AppendAfter(head: string, before: string, after: string, sep: string, more: string)
    requires after == before + sep + more
    ensures head + after == head + before + sep + more
  {
  }

  lemma TableStatementIgnoresIndexes(t: TableSchema, idxs: seq<Index>)
    ensures TableStatement(t.(indexes := idxs)) == TableStatement(t)
  {
    assert CreateTableParts(t.(indexes := idxs)) == CreateTableParts(t);
  }

  lemma TrailingIndexesSnoc(table: string, idxs: seq<Index>, idx: Index)
    ensures TrailingIndexes(table, idxs + [idx]) == TrailingIndexes(table, idxs) + "\n" + AddIndex(table, idx)
  {
    assert (idxs + [idx])[..|idxs|] == idxs;
  }

  /** An auto-increment column is added as a nullable SERIAL column: the declared type and NOT NULL are dropped. */
  lemma AutoIncrementAddedAsSerial(table: string, c: Column)
    requires c.auto_increment
    ensures AddColumn(table, c) == AddColumn(table, c.(data_type := "SERIAL", nullable := true, auto_increment := false))
  {
  }

  /** Column comments never reach the generated SQL. */
  lemma CommentsIgnored(table: string, c: Column, comment: Option<string>)
    ensures AddColumn(table, c) == AddColumn(table, c.(comment := comment))
    ensures ModifyColumn(table, c) == ModifyColumn(table, c.(comment := comment))
    ensures ColumnPart(c) == ColumnPart(c.(comment := comment))
  {
  }

  /**
   * For one column name, two modify statements are equal exactly when the
   * written types are: nullability, default and comment have no effect.
   */
  lemma {:induction false} ModifyColumnOnlyType(table: string, c1: Column, c2: Column)
    requires c1.name == c2.name
    ensures ModifyColumn(table, c1) == ModifyColumn(table, c2) <==> ColumnType(c1) == ColumnType(c2)
  {
    var head := "ALTER TABLE " + QuoteIdentifier(table) + " ALTER COLUMN " + QuoteIdentifier(c1.name);
    var t1, t2 := " TYPE " + ColumnType(c1) + ";", " TYPE " + ColumnType(c2) + ";";
    var s1, s2 := ModifyColumn(table, c1), ModifyColumn(table, c2);
    assert s1 == head + t1 && s2 == head + t2;
    if s1 == s2 {
      assert t1 == s1[|head|..] == t2;
      assert t1[6..|t1| - 1] == ColumnType(c1);
      assert t2[6..|t2| - 1] == ColumnType(c2);
    }
  }

  /** Foreign keys and unique constraints are both dropped as constraints, by the same statement. */
  lemma DropConstraintShared(table: string, name: string)
    ensures DropForeignKey(table, name) == DropUnique(table, name)
    ensures DropForeignKey(table, name) == "ALTER TABLE " + QuoteIdentifier(table) + " DROP CONSTRAINT " + QuoteIdentifier(name) + ";"
  {
  }
}
