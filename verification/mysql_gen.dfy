/**
 * The MySQL statement builder (`impl SqlGenerator for MySqlDriver`,
 * src-tauri/src/db/mysql.rs). MariaDB connections use it too. Identifiers are
 * back-quoted with inner back-quotes doubled; default values and referential
 * actions are emitted verbatim.
 */
module MySqlGen {
  import opened Wrappers
  import opened Text
  import opened Seqs
  import opened Schema
  import opened SqlCommon

  const Backtick: char := '`'

  /** `` `name` `` with every inner back-quote doubled; it always reads back to `name`. */
  function QuoteIdentifier(name: string): (r: string)
    ensures Undelimit(r, Backtick) == Some(name)
  {
    UndelimitDelimit(name, Backtick);
    Delimit(name, Backtick)
  }

  /** The quoted names joined by ", ". */
  function QuoteAll(names: seq<string>): string
  {
    QuoteList(names, QuoteIdentifier)
  }

  /** A comment as a single-quoted SQL literal; it always reads back to the comment text. */
  function CommentLiteral(comment: string): (r: string)
    ensures Undelimit(r, '\'') == Some(comment)
  {
    UndelimitDelimit(comment, '\'');
    Delimit(comment, '\'')
  }

  function NotNullClause(c: Column): (r: string)
    ensures r == " NOT NULL" <==> !c.nullable
    ensures r == "" <==> c.nullable
  {
    if !c.nullable then " NOT NULL" else ""
  }

  function AutoIncrementClause(c: Column): (r: string)
    ensures r == " AUTO_INCREMENT" <==> c.auto_increment
    ensures r == "" <==> !c.auto_increment
  {
    if c.auto_increment then " AUTO_INCREMENT" else ""
  }

  /** The comment as a literal with quotes doubled (see `CommentLiteral`). */
  function CommentClause(c: Column): (r: string)
    ensures c.comment.None? <==> r == ""
    ensures c.comment.Some? ==> r == " COMMENT " + CommentLiteral(c.comment.value)
  {
    match c.comment
    case Some(x) => " COMMENT " + CommentLiteral(x)
    case None => ""
  }

  /** The modifiers written after the column type, in the fixed order NOT NULL, DEFAULT, AUTO_INCREMENT, COMMENT. */
  function ColumnModifiers(c: Column): string
  {
    NotNullClause(c) + DefaultClause(c) + AutoIncrementClause(c) + CommentClause(c)
  }

  /** `` `name` type modifiers ``, shared by create, add and modify. */
  function ColumnDefinition(c: Column): string
  {
    QuoteIdentifier(c.name) + (" " + c.data_type + ColumnModifiers(c))
  }

  // ---------------------------------------------------------------------------
  // generate_create_table
  // ---------------------------------------------------------------------------

  function PrimaryKeyParts(pk: Option<PrimaryKey>): seq<string>
  {
    match pk
    case None => []
    case Some(p) => ["  PRIMARY KEY (" + QuoteAll(p.columns) + ")"]
  }

  function InlineIndex(idx: Index): string
  {
    "  " + KindKeyword(idx.unique) + " " + QuoteIdentifier(idx.name) + " (" + QuoteAll(idx.columns) + ")"
  }

  function InlineUnique(uc: UniqueConstraint): string
  {
    "  CONSTRAINT " + QuoteIdentifier(uc.name) + " UNIQUE (" + QuoteAll(uc.columns) + ")"
  }

  function InlineForeignKey(fk: ForeignKey): string
  {
    "  CONSTRAINT " + QuoteIdentifier(fk.name) + " FOREIGN KEY (" + QuoteAll(fk.columns) + ") REFERENCES "
    + QuoteIdentifier(fk.ref_table) + " (" + QuoteAll(fk.ref_columns) + ") ON DELETE " + fk.on_delete
    + " ON UPDATE " + fk.on_update
  }

  function ColumnPart(c: Column): string
  {
    "  " + ColumnDefinition(c)
  }

  /**
   * The comma-separated body of CREATE TABLE: every column in order, then the
   * primary key if any, then every index inline, then every unique
   * constraint, then every foreign key.
   */
  function CreateTableParts(t: TableSchema): (parts: seq<string>)
    ensures var pk := if t.primary_key.Some? then 1 else 0;
            var nc := |t.columns|;
            var ni := |t.indexes|;
            var nu := |t.unique_constraints|;
            && |parts| == nc + pk + ni + nu + |t.foreign_keys|
            && (forall i :: 0 <= i < nc ==> parts[i] == ColumnPart(t.columns[i]))
            && (t.primary_key.Some? ==> parts[nc] == "  PRIMARY KEY (" + QuoteAll(t.primary_key.value.columns) + ")")
            && (forall i :: 0 <= i < ni ==> parts[nc + pk + i] == InlineIndex(t.indexes[i]))
            && (forall i :: 0 <= i < nu ==> parts[nc + pk + ni + i] == InlineUnique(t.unique_constraints[i]))
            && (forall i :: 0 <= i < |t.foreign_keys| ==> parts[nc + pk + ni + nu + i] == InlineForeignKey(t.foreign_keys[i]))
  {
    Map(t.columns, ColumnPart) + PrimaryKeyParts(t.primary_key) + Map(t.indexes, InlineIndex)
    + Map(t.unique_constraints, InlineUnique) + Map(t.foreign_keys, InlineForeignKey)
  }

  /** The table's name reads back from the statement. */
  function CreateTable(t: TableSchema): (r: string)
    ensures Names(r, "CREATE TABLE ", t.name, Backtick)
  {
    NamesOf("CREATE TABLE ", t.name, " (\n" + Join(CreateTableParts(t), ",\n") + "\n);", Backtick);
    "CREATE TABLE " + QuoteIdentifier(t.name) + (" (\n" + Join(CreateTableParts(t), ",\n") + "\n);")
  }

  // ---------------------------------------------------------------------------
  // The remaining statements
  // ---------------------------------------------------------------------------

  // Each statement's contract says which names read back from it, and where:
  // the table and the object it adds or drops can be recovered from the text.

  function DropTable(table: string): (r: string)
    ensures Names(r, "DROP TABLE ", table, Backtick)
    ensures NamesThen(r, "DROP TABLE ", table, ";", Backtick)
  {
    NamesOf("DROP TABLE ", table, ";", Backtick);
    "DROP TABLE " + QuoteIdentifier(table) + ";"
  }

  function AddColumn(table: string, c: Column): (r: string)
    ensures NamesTwo(r, "ALTER TABLE ", table, " ADD COLUMN ", c.name, Backtick)
  {
    NamesTwoOfPart("ALTER TABLE ", table, " ADD COLUMN ", c.name, " " + c.data_type + ColumnModifiers(c), ";", Backtick);
    "ALTER TABLE " + QuoteIdentifier(table) + " ADD COLUMN " + ColumnDefinition(c) + ";"
  }

  function DropColumn(table: string, column: string): (r: string)
    ensures NamesTwo(r, "ALTER TABLE ", table, " DROP COLUMN ", column, Backtick)
    ensures NamesTwoThen(r, "ALTER TABLE ", table, " DROP COLUMN ", column, ";", Backtick)
  {
    NamesTwoOf("ALTER TABLE ", table, " DROP COLUMN ", column, ";", Backtick);
    "ALTER TABLE " + QuoteIdentifier(table) + " DROP COLUMN " + QuoteIdentifier(column) + ";"
  }

  /** The whole definition is restated, so every attribute of the column is replaced. */
  function ModifyColumn(table: string, c: Column): (r: string)
    ensures NamesTwo(r, "ALTER TABLE ", table, " MODIFY COLUMN ", c.name, Backtick)
  {
    NamesTwoOfPart("ALTER TABLE ", table, " MODIFY COLUMN ", c.name, " " + c.data_type + ColumnModifiers(c), ";", Backtick);
    "ALTER TABLE " + QuoteIdentifier(table) + " MODIFY COLUMN " + ColumnDefinition(c) + ";"
  }

  function AddIndex(table: string, idx: Index): (r: string)
    ensures NamesTwo(r, "CREATE " + KindKeyword(idx.unique) + " ", idx.name, " ON ", table, Backtick)
    ensures StartsWith(r, "CREATE UNIQUE INDEX ") <==> idx.unique
  {
    NamesTwoOf("CREATE " + KindKeyword(idx.unique) + " ", idx.name, " ON ", table, " (" + QuoteAll(idx.columns) + ");", Backtick);
    KindKeywordLeads(idx.unique, QuoteIdentifier(idx.name), " ON ", QuoteIdentifier(table), " (" + QuoteAll(idx.columns) + ");");
    "CREATE " + KindKeyword(idx.unique) + " " + QuoteIdentifier(idx.name) + " ON " + QuoteIdentifier(table)
    + (" (" + QuoteAll(idx.columns) + ");")
  }

  function DropIndex(table: string, index: string): (r: string)
    ensures NamesTwo(r, "DROP INDEX ", index, " ON ", table, Backtick)
    ensures NamesTwoThen(r, "DROP INDEX ", index, " ON ", table, ";", Backtick)
  {
    NamesTwoOf("DROP INDEX ", index, " ON ", table, ";", Backtick);
    "DROP INDEX " + QuoteIdentifier(index) + " ON " + QuoteIdentifier(table) + ";"
  }

  function AddForeignKey(table: string, fk: ForeignKey): (r: string)
    ensures NamesTwo(r, "ALTER TABLE ", table, " ADD CONSTRAINT ", fk.name, Backtick)
  {
    NamesTwoOf("ALTER TABLE ", table, " ADD CONSTRAINT ", fk.name,
               " FOREIGN KEY (" + QuoteAll(fk.columns) + ") REFERENCES " + QuoteIdentifier(fk.ref_table) + " ("
               + QuoteAll(fk.ref_columns) + ") ON DELETE " + fk.on_delete + " ON UPDATE " + fk.on_update + ";", Backtick);
    "ALTER TABLE " + QuoteIdentifier(table) + " ADD CONSTRAINT " + QuoteIdentifier(fk.name)
    + (" FOREIGN KEY (" + QuoteAll(fk.columns) + ") REFERENCES " + QuoteIdentifier(fk.ref_table) + " ("
       + QuoteAll(fk.ref_columns) + ") ON DELETE " + fk.on_delete + " ON UPDATE " + fk.on_update + ";")
  }

  function DropForeignKey(table: string, fk: string): (r: string)
    ensures NamesTwo(r, "ALTER TABLE ", table, " DROP FOREIGN KEY ", fk, Backtick)
    ensures NamesTwoThen(r, "ALTER TABLE ", table, " DROP FOREIGN KEY ", fk, ";", Backtick)
  {
    NamesTwoOf("ALTER TABLE ", table, " DROP FOREIGN KEY ", fk, ";", Backtick);
    "ALTER TABLE " + QuoteIdentifier(table) + " DROP FOREIGN KEY " + QuoteIdentifier(fk) + ";"
  }

  function AddUnique(table: string, uc: UniqueConstraint): (r: string)
    ensures NamesTwo(r, "ALTER TABLE ", table, " ADD CONSTRAINT ", uc.name, Backtick)
  {
    NamesTwoOf("ALTER TABLE ", table, " ADD CONSTRAINT ", uc.name, " UNIQUE (" + QuoteAll(uc.columns) + ");", Backtick);
    "ALTER TABLE " + QuoteIdentifier(table) + " ADD CONSTRAINT " + QuoteIdentifier(uc.name)
    + (" UNIQUE (" + QuoteAll(uc.columns) + ");")
  }

  /** A unique constraint is backed by an index, so it is dropped as one. */
  function DropUnique(table: string, uc: string): (r: string)
    ensures NamesTwo(r, "ALTER TABLE ", table, " DROP INDEX ", uc, Backtick)
    ensures NamesTwoThen(r, "ALTER TABLE ", table, " DROP INDEX ", uc, ";", Backtick)
  {
    NamesTwoOf("ALTER TABLE ", table, " DROP INDEX ", uc, ";", Backtick);
    "ALTER TABLE " + QuoteIdentifier(table) + " DROP INDEX " + QuoteIdentifier(uc) + ";"
  }

  // ---------------------------------------------------------------------------
  // Properties
  // ---------------------------------------------------------------------------

  /**
   * The column definition in full: the quoted name, the declared type, then
   * NOT NULL, DEFAULT, AUTO_INCREMENT and COMMENT, each present only when the
   * column calls for it, and always in that order.
   */
  lemma ColumnDefinitionOrder(c: Column)
    ensures ColumnDefinition(c) ==
      QuoteIdentifier(c.name) + " " + c.data_type
      + (if !c.nullable then " NOT NULL" else "")
      + (if c.default_value.Some? then " DEFAULT " + c.default_value.value else "")
      + (if c.auto_increment then " AUTO_INCREMENT" else "")
      + (if c.comment.Some? then " COMMENT " + CommentLiteral(c.comment.value) else "")
  {
    var n, d, a, k := NotNullClause(c), DefaultClause(c), AutoIncrementClause(c), CommentClause(c);
    assert n == (if !c.nullable then " NOT NULL" else "");
    assert d == (if c.default_value.Some? then " DEFAULT " + c.default_value.value else "");
    assert a == (if c.auto_increment then " AUTO_INCREMENT" else "");
    assert k == (if c.comment.Some? then " COMMENT " + CommentLiteral(c.comment.value) else "");
    assert ColumnDefinition(c) == QuoteIdentifier(c.name) + (" " + c.data_type + (n + d + a + k));
    Regroup(QuoteIdentifier(c.name), " ", c.data_type, n, d, a, k);
  }

  lemma Regroup(x: string, y: string, z: string, n: string, d: string, a: string, k: string)
    ensures x + (y + z + (n + d + a + k)) == x + y + z + n + d + a + k
  {
  }

  /**
   * Two drop statements of one kind are the same text exactly when they drop
   * the same object of the same table.
   */
  lemma DropStatementsDetermineTargets(t1: string, n1: string, t2: string, n2: string)
    ensures DropTable(t1) == DropTable(t2) <==> t1 == t2
    ensures DropColumn(t1, n1) == DropColumn(t2, n2) <==> t1 == t2 && n1 == n2
    ensures DropIndex(t1, n1) == DropIndex(t2, n2) <==> t1 == t2 && n1 == n2
    ensures DropForeignKey(t1, n1) == DropForeignKey(t2, n2) <==> t1 == t2 && n1 == n2
    ensures DropUnique(t1, n1) == DropUnique(t2, n2) <==> t1 == t2 && n1 == n2
  {
    if DropColumn(t1, n1) == DropColumn(t2, n2) {
      NamesTwoUnique(DropColumn(t1, n1), "ALTER TABLE ", " DROP COLUMN ", t1, n1, t2, n2, Backtick);
    }
    if DropIndex(t1, n1) == DropIndex(t2, n2) {
      NamesTwoUnique(DropIndex(t1, n1), "DROP INDEX ", " ON ", n1, t1, n2, t2, Backtick);
    }
    if DropForeignKey(t1, n1) == DropForeignKey(t2, n2) {
      NamesTwoUnique(DropForeignKey(t1, n1), "ALTER TABLE ", " DROP FOREIGN KEY ", t1, n1, t2, n2, Backtick);
    }
    if DropUnique(t1, n1) == DropUnique(t2, n2) {
      NamesTwoUnique(DropUnique(t1, n1), "ALTER TABLE ", " DROP INDEX ", t1, n1, t2, n2, Backtick);
    }
  }

  /**
   * Unlike in PostgreSQL, dropping a foreign key and dropping a unique
   * constraint never produce the same statement.
   */
  lemma ForeignKeyAndUniqueDropsDiffer(t1: string, n1: string, t2: string, n2: string)
    ensures DropForeignKey(t1, n1) != DropUnique(t2, n2)
  {
    assert " DROP FOREIGN KEY "[6] == 'F' && " DROP INDEX "[6] == 'I';
    NamesTwoApart(DropForeignKey(t1, n1), DropUnique(t2, n2), "ALTER TABLE ", " DROP FOREIGN KEY ", " DROP INDEX ",
                  t1, n1, t2, n2, Backtick, 6);
  }

  /** " NOT NULL" follows the type exactly when the column is not nullable. */
  lemma NotNullIffNotNullable(c: Column)
    ensures StartsWith(ColumnModifiers(c), " NOT NULL") <==> !c.nullable
  {
    if c.nullable {
      NullableModifiersSkipNotNull(c);
    } else {
      assert ColumnModifiers(c) == " NOT NULL" + (DefaultClause(c) + AutoIncrementClause(c) + CommentClause(c));
    }
  }

  lemma NullableModifiersSkipNotNull(c: Column)
    requires c.nullable
    ensures |ColumnModifiers(c)| < 2 || ColumnModifiers(c)[1] != 'N'
  {
    var d, a, k := DefaultClause(c), AutoIncrementClause(c), CommentClause(c);
    assert ColumnModifiers(c) == d + (a + k);
    SecondChar(d, a + k);
    SecondChar(a, k);
  }

  /**
   * Create, add and modify render a column identically: add and modify differ
   * only in the ADD/MODIFY keyword, and the CREATE TABLE part is the same
   * definition indented.
   */
  lemma ColumnRenderedAlike(table: string, c: Column)
    ensures exists def ::
      && AddColumn(table, c) == "ALTER TABLE " + QuoteIdentifier(table) + " ADD COLUMN " + def + ";"
      && ModifyColumn(table, c) == "ALTER TABLE " + QuoteIdentifier(table) + " MODIFY COLUMN " + def + ";"
      && ColumnPart(c) == "  " + def
      && StartsWith(def, QuoteIdentifier(c.name) + " " + c.data_type)
  {
    var def := ColumnDefinition(c);
    var head := QuoteIdentifier(c.name) + " " + c.data_type;
    assert def == head + ColumnModifiers(c);
    assert def[..|head|] == head;
    assert AddColumn(table, c) == "ALTER TABLE " + QuoteIdentifier(table) + " ADD COLUMN " + def + ";";
    assert ModifyColumn(table, c) == "ALTER TABLE " + QuoteIdentifier(table) + " MODIFY COLUMN " + def + ";";
  }

  /**
   * The parts of CREATE TABLE are separated by ",\n": a foreign key added to
   * a table (whose inline form comes last) goes in just before the closing
   * "\n);", after ",\n" unless it is the only part.
   */
  lemma CreateTableAddForeignKey(t: TableSchema, fk: ForeignKey)
    ensures var s := CreateTable(t);
      |s| >= 3 &&
      CreateTable(t.(foreign_keys := t.foreign_keys + [fk])) ==
        s[..|s| - 3] + (if |CreateTableParts(t)| == 0 then "" else ",\n") + InlineForeignKey(fk) + "\n);"
  {
    var t' := t.(foreign_keys := t.foreign_keys + [fk]);
    CreateTableShape(t);
    ShapeAddForeignKey(t, fk);
    FramedSnocOf(CreateTable(t), CreateTable(t'), "CREATE TABLE " + QuoteIdentifier(t.name), " (\n", CreateTableParts(t),
                 InlineForeignKey(fk), ",\n", "\n);");
  }

  lemma CreateTableShape(t: TableSchema)
    ensures CreateTable(t) == "CREATE TABLE " + QuoteIdentifier(t.name) + (" (\n" + Join(CreateTableParts(t), ",\n") + "\n);")
  {
  }

  lemma PartsAddForeignKey(t: TableSchema, fk: ForeignKey)
    ensures CreateTableParts(t.(foreign_keys := t.foreign_keys + [fk])) == CreateTableParts(t) + [InlineForeignKey(fk)]
  {
    MapAppend(t.foreign_keys, [fk], InlineForeignKey);
  }

  lemma ShapeAddForeignKey(t: TableSchema, fk: ForeignKey)
    ensures CreateTable(t.(foreign_keys := t.foreign_keys + [fk])) ==
      "CREATE TABLE " + QuoteIdentifier(t.name) + (" (\n" + Join(CreateTableParts(t) + [InlineForeignKey(fk)], ",\n") + "\n);")
  {
    PartsAddForeignKey(t, fk);
    CreateTableShape(t.(foreign_keys := t.foreign_keys + [fk]));
  }

  /** CREATE TABLE opens with the quoted name and closes with "\n);". */
  lemma CreateTableFrame(t: TableSchema)
    ensures StartsWith(CreateTable(t), "CREATE TABLE " + QuoteIdentifier(t.name) + " (\n")
    ensures var s := CreateTable(t); |s| >= 3 && s[|s| - 3..] == "\n);"
  {
  }
}
