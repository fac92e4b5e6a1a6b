/**
 * The pure parts of the schema readers (src-tauri/src/db/mysql.rs and
 * src-tauri/src/db/postgres.rs): how one `information_schema` row becomes a
 * `Column`, how key-usage rows become a primary key, and how rows ordered by
 * object name are grouped into indexes, foreign keys and unique constraints.
 * The queries themselves are database I/O and are not modelled: the rows are
 * inputs. A grouped result is a map from object name to object, because the
 * source collects a `HashMap` whose iteration order is unspecified.
 */
module Introspection {
  import opened Wrappers
  import opened Text
  import opened Seqs
  import opened Ints
  import opened Schema

  // ---------------------------------------------------------------------------
  // Column rows
  // ---------------------------------------------------------------------------

  /** A row of the MySQL column query: every text cast to CHAR, the default and comment nullable. */
  datatype MySqlColumnRow = MySqlColumnRow(
    name: string,
    columnType: string,
    isNullable: string,
    columnDefault: Option<string>,
    extra: string,
    comment: Option<string>,
    position: u32)

  /**
   * The MySQL column mapping: nullable iff the database says "YES",
   * auto-increment iff "auto_increment" occurs anywhere in `extra`, and an
   * absent or empty comment becomes `None`. Name, type, default and position
   * pass through unchanged.
   */
  function MySqlColumn(row: MySqlColumnRow): (c: Column)
    ensures c.name == row.name && c.data_type == row.columnType
    ensures c.nullable <==> row.isNullable == "YES"
    ensures c.auto_increment <==> exists i :: OccursAt(row.extra, "auto_increment", i)
    ensures c.comment.Some? <==> row.comment.Some? && row.comment.value != ""
    ensures c.comment.Some? ==> c.comment == row.comment
    ensures c.default_value == row.columnDefault && c.ordinal_position == row.position
  {
    ContainsIffOccurs(row.extra, "auto_increment");
    Column(
      row.name,
      row.columnType,
      row.isNullable == "YES",
      row.columnDefault,
      Contains(row.extra, "auto_increment"),
      if row.comment.None? || row.comment.value == "" then None else row.comment,
      row.position)
  }

  /** The row MySQL reports for a column: "YES"/"NO", and "auto_increment" in `extra` exactly when set. */
  function MySqlRowOf(c: Column): MySqlColumnRow
  {
    MySqlColumnRow(c.name, c.data_type, if c.nullable then "YES" else "NO", c.default_value,
                   if c.auto_increment then "auto_increment" else "", c.comment, c.ordinal_position)
  }

  /** Reading back the row of a column gives the column, unless its comment is the empty string. */
  lemma MySqlColumnRoundTrip(c: Column)
    requires c.comment != Some("")
    ensures MySqlColumn(MySqlRowOf(c)) == c
  {
    var row := MySqlRowOf(c);
    if c.auto_increment {
      assert OccursAt(row.extra, "auto_increment", 0);
    } else {
      assert forall i :: !OccursAt(row.extra, "auto_increment", i);
    }
  }

  /** A row of the PostgreSQL column query; the type text is built by the query and taken as given. */
  datatype PgColumnRow = PgColumnRow(
    name: string,
    dataType: string,
    isNullable: string,
    columnDefault: Option<string>,
    position: i32)

  const NextvalPrefix: string := "nextval("

  /**
   * The PostgreSQL column mapping: auto-increment iff the default starts with
   * "nextval(", and then the default is dropped; there is never a comment;
   * the `i32` position is cast with `as u32`.
   */
  function PgColumn(row: PgColumnRow): (c: Column)
    ensures c.name == row.name && c.data_type == row.dataType
    ensures c.nullable <==> row.isNullable == "YES"
    ensures c.auto_increment <==> row.columnDefault.Some? && StartsWith(row.columnDefault.value, NextvalPrefix)
    ensures c.default_value == if c.auto_increment then None else row.columnDefault
    ensures c.comment == None
    ensures row.position >= 0 ==> c.ordinal_position == row.position
  {
    var autoIncrement := row.columnDefault.Some? && StartsWith(row.columnDefault.value, NextvalPrefix);
    Column(
      row.name,
      row.dataType,
      row.isNullable == "YES",
      if autoIncrement then None else row.columnDefault,
      autoIncrement,
      None,
      I32AsU32(row.position))
  }

  /** The row PostgreSQL reports for a column; a serial column's default is its sequence's `nextval`. */
  function PgRowOf(c: Column): PgColumnRow
    requires c.ordinal_position < 0x8000_0000
  {
    PgColumnRow(c.name, c.data_type, if c.nullable then "YES" else "NO",
                if c.auto_increment then Some(NextvalPrefix + "'" + c.name + "_seq'::regclass)") else c.default_value,
                c.ordinal_position)
  }

  /**
   * Reading back the row of a column gives the column when it is one
   * PostgreSQL can hold: no comment, no default on a serial column, and no
   * plain default that itself starts with "nextval(".
   */
  lemma PgColumnRoundTrip(c: Column)
    requires c.ordinal_position < 0x8000_0000
    requires c.comment == None
    requires c.auto_increment ==> c.default_value == None
    requires !c.auto_increment && c.default_value.Some? ==> !StartsWith(c.default_value.value, NextvalPrefix)
    ensures PgColumn(PgRowOf(c)) == c
  {
    var row := PgRowOf(c);
    if c.auto_increment {
      var d := NextvalPrefix + "'" + c.name + "_seq'::regclass)";
      assert d[..|NextvalPrefix|] == NextvalPrefix;
    }
  }

  // ---------------------------------------------------------------------------
  // Primary keys
  // ---------------------------------------------------------------------------

  /** A key-usage row: constraint name and column name. */
  datatype KeyRow = KeyRow(constraint: string, column: string)

  function KeyColumn(r: KeyRow): string { r.column }

  /** MySQL: no rows means no primary key; otherwise it is named "PRIMARY" with the columns in row order. */
  function MySqlPrimaryKey(rows: seq<KeyRow>): (pk: Option<PrimaryKey>)
    ensures pk.None? <==> |rows| == 0
    ensures pk.Some? ==> pk.value.name == Some("PRIMARY")
    ensures pk.Some? ==> |pk.value.columns| == |rows| && forall i :: 0 <= i < |rows| ==> pk.value.columns[i] == rows[i].column
  {
    if |rows| == 0 then None else Some(PrimaryKey(Some("PRIMARY"), Map(rows, KeyColumn)))
  }

  /** PostgreSQL: the same, but named after the constraint of the first row. */
  function PgPrimaryKey(rows: seq<KeyRow>): (pk: Option<PrimaryKey>)
    ensures pk.None? <==> |rows| == 0
    ensures pk.Some? ==> pk.value.name == Some(rows[0].constraint)
    ensures pk.Some? ==> |pk.value.columns| == |rows| && forall i :: 0 <= i < |rows| ==> pk.value.columns[i] == rows[i].column
  {
    if |rows| == 0 then None else Some(PrimaryKey(Some(rows[0].constraint), Map(rows, KeyColumn)))
  }

  /** The two readers agree on whether there is a primary key and on its columns; only the name can differ. */
  lemma PrimaryKeysAgree(rows: seq<KeyRow>)
    ensures MySqlPrimaryKey(rows).Some? <==> PgPrimaryKey(rows).Some?
    ensures MySqlPrimaryKey(rows).Some? ==> MySqlPrimaryKey(rows).value.columns == PgPrimaryKey(rows).value.columns
    ensures MySqlPrimaryKey(rows).Some? && rows[0].constraint == "PRIMARY" ==> MySqlPrimaryKey(rows) == PgPrimaryKey(rows)
  {
  }

  // ---------------------------------------------------------------------------
  // Grouping rows by object name
  // ---------------------------------------------------------------------------

  /**
   * `for row in rows { map.entry(name(row)).or_insert(header(row)).push(item(row)) }`:
   * the first row of a name fixes the header, and every row of that name
   * appends its item.
   */
  function GroupBy<R, H, I>(rows: seq<R>, name: R -> string, header: R -> H, item: R -> I): map<string, (H, seq<I>)>
  {
    if |rows| == 0 then map[]
    else
      var m := GroupBy(rows[..|rows| - 1], name, header, item);
      var r := rows[|rows| - 1];
      if name(r) in m then m[name(r) := (m[name(r)].0, m[name(r)].1 + [item(r)])]
      else m[name(r) := (header(r), [item(r)])]
  }

  /** The rows named `k`, as a filter predicate. */
  function NameIs<R>(name: R -> string, k: string): R -> bool
  {
    (r: R) => name(r) == k
  }

  /** The items of the rows named `k`, in row order. */
  function ItemsNamed<R, I>(rows: seq<R>, name: R -> string, item: R -> I, k: string): seq<I>
  {
    Map(Filter(rows, NameIs(name, k)), item)
  }

  /**
   * The grouping holds an entry for `k` exactly when some row is named `k`;
   * its header comes from the first row of that name and its items are those
   * of all rows of that name, in row order.
   */
  lemma {:induction false} GroupByAt<R, H, I>(rows: seq<R>, name: R -> string, header: R -> H, item: R -> I, k: string)
    ensures k in GroupBy(rows, name, header, item) <==> HasKey(rows, name, k)
    ensures k in GroupBy(rows, name, header, item) ==>
              GroupBy(rows, name, header, item)[k] == (header(FirstWithKey(rows, name, k).value), ItemsNamed(rows, name, item, k))
    decreases |rows|
  {
    if |rows| > 0 {
      var init := rows[..|rows| - 1];
      var r := rows[|rows| - 1];
      GroupByAt(init, name, header, item, k);
      assert forall i :: 0 <= i < |init| ==> init[i] == rows[i];
      assert HasKey(init, name, k) ==> HasKey(rows, name, k);
      assert name(r) == k ==> HasKey(rows, name, k);
      var tail := if NameIs(name, k)(r) then [r] else [];
      assert Filter(rows, NameIs(name, k)) == Filter(init, NameIs(name, k)) + tail;
      MapAppend(Filter(init, NameIs(name, k)), tail, item);
      if !HasKey(init, name, k) {
        assert forall i :: 0 <= i < |init| ==> !NameIs(name, k)(init[i]);
        FilterNone(init, NameIs(name, k));
        assert FirstWithKey(init, name, k) == None;
        if name(r) == k {
          assert FirstWithKey(rows, name, k) == Some(r);
          assert Filter(rows, NameIs(name, k)) == [r];
          assert ItemsNamed(rows, name, item, k) == [item(r)];
        }
      } else {
        assert FirstWithKey(rows, name, k) == FirstWithKey(init, name, k);
        if name(r) == k {
          assert Map(tail, item) == [item(r)];
          assert ItemsNamed(rows, name, item, k) == ItemsNamed(init, name, item, k) + [item(r)];
          var m := GroupBy(init, name, header, item);
          assert k in m;
          assert GroupBy(rows, name, header, item) == m[k := (m[k].0, m[k].1 + [item(r)])];
        } else {
          assert Map(tail, item) == [];
          assert ItemsNamed(rows, name, item, k) == ItemsNamed(init, name, item, k) + [] == ItemsNamed(init, name, item, k);
          assert k in GroupBy(init, name, header, item);
          assert GroupBy(rows, name, header, item)[k] == GroupBy(init, name, header, item)[k];
        }
      }
    }
  }

  /** `GroupByAt` for every name at once. */
  lemma GroupByCharacterised<R, H, I>(rows: seq<R>, name: R -> string, header: R -> H, item: R -> I)
    ensures forall k :: k in GroupBy(rows, name, header, item) <==> HasKey(rows, name, k)
    ensures forall k :: k in GroupBy(rows, name, header, item) ==>
              GroupBy(rows, name, header, item)[k] == (header(FirstWithKey(rows, name, k).value), ItemsNamed(rows, name, item, k))
  {
    forall k {
      GroupByAt(rows, name, header, item, k);
    }
  }

  // ---------------------------------------------------------------------------
  // Indexes, foreign keys and unique constraints
  // ---------------------------------------------------------------------------

  /** A row of the MySQL index query, ordered by index name and position in the index. */
  datatype MySqlIndexRow = MySqlIndexRow(name: string, nonUnique: i32, column: string, indexType: string)

  /** A row of the PostgreSQL index query. */
  datatype PgIndexRow = PgIndexRow(name: string, isUnique: bool, column: string, indexType: string)

  function MySqlIndexName(r: MySqlIndexRow): string { r.name }
  function MySqlIndexHeader(r: MySqlIndexRow): (bool, string) { (r.nonUnique == 0, r.indexType) }
  function MySqlIndexColumn(r: MySqlIndexRow): string { r.column }

  /**
   * MySQL indexes by name: one per index name in the rows, unique iff the
   * first row of that name has `non_unique == 0`, its type from that row, and
   * its columns those of all its rows in order.
   */
  function MySqlIndexes(rows: seq<MySqlIndexRow>): (r: map<string, Index>)
    ensures forall k :: k in r <==> HasKey(rows, MySqlIndexName, k)
    ensures forall k :: k in r ==> (FirstWithKey(rows, MySqlIndexName, k).Some? &&
              r[k].unique == (FirstWithKey(rows, MySqlIndexName, k).value.nonUnique == 0) &&
              r[k].index_type == FirstWithKey(rows, MySqlIndexName, k).value.indexType)
    ensures forall k :: k in r ==> r[k].name == k && r[k].columns == ItemsNamed(rows, MySqlIndexName, MySqlIndexColumn, k)
  {
    var g := GroupBy(rows, MySqlIndexName, MySqlIndexHeader, MySqlIndexColumn);
    GroupByCharacterised(rows, MySqlIndexName, MySqlIndexHeader, MySqlIndexColumn);
    map k | k in g :: Index(k, g[k].1, g[k].0.0, g[k].0.1)
  }

  function PgIndexName(r: PgIndexRow): string { r.name }
  function PgIndexHeader(r: PgIndexRow): (bool, string) { (r.isUnique, r.indexType) }
  function PgIndexColumn(r: PgIndexRow): string { r.column }

  /** PostgreSQL indexes by name, the same way, with the unique flag read directly. */
  function PgIndexes(rows: seq<PgIndexRow>): (r: map<string, Index>)
    ensures forall k :: k in r <==> HasKey(rows, PgIndexName, k)
    ensures forall k :: k in r ==> (FirstWithKey(rows, PgIndexName, k).Some? &&
              r[k].unique == FirstWithKey(rows, PgIndexName, k).value.isUnique &&
              r[k].index_type == FirstWithKey(rows, PgIndexName, k).value.indexType)
    ensures forall k :: k in r ==> r[k].name == k && r[k].columns == ItemsNamed(rows, PgIndexName, PgIndexColumn, k)
  {
    var g := GroupBy(rows, PgIndexName, PgIndexHeader, PgIndexColumn);
    GroupByCharacterised(rows, PgIndexName, PgIndexHeader, PgIndexColumn);
    map k | k in g :: Index(k, g[k].1, g[k].0.0, g[k].0.1)
  }

  /** A row of either foreign-key query: one referencing column and the column it references. */
  datatype ForeignKeyRow = ForeignKeyRow(
    name: string,
    column: string,
    refTable: string,
    refColumn: string,
    onDelete: string,
    onUpdate: string)

  function ForeignKeyRowName(r: ForeignKeyRow): string { r.name }
  function ForeignKeyHeader(r: ForeignKeyRow): (string, string, string) { (r.refTable, r.onDelete, r.onUpdate) }
  function ForeignKeyPair(r: ForeignKeyRow): (string, string) { (r.column, r.refColumn) }
  function PairFirst(p: (string, string)): string { p.0 }
  function PairSecond(p: (string, string)): string { p.1 }

  /**
   * Foreign keys by name (both dialects group alike): the referenced table
   * and both actions from the first row of the name, the columns and the
   * referenced columns from all its rows, pairwise and in order.
   */
  function ForeignKeys(rows: seq<ForeignKeyRow>): (r: map<string, ForeignKey>)
    ensures forall k :: k in r <==> HasKey(rows, ForeignKeyRowName, k)
    ensures forall k :: k in r ==> (FirstWithKey(rows, ForeignKeyRowName, k).Some? &&
              var first := FirstWithKey(rows, ForeignKeyRowName, k).value;
              r[k].ref_table == first.refTable && r[k].on_delete == first.onDelete && r[k].on_update == first.onUpdate)
    ensures forall k :: k in r ==> (r[k].name == k &&
              r[k].columns == Map(ItemsNamed(rows, ForeignKeyRowName, ForeignKeyPair, k), PairFirst) &&
              r[k].ref_columns == Map(ItemsNamed(rows, ForeignKeyRowName, ForeignKeyPair, k), PairSecond))
  {
    var g := GroupBy(rows, ForeignKeyRowName, ForeignKeyHeader, ForeignKeyPair);
    GroupByCharacterised(rows, ForeignKeyRowName, ForeignKeyHeader, ForeignKeyPair);
    map k | k in g :: ForeignKey(k, Map(g[k].1, PairFirst), g[k].0.0, Map(g[k].1, PairSecond), g[k].0.1, g[k].0.2)
  }

  function KeyRowName(r: KeyRow): string { r.constraint }
  function NoHeader(r: KeyRow): () { () }

  /** Unique constraints by name: the columns of all rows of the name, in order. */
  function UniqueConstraints(rows: seq<KeyRow>): (r: map<string, UniqueConstraint>)
    ensures forall k :: k in r <==> HasKey(rows, KeyRowName, k)
    ensures forall k :: k in r ==> r[k].name == k && r[k].columns == ItemsNamed(rows, KeyRowName, KeyColumn, k)
  {
    var g := GroupBy(rows, KeyRowName, NoHeader, KeyColumn);
    GroupByCharacterised(rows, KeyRowName, NoHeader, KeyColumn);
    map k | k in g :: UniqueConstraint(k, g[k].1)
  }

  /**
   * Every grouped index has at least one column, and the columns of all
   * indexes together account for every row: one column per row.
   */
  lemma ItemsNamedNonEmpty<R, I>(rows: seq<R>, name: R -> string, item: R -> I, k: string)
    requires HasKey(rows, name, k)
    ensures |ItemsNamed(rows, name, item, k)| >= 1
  {
    var i :| 0 <= i < |rows| && name(rows[i]) == k;
    FilterKeeps(rows, NameIs(name, k), i);
  }

  /** An element satisfying the filter's predicate survives the filter. */
  lemma {:induction false} FilterKeeps<T>(xs: seq<T>, p: T -> bool, i: nat)
    requires i < |xs| && p(xs[i])
    ensures |Filter(xs, p)| >= 1
    decreases |xs|
  {
    if i < |xs| - 1 {
      FilterKeeps(xs[..|xs| - 1], p, i);
    }
  }

  /** No grouped index, foreign key or unique constraint is empty. */
  lemma GroupsNonEmpty(indexRows: seq<MySqlIndexRow>, pgRows: seq<PgIndexRow>, fkRows: seq<ForeignKeyRow>, ucRows: seq<KeyRow>)
    ensures forall k :: k in MySqlIndexes(indexRows) ==> |MySqlIndexes(indexRows)[k].columns| >= 1
    ensures forall k :: k in PgIndexes(pgRows) ==> |PgIndexes(pgRows)[k].columns| >= 1
    ensures forall k :: k in ForeignKeys(fkRows) ==> |ForeignKeys(fkRows)[k].columns| >= 1
    ensures forall k :: k in UniqueConstraints(ucRows) ==> |UniqueConstraints(ucRows)[k].columns| >= 1
  {
    forall k | k in MySqlIndexes(indexRows) {
      ItemsNamedNonEmpty(indexRows, MySqlIndexName, MySqlIndexColumn, k);
    }
    forall k | k in PgIndexes(pgRows) {
      ItemsNamedNonEmpty(pgRows, PgIndexName, PgIndexColumn, k);
    }
    forall k | k in ForeignKeys(fkRows) {
      ItemsNamedNonEmpty(fkRows, ForeignKeyRowName, ForeignKeyPair, k);
    }
    forall k | k in UniqueConstraints(ucRows) {
      ItemsNamedNonEmpty(ucRows, KeyRowName, KeyColumn, k);
    }
  }
}
