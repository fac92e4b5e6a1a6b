/**
 * The schema comparator (src-tauri/src/diff/comparator.rs). It reconciles
 * two table lists by name and emits one diff item per discrepancy, numbered
 * by a counter that is incremented before every push.
 *
 * The model has two layers: a functional reference (`SchemaChanges`, a
 * flat-map of one step function per element) that says WHICH changes are
 * found and in what order, and the methods `CompareSchemas` and
 * `CompareTables` that walk the lists with `HashMap` lookups and thread the
 * counter the way the source does. Their contracts tie the two layers.
 */
module Comparator {
  import opened Wrappers
  import opened Text
  import opened Seqs
  import opened Schema
  import opened DiffModel
  import opened Generators

  /** A diff item before numbering: every field except the id and the selected flag. */
  datatype Change = Change(
    kind: DiffType,
    tableName: string,
    objectName: Option<string>,
    sourceDef: Option<string>,
    targetDef: Option<string>,
    sql: string)

  /** The pushed item: the counter value as its id, and always selected. */
  function Item(c: Change, id: nat): (d: DiffItem)
    ensures d.selected && ParseNat(d.id) == Some(id)
    ensures Unnumber(d) == c
  {
    ParseNatToString(id);
    DiffItem(NatToString(id), c.kind, c.tableName, c.objectName, c.sourceDef, c.targetDef, c.sql, true)
  }

  /** `cs` pushed with the counter starting at `base`: the k-th change gets id base + k + 1. */
  function NumberedFrom(cs: seq<Change>, base: nat): (items: seq<DiffItem>)
    ensures |items| == |cs|
  {
    seq(|cs|, k requires 0 <= k < |cs| => Item(cs[k], base + k + 1))
  }

  /** Stripping the numbering gives the changes back. */
  function Unnumber(d: DiffItem): Change
  {
    Change(d.diff_type, d.table_name, d.object_name, d.source_def, d.target_def, d.sql)
  }

  lemma NumberedFromAppend(cs: seq<Change>, ds: seq<Change>, base: nat)
    ensures NumberedFrom(cs + ds, base) == NumberedFrom(cs, base) + NumberedFrom(ds, base + |cs|)
  {
    var l, r := NumberedFrom(cs + ds, base), NumberedFrom(cs, base) + NumberedFrom(ds, base + |cs|);
    forall k | 0 <= k < |l|
      ensures l[k] == r[k]
    {
      if k >= |cs| {
        assert (cs + ds)[k] == ds[k - |cs|];
      }
    }
  }

  /**
   * Pushing `piece` after `done` continues the numbering where `done`
   * stopped: the result is `done + piece` pushed from the start.
   */
  lemma PushAfter(diffs0: seq<DiffItem>, counter0: nat, done: seq<Change>, piece: seq<Change>, all: seq<Change>,
                  diffs1: seq<DiffItem>, counter1: nat, diffs: seq<DiffItem>, counter: nat)
    requires all == done + piece
    requires diffs1 == diffs0 + NumberedFrom(done, counter0) && counter1 == counter0 + |done|
    requires diffs == diffs1 + NumberedFrom(piece, counter1) && counter == counter1 + |piece|
    ensures diffs == diffs0 + NumberedFrom(all, counter0) && counter == counter0 + |all|
  {
    NumberedFromAppend(done, piece, counter0);
  }

  /** The k-th pushed item carries id base + k + 1, is selected, and holds the k-th change. */
  lemma NumberedItems(cs: seq<Change>, base: nat)
    ensures forall k :: 0 <= k < |cs| ==> NumberedFrom(cs, base)[k].id == NatToString(base + k + 1) && NumberedFrom(cs, base)[k].selected
    ensures forall k :: 0 <= k < |cs| ==> Unnumber(NumberedFrom(cs, base)[k]) == cs[k]
  {
  }

  lemma NumberedSmall(x: Change, base: nat)
    ensures NumberedFrom([x], base) == [Item(x, base + 1)]
    ensures NumberedFrom([], base) == []
  {
  }

  /** Pushing one change with the next id. */
  lemma ExtendOne(diffs0: seq<DiffItem>, acc: seq<Change>, x: Change, base: nat)
    ensures diffs0 + NumberedFrom(acc, base) + [Item(x, base + |acc| + 1)] == diffs0 + NumberedFrom(acc + [x], base)
  {
    NumberedFromAppend(acc, [x], base);
    assert NumberedFrom([x], base + |acc|) == [Item(x, base + |acc| + 1)];
  }

  // ---------------------------------------------------------------------------
  // The changes one element contributes
  // ---------------------------------------------------------------------------

  /** "<n> columns", the summary written for a whole table. */
  function ColumnCount(t: TableSchema): string
  {
    NatToString(|t.columns|) + " columns"
  }

  function TableAddedChange(g: SqlGenerator): TableSchema -> Change
  {
    (t: TableSchema) => Change(TableAdded, t.name, None, Some(ColumnCount(t)), None, g.createTable(t))
  }

  function TableRemovedChange(g: SqlGenerator): TableSchema -> Change
  {
    (t: TableSchema) => Change(TableRemoved, t.name, None, None, Some(ColumnCount(t)), g.dropTable(t.name))
  }

  function ColumnAddedChange(g: SqlGenerator, table: string): Column -> Change
  {
    (c: Column) => Change(ColumnAdded, table, Some(c.name), Some(c.data_type), None, g.addColumn(table, c))
  }

  /** Reported with both data types, and fixed by re-declaring the source column. */
  function ColumnModifiedChange(g: SqlGenerator, table: string, c: Column, tc: Column): Change
  {
    Change(ColumnModified, table, Some(c.name), Some(c.data_type), Some(tc.data_type), g.modifyColumn(table, c))
  }

  function ColumnRemovedChange(g: SqlGenerator, table: string): Column -> Change
  {
    (c: Column) => Change(ColumnRemoved, table, Some(c.name), None, Some(c.data_type), g.dropColumn(table, c.name))
  }

  /** The column names of an index, joined by ", " and not quoted. */
  function IndexColumns(i: Index): string
  {
    Join(i.columns, ", ")
  }

  function IndexAddedChange(g: SqlGenerator, table: string): Index -> Change
  {
    (i: Index) => Change(IndexAdded, table, Some(i.name), Some(IndexColumns(i)), None, g.addIndex(table, i))
  }

  /** Fixed by dropping the index and creating the source one, as two lines. */
  function IndexModifiedChange(g: SqlGenerator, table: string, i: Index, ti: Index): Change
  {
    Change(IndexModified, table, Some(i.name), Some(IndexColumns(i)), Some(IndexColumns(ti)),
           g.dropIndex(table, i.name) + "\n" + g.addIndex(table, i))
  }

  function IndexRemovedChange(g: SqlGenerator, table: string): Index -> Change
  {
    (i: Index) => Change(IndexRemoved, table, Some(i.name), None, Some(IndexColumns(i)), g.dropIndex(table, i.name))
  }

  function ForeignKeyAddedChange(g: SqlGenerator, table: string): ForeignKey -> Change
  {
    (f: ForeignKey) => Change(ForeignKeyAdded, table, Some(f.name), Some("-> " + f.ref_table), None, g.addForeignKey(table, f))
  }

  function ForeignKeyRemovedChange(g: SqlGenerator, table: string): ForeignKey -> Change
  {
    (f: ForeignKey) => Change(ForeignKeyRemoved, table, Some(f.name), None, Some("-> " + f.ref_table), g.dropForeignKey(table, f.name))
  }

  function UniqueAddedChange(g: SqlGenerator, table: string): UniqueConstraint -> Change
  {
    (u: UniqueConstraint) => Change(UniqueConstraintAdded, table, Some(u.name), Some(Join(u.columns, ", ")), None, g.addUnique(table, u))
  }

  function UniqueRemovedChange(g: SqlGenerator, table: string): UniqueConstraint -> Change
  {
    (u: UniqueConstraint) => Change(UniqueConstraintRemoved, table, Some(u.name), None, Some(Join(u.columns, ", ")), g.dropUnique(table, u.name))
  }

  /** One change for an element whose key the other side does not contain, none otherwise. */
  function Unmatched<T>(key: T -> string, others: seq<T>, mk: T -> Change): T -> seq<Change>
  {
    (x: T) => if HasKey(others, key, key(x)) then [] else [mk(x)]
  }

  /**
   * A source column: added if the target has no column of that name, modified
   * if the target's (last) column of that name differs in any field.
   */
  function ColumnStep(g: SqlGenerator, table: string, targetColumns: seq<Column>): Column -> seq<Change>
  {
    (c: Column) => match LastWithKey(targetColumns, ColumnName, c.name)
         case None => [ColumnAddedChange(g, table)(c)]
         case Some(tc) => if c != tc then [ColumnModifiedChange(g, table, c, tc)] else []
  }

  /** A source index, by the same rule as a column. */
  function IndexStep(g: SqlGenerator, table: string, targetIndexes: seq<Index>): Index -> seq<Change>
  {
    (i: Index) => match LastWithKey(targetIndexes, IndexName, i.name)
         case None => [IndexAddedChange(g, table)(i)]
         case Some(ti) => if i != ti then [IndexModifiedChange(g, table, i, ti)] else []
  }

  /** The step of a source column, read through the collected target map. */
  lemma ColumnStepCases(g: SqlGenerator, table: string, targetColumns: seq<Column>, col: Column)
    ensures var m := Collect(targetColumns, ColumnName);
      ColumnStep(g, table, targetColumns)(col) ==
        if col.name !in m then [ColumnAddedChange(g, table)(col)]
        else if col != m[col.name] then [ColumnModifiedChange(g, table, col, m[col.name])]
        else []
  {
  }

  lemma IndexStepCases(g: SqlGenerator, table: string, targetIndexes: seq<Index>, idx: Index)
    ensures var m := Collect(targetIndexes, IndexName);
      IndexStep(g, table, targetIndexes)(idx) ==
        if idx.name !in m then [IndexAddedChange(g, table)(idx)]
        else if idx != m[idx.name] then [IndexModifiedChange(g, table, idx, m[idx.name])]
        else []
  {
  }

  // ---------------------------------------------------------------------------
  // The reference: which changes, in which order
  // ---------------------------------------------------------------------------

  function ColumnChanges(g: SqlGenerator, s: TableSchema, t: TableSchema): seq<Change>
  {
    FlatMap(s.columns, ColumnStep(g, s.name, t.columns))
  }

  function ColumnRemovals(g: SqlGenerator, s: TableSchema, t: TableSchema): seq<Change>
  {
    FlatMap(t.columns, Unmatched(ColumnName, s.columns, ColumnRemovedChange(g, s.name)))
  }

  function IndexChanges(g: SqlGenerator, s: TableSchema, t: TableSchema): seq<Change>
  {
    FlatMap(s.indexes, IndexStep(g, s.name, t.indexes))
  }

  function IndexRemovals(g: SqlGenerator, s: TableSchema, t: TableSchema): seq<Change>
  {
    FlatMap(t.indexes, Unmatched(IndexName, s.indexes, IndexRemovedChange(g, s.name)))
  }

  function ForeignKeyAdditions(g: SqlGenerator, s: TableSchema, t: TableSchema): seq<Change>
  {
    FlatMap(s.foreign_keys, Unmatched(ForeignKeyName, t.foreign_keys, ForeignKeyAddedChange(g, s.name)))
  }

  function ForeignKeyRemovals(g: SqlGenerator, s: TableSchema, t: TableSchema): seq<Change>
  {
    FlatMap(t.foreign_keys, Unmatched(ForeignKeyName, s.foreign_keys, ForeignKeyRemovedChange(g, s.name)))
  }

  function UniqueAdditions(g: SqlGenerator, s: TableSchema, t: TableSchema): seq<Change>
  {
    FlatMap(s.unique_constraints, Unmatched(UniqueName, t.unique_constraints, UniqueAddedChange(g, s.name)))
  }

  function UniqueRemovals(g: SqlGenerator, s: TableSchema, t: TableSchema): seq<Change>
  {
    FlatMap(t.unique_constraints, Unmatched(UniqueName, s.unique_constraints, UniqueRemovedChange(g, s.name)))
  }

  function ColumnPhase(g: SqlGenerator, s: TableSchema, t: TableSchema): seq<Change>
  {
    ColumnChanges(g, s, t) + ColumnRemovals(g, s, t)
  }

  function IndexPhase(g: SqlGenerator, s: TableSchema, t: TableSchema): seq<Change>
  {
    IndexChanges(g, s, t) + IndexRemovals(g, s, t)
  }

  function ForeignKeyPhase(g: SqlGenerator, s: TableSchema, t: TableSchema): seq<Change>
  {
    ForeignKeyAdditions(g, s, t) + ForeignKeyRemovals(g, s, t)
  }

  function UniquePhase(g: SqlGenerator, s: TableSchema, t: TableSchema): seq<Change>
  {
    UniqueAdditions(g, s, t) + UniqueRemovals(g, s, t)
  }

  /**
   * The changes between a source table and its matched target table, in the
   * order `compare_tables` pushes them: columns, indexes, foreign keys, unique
   * constraints. Every change names the SOURCE table.
   */
  function TableChanges(g: SqlGenerator, s: TableSchema, t: TableSchema): seq<Change>
  {
    ColumnPhase(g, s, t) + IndexPhase(g, s, t) + ForeignKeyPhase(g, s, t) + UniquePhase(g, s, t)
  }

  /** A source table matched against the LAST target table of the same name. */
  function MatchedStep(g: SqlGenerator, target: seq<TableSchema>): TableSchema -> seq<Change>
  {
    (s: TableSchema) => match LastWithKey(target, TableName, s.name)
         case None => []
         case Some(t) => TableChanges(g, s, t)
  }

  function TableAdditions(g: SqlGenerator, source: seq<TableSchema>, target: seq<TableSchema>): seq<Change>
  {
    FlatMap(source, Unmatched(TableName, target, TableAddedChange(g)))
  }

  function TableRemovals(g: SqlGenerator, source: seq<TableSchema>, target: seq<TableSchema>): seq<Change>
  {
    FlatMap(target, Unmatched(TableName, source, TableRemovedChange(g)))
  }

  function MatchedChanges(g: SqlGenerator, source: seq<TableSchema>, target: seq<TableSchema>): seq<Change>
  {
    FlatMap(source, MatchedStep(g, target))
  }

  /** Added tables, then removed tables, then the changes inside each matched table. */
  function SchemaChanges(g: SqlGenerator, source: seq<TableSchema>, target: seq<TableSchema>): seq<Change>
  {
    TableAdditions(g, source, target) + TableRemovals(g, source, target) + MatchedChanges(g, source, target)
  }

  // ---------------------------------------------------------------------------
  // The loops of the source
  // ---------------------------------------------------------------------------

  /**
   * `for x in xs { if !others_map.contains_key(key(x)) { counter += 1; push } }`,
   * the shape of every added-only and removed-only loop.
   */
  method EmitUnmatched<T>(xs: seq<T>, key: T -> string, others: seq<T>, mk: T -> Change,
                          diffs0: seq<DiffItem>, counter0: nat)
    returns (diffs: seq<DiffItem>, counter: nat)
    ensures diffs == diffs0 + NumberedFrom(FlatMap(xs, Unmatched(key, others, mk)), counter0)
    ensures counter == counter0 + |FlatMap(xs, Unmatched(key, others, mk))|
  {
    var othersMap := Collect(others, key);
    diffs, counter := diffs0, counter0;
    for i := 0 to |xs|
      invariant diffs == diffs0 + NumberedFrom(FlatMap(xs[..i], Unmatched(key, others, mk)), counter0)
      invariant counter == counter0 + |FlatMap(xs[..i], Unmatched(key, others, mk))|
    {
      ghost var done := FlatMap(xs[..i], Unmatched(key, others, mk));
      assert xs[..i + 1] == xs[..i] + [xs[i]];
      FlatMapSnoc(xs[..i], xs[i], Unmatched(key, others, mk));
      if key(xs[i]) !in othersMap {
        counter := counter + 1;
        diffs := diffs + [Item(mk(xs[i]), counter)];
        ExtendOne(diffs0, done, mk(xs[i]), counter0);
      } else {
        assert done + [] == done;
      }
    }
    assert xs[..|xs|] == xs;
  }

  /** One pass of the source-column loop body: a push for an added or a modified column. */
  method PushColumn(g: SqlGenerator, table: string, targetColumns: seq<Column>, targetMap: map<string, Column>,
                    col: Column, diffs0: seq<DiffItem>, counter0: nat)
    returns (diffs: seq<DiffItem>, counter: nat)
    requires targetMap == Collect(targetColumns, ColumnName)
    ensures diffs == diffs0 + NumberedFrom(ColumnStep(g, table, targetColumns)(col), counter0)
    ensures counter == counter0 + |ColumnStep(g, table, targetColumns)(col)|
  {
    ColumnStepCases(g, table, targetColumns, col);
    diffs, counter := diffs0, counter0;
    if col.name !in targetMap {
      var change := ColumnAddedChange(g, table)(col);
      NumberedSmall(change, counter0);
      counter := counter + 1;
      diffs := diffs + [Item(change, counter)];
    } else {
      var targetCol := targetMap[col.name];
      if col != targetCol {
        var change := ColumnModifiedChange(g, table, col, targetCol);
        NumberedSmall(change, counter0);
        counter := counter + 1;
        diffs := diffs + [Item(change, counter)];
      } else {
        NumberedSmall(ColumnAddedChange(g, table)(col), counter0);
        assert diffs0 + [] == diffs0;
      }
    }
  }

  /** The source-column loop of `compare_tables`: added when the target lacks the name, modified when unequal. */
  method EmitColumns(g: SqlGenerator, table: string, columns: seq<Column>, targetColumns: seq<Column>,
                     diffs0: seq<DiffItem>, counter0: nat)
    returns (diffs: seq<DiffItem>, counter: nat)
    ensures diffs == diffs0 + NumberedFrom(FlatMap(columns, ColumnStep(g, table, targetColumns)), counter0)
    ensures counter == counter0 + |FlatMap(columns, ColumnStep(g, table, targetColumns))|
  {
    var targetMap := Collect(targetColumns, ColumnName);
    diffs, counter := diffs0, counter0;
    for i := 0 to |columns|
      invariant diffs == diffs0 + NumberedFrom(FlatMap(columns[..i], ColumnStep(g, table, targetColumns)), counter0)
      invariant counter == counter0 + |FlatMap(columns[..i], ColumnStep(g, table, targetColumns))|
    {
      ghost var before, counterBefore := diffs, counter;
      assert columns[..i + 1] == columns[..i] + [columns[i]];
      FlatMapSnoc(columns[..i], columns[i], ColumnStep(g, table, targetColumns));
      diffs, counter := PushColumn(g, table, targetColumns, targetMap, columns[i], diffs, counter);
      PushAfter(diffs0, counter0, FlatMap(columns[..i], ColumnStep(g, table, targetColumns)), ColumnStep(g, table, targetColumns)(columns[i]),
                FlatMap(columns[..i + 1], ColumnStep(g, table, targetColumns)), before, counterBefore, diffs, counter);
    }
    assert columns[..|columns|] == columns;
  }

  /** One pass of the source-index loop body. */
  method PushIndex(g: SqlGenerator, table: string, targetIndexes: seq<Index>, targetMap: map<string, Index>,
                   idx: Index, diffs0: seq<DiffItem>, counter0: nat)
    returns (diffs: seq<DiffItem>, counter: nat)
    requires targetMap == Collect(targetIndexes, IndexName)
    ensures diffs == diffs0 + NumberedFrom(IndexStep(g, table, targetIndexes)(idx), counter0)
    ensures counter == counter0 + |IndexStep(g, table, targetIndexes)(idx)|
  {
    IndexStepCases(g, table, targetIndexes, idx);
    diffs, counter := diffs0, counter0;
    if idx.name !in targetMap {
      var change := IndexAddedChange(g, table)(idx);
      NumberedSmall(change, counter0);
      counter := counter + 1;
      diffs := diffs + [Item(change, counter)];
    } else {
      var targetIndex := targetMap[idx.name];
      if idx != targetIndex {
        var change := IndexModifiedChange(g, table, idx, targetIndex);
        NumberedSmall(change, counter0);
        counter := counter + 1;
        diffs := diffs + [Item(change, counter)];
      } else {
        NumberedSmall(IndexAddedChange(g, table)(idx), counter0);
        assert diffs0 + [] == diffs0;
      }
    }
  }

  /** The source-index loop of `compare_tables`, by the same rule as columns. */
  method EmitIndexes(g: SqlGenerator, table: string, indexes: seq<Index>, targetIndexes: seq<Index>,
                     diffs0: seq<DiffItem>, counter0: nat)
    returns (diffs: seq<DiffItem>, counter: nat)
    ensures diffs == diffs0 + NumberedFrom(FlatMap(indexes, IndexStep(g, table, targetIndexes)), counter0)
    ensures counter == counter0 + |FlatMap(indexes, IndexStep(g, table, targetIndexes))|
  {
    var targetMap := Collect(targetIndexes, IndexName);
    diffs, counter := diffs0, counter0;
    for i := 0 to |indexes|
      invariant diffs == diffs0 + NumberedFrom(FlatMap(indexes[..i], IndexStep(g, table, targetIndexes)), counter0)
      invariant counter == counter0 + |FlatMap(indexes[..i], IndexStep(g, table, targetIndexes))|
    {
      ghost var before, counterBefore := diffs, counter;
      assert indexes[..i + 1] == indexes[..i] + [indexes[i]];
      FlatMapSnoc(indexes[..i], indexes[i], IndexStep(g, table, targetIndexes));
      diffs, counter := PushIndex(g, table, targetIndexes, targetMap, indexes[i], diffs, counter);
      PushAfter(diffs0, counter0, FlatMap(indexes[..i], IndexStep(g, table, targetIndexes)), IndexStep(g, table, targetIndexes)(indexes[i]),
                FlatMap(indexes[..i + 1], IndexStep(g, table, targetIndexes)), before, counterBefore, diffs, counter);
    }
    assert indexes[..|indexes|] == indexes;
  }

  /** The column section of `compare_tables`: added or modified in source order, then removed in target order. */
  method CompareColumns(g: SqlGenerator, s: TableSchema, t: TableSchema, diffs0: seq<DiffItem>, counter0: nat)
    returns (diffs: seq<DiffItem>, counter: nat)
    ensures diffs == diffs0 + NumberedFrom(ColumnPhase(g, s, t), counter0)
    ensures counter == counter0 + |ColumnPhase(g, s, t)|
  {
    var diffs1, counter1 := EmitColumns(g, s.name, s.columns, t.columns, diffs0, counter0);
    diffs, counter := EmitUnmatched(t.columns, ColumnName, s.columns, ColumnRemovedChange(g, s.name), diffs1, counter1);
    PushAfter(diffs0, counter0, ColumnChanges(g, s, t), ColumnRemovals(g, s, t), ColumnPhase(g, s, t), diffs1, counter1, diffs, counter);
  }

  /** The index section of `compare_tables`, in the same pattern as columns. */
  method CompareIndexes(g: SqlGenerator, s: TableSchema, t: TableSchema, diffs0: seq<DiffItem>, counter0: nat)
    returns (diffs: seq<DiffItem>, counter: nat)
    ensures diffs == diffs0 + NumberedFrom(IndexPhase(g, s, t), counter0)
    ensures counter == counter0 + |IndexPhase(g, s, t)|
  {
    var diffs1, counter1 := EmitIndexes(g, s.name, s.indexes, t.indexes, diffs0, counter0);
    diffs, counter := EmitUnmatched(t.indexes, IndexName, s.indexes, IndexRemovedChange(g, s.name), diffs1, counter1);
    PushAfter(diffs0, counter0, IndexChanges(g, s, t), IndexRemovals(g, s, t), IndexPhase(g, s, t), diffs1, counter1, diffs, counter);
  }

  /** The foreign-key section: added, then removed; a same-named pair is never compared. */
  method CompareForeignKeys(g: SqlGenerator, s: TableSchema, t: TableSchema, diffs0: seq<DiffItem>, counter0: nat)
    returns (diffs: seq<DiffItem>, counter: nat)
    ensures diffs == diffs0 + NumberedFrom(ForeignKeyPhase(g, s, t), counter0)
    ensures counter == counter0 + |ForeignKeyPhase(g, s, t)|
  {
    var diffs1, counter1 := EmitUnmatched(s.foreign_keys, ForeignKeyName, t.foreign_keys, ForeignKeyAddedChange(g, s.name), diffs0, counter0);
    diffs, counter := EmitUnmatched(t.foreign_keys, ForeignKeyName, s.foreign_keys, ForeignKeyRemovedChange(g, s.name), diffs1, counter1);
    PushAfter(diffs0, counter0, ForeignKeyAdditions(g, s, t), ForeignKeyRemovals(g, s, t), ForeignKeyPhase(g, s, t), diffs1, counter1, diffs, counter);
  }

  /** The unique-constraint section, like foreign keys. */
  method CompareUniques(g: SqlGenerator, s: TableSchema, t: TableSchema, diffs0: seq<DiffItem>, counter0: nat)
    returns (diffs: seq<DiffItem>, counter: nat)
    ensures diffs == diffs0 + NumberedFrom(UniquePhase(g, s, t), counter0)
    ensures counter == counter0 + |UniquePhase(g, s, t)|
  {
    var diffs1, counter1 := EmitUnmatched(s.unique_constraints, UniqueName, t.unique_constraints, UniqueAddedChange(g, s.name), diffs0, counter0);
    diffs, counter := EmitUnmatched(t.unique_constraints, UniqueName, s.unique_constraints, UniqueRemovedChange(g, s.name), diffs1, counter1);
    PushAfter(diffs0, counter0, UniqueAdditions(g, s, t), UniqueRemovals(g, s, t), UniquePhase(g, s, t), diffs1, counter1, diffs, counter);
  }

  /** `compare_tables`: appends the table's changes to `diffs0`, numbering on from `counter0`. */
  method CompareTables(g: SqlGenerator, s: TableSchema, t: TableSchema, diffs0: seq<DiffItem>, counter0: nat)
    returns (diffs: seq<DiffItem>, counter: nat)
    ensures diffs == diffs0 + NumberedFrom(TableChanges(g, s, t), counter0)
    ensures counter == counter0 + |TableChanges(g, s, t)|
  {
    diffs, counter := CompareColumns(g, s, t, diffs0, counter0);
    ghost var done, before, counterBefore := ColumnPhase(g, s, t), diffs, counter;
    diffs, counter := CompareIndexes(g, s, t, diffs, counter);
    PushAfter(diffs0, counter0, done, IndexPhase(g, s, t), done + IndexPhase(g, s, t), before, counterBefore, diffs, counter);
    done, before, counterBefore := done + IndexPhase(g, s, t), diffs, counter;
    diffs, counter := CompareForeignKeys(g, s, t, diffs, counter);
    PushAfter(diffs0, counter0, done, ForeignKeyPhase(g, s, t), done + ForeignKeyPhase(g, s, t), before, counterBefore, diffs, counter);
    done, before, counterBefore := done + ForeignKeyPhase(g, s, t), diffs, counter;
    diffs, counter := CompareUniques(g, s, t, diffs, counter);
    PushAfter(diffs0, counter0, done, UniquePhase(g, s, t), TableChanges(g, s, t), before, counterBefore, diffs, counter);
  }

  /** The step of a source table, read through the collected target map. */
  lemma MatchedStepCases(g: SqlGenerator, target: seq<TableSchema>, s: TableSchema)
    ensures var m := Collect(target, TableName);
      MatchedStep(g, target)(s) == if s.name in m then TableChanges(g, s, m[s.name]) else []
  {
  }

  /** One pass of the matched-table loop body of `compare_schemas`. */
  method CompareIfMatched(g: SqlGenerator, target: seq<TableSchema>, targetMap: map<string, TableSchema>,
                          s: TableSchema, diffs0: seq<DiffItem>, counter0: nat)
    returns (diffs: seq<DiffItem>, counter: nat)
    requires targetMap == Collect(target, TableName)
    ensures diffs == diffs0 + NumberedFrom(MatchedStep(g, target)(s), counter0)
    ensures counter == counter0 + |MatchedStep(g, target)(s)|
  {
    MatchedStepCases(g, target, s);
    if s.name in targetMap {
      diffs, counter := CompareTables(g, s, targetMap[s.name], diffs0, counter0);
    } else {
      diffs, counter := diffs0, counter0;
      assert diffs0 + NumberedFrom([], counter0) == diffs0;
    }
  }

  /** One iteration of the matched-table loop: the pushed items grow from the changes of `done` to those of `done + [s]`. */
  method MatchedPass(g: SqlGenerator, target: seq<TableSchema>, targetMap: map<string, TableSchema>,
                     ghost done: seq<TableSchema>, s: TableSchema, ghost diffs0: seq<DiffItem>, ghost counter0: nat,
                     diffs1: seq<DiffItem>, counter1: nat)
    returns (diffs: seq<DiffItem>, counter: nat)
    requires targetMap == Collect(target, TableName)
    requires diffs1 == diffs0 + NumberedFrom(MatchedChanges(g, done, target), counter0)
    requires counter1 == counter0 + |MatchedChanges(g, done, target)|
    ensures diffs == diffs0 + NumberedFrom(MatchedChanges(g, done + [s], target), counter0)
    ensures counter == counter0 + |MatchedChanges(g, done + [s], target)|
  {
    diffs, counter := CompareIfMatched(g, target, targetMap, s, diffs1, counter1);
    FlatMapSnoc(done, s, MatchedStep(g, target));
    PushAfter(diffs0, counter0, MatchedChanges(g, done, target), MatchedStep(g, target)(s), MatchedChanges(g, done + [s], target), diffs1, counter1, diffs, counter);
  }

  /** The matched-table loop of `compare_schemas`: each source table against the target table of its name. */
  method CompareMatched(g: SqlGenerator, source: seq<TableSchema>, target: seq<TableSchema>,
                        targetMap: map<string, TableSchema>, diffs0: seq<DiffItem>, counter0: nat)
    returns (diffs: seq<DiffItem>, counter: nat)
    requires targetMap == Collect(target, TableName)
    ensures diffs == diffs0 + NumberedFrom(MatchedChanges(g, source, target), counter0)
    ensures counter == counter0 + |MatchedChanges(g, source, target)|
  {
    diffs, counter := diffs0, counter0;
    for i := 0 to |source|
      invariant diffs == diffs0 + NumberedFrom(MatchedChanges(g, source[..i], target), counter0)
      invariant counter == counter0 + |MatchedChanges(g, source[..i], target)|
    {
      diffs, counter := MatchedPass(g, target, targetMap, source[..i], source[i], diffs0, counter0, diffs, counter);
      assert source[..i] + [source[i]] == source[..i + 1];
    }
    assert source[..|source|] == source;
  }

  /**
   * `compare_schemas`: the diff items, numbered "1", "2", ... in push order and
   * all selected, are exactly the reference changes.
   */
  method CompareSchemas(g: SqlGenerator, source: seq<TableSchema>, target: seq<TableSchema>)
    returns (diffs: seq<DiffItem>)
    ensures diffs == NumberedFrom(SchemaChanges(g, source, target), 0)
    ensures forall k :: 0 <= k < |diffs| ==> diffs[k].id == NatToString(k + 1) && diffs[k].selected
    ensures forall k :: 0 <= k < |diffs| ==> Unnumber(diffs[k]) == SchemaChanges(g, source, target)[k]
  {
    var diffs1, counter1 := EmitUnmatched(source, TableName, target, TableAddedChange(g), [], 0);
    var diffs2, counter2 := EmitUnmatched(target, TableName, source, TableRemovedChange(g), diffs1, counter1);
    ghost var done := TableAdditions(g, source, target);
    PushAfter([], 0, done, TableRemovals(g, source, target), done + TableRemovals(g, source, target),
              diffs1, counter1, diffs2, counter2);
    var counter;
    diffs, counter := CompareMatched(g, source, target, Collect(target, TableName), diffs2, counter2);
    PushAfter([], 0, done + TableRemovals(g, source, target), MatchedChanges(g, source, target),
              SchemaChanges(g, source, target), diffs2, counter2, diffs, counter);
    assert [] + NumberedFrom(SchemaChanges(g, source, target), 0) == NumberedFrom(SchemaChanges(g, source, target), 0);
    NumberedItems(SchemaChanges(g, source, target), 0);
  }
}
