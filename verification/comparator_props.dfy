/**
 * Properties of the comparator's reference `Comparator.SchemaChanges`, which
 * `Comparator.CompareSchemas` numbers and returns: the emission order, what
 * each kind of discrepancy produces, matching by name only for foreign keys
 * and unique constraints, and the empty result of comparing a schema with
 * itself.
 */
module ComparatorProps {
  import opened Wrappers
  import opened Text
  import opened Seqs
  import opened Schema
  import opened DiffModel
  import opened Generators
  import opened Comparator

  // ---------------------------------------------------------------------------
  // Emission order
  // ---------------------------------------------------------------------------

  /** The position of each kind in the emission order. */
  function Rank(k: DiffType): nat
  {
    match k
    case TableAdded => 0
    case TableRemoved => 1
    case ColumnAdded => 2
    case ColumnModified => 2
    case ColumnRemoved => 3
    case IndexAdded => 4
    case IndexModified => 4
    case IndexRemoved => 5
    case ForeignKeyAdded => 6
    case ForeignKeyRemoved => 7
    case UniqueConstraintAdded => 8
    case UniqueConstraintRemoved => 9
  }

  /** Across the whole result only three groups are ordered: added tables, removed tables, everything else. */
  function SchemaRank(k: DiffType): nat
  {
    if Rank(k) < 2 then Rank(k) else 2
  }

  predicate RanksIn(cs: seq<Change>, rank: DiffType -> nat, lo: nat, hi: nat)
  {
    forall k :: 0 <= k < |cs| ==> lo <= rank(cs[k].kind) <= hi
  }

  /** No change is followed by one of a lower rank. */
  predicate Ordered(cs: seq<Change>, rank: DiffType -> nat)
  {
    forall i, j :: 0 <= i < j < |cs| ==> rank(cs[i].kind) <= rank(cs[j].kind)
  }

  /** Every change names the table `name`. */
  predicate InTable(cs: seq<Change>, name: string)
  {
    forall k :: 0 <= k < |cs| ==> cs[k].tableName == name
  }

  lemma OrderedAppend(a: seq<Change>, b: seq<Change>, rank: DiffType -> nat, lo: nat, midA: nat, midB: nat, hi: nat)
    requires Ordered(a, rank) && Ordered(b, rank)
    requires RanksIn(a, rank, lo, midA) && RanksIn(b, rank, midB, hi) && lo <= midA <= midB <= hi
    ensures Ordered(a + b, rank) && RanksIn(a + b, rank, lo, hi)
  {
    forall i, j | 0 <= i < j < |a + b|
      ensures rank((a + b)[i].kind) <= rank((a + b)[j].kind)
    {
      if j < |a| {
        assert (a + b)[i] == a[i] && (a + b)[j] == a[j];
      } else if i < |a| {
        assert (a + b)[i] == a[i] && (a + b)[j] == b[j - |a|];
      } else {
        assert (a + b)[i] == b[i - |a|] && (a + b)[j] == b[j - |a|];
      }
    }
    forall k | 0 <= k < |a + b|
      ensures lo <= rank((a + b)[k].kind) <= hi
    {
      if k < |a| {
        assert (a + b)[k] == a[k];
      } else {
        assert (a + b)[k] == b[k - |a|];
      }
    }
  }

  lemma InTableAppend(a: seq<Change>, b: seq<Change>, name: string)
    requires InTable(a, name) && InTable(b, name)
    ensures InTable(a + b, name)
  {
    forall k | |a| <= k < |a + b|
      ensures (a + b)[k].tableName == name
    {
      assert (a + b)[k] == b[k - |a|];
    }
  }

  /** A group whose changes all have one rank is ordered. */
  lemma SingleRank(cs: seq<Change>, rank: DiffType -> nat, r: nat)
    requires RanksIn(cs, rank, r, r)
    ensures Ordered(cs, rank)
  {
  }

  /** Every change an unmatched-element loop produces is one `mk` builds. */
  lemma UnmatchedAll<T>(xs: seq<T>, key: T -> string, others: seq<T>, mk: T -> Change, p: Change -> bool)
    requires forall x :: p(mk(x))
    ensures forall k :: 0 <= k < |FlatMap(xs, Unmatched(key, others, mk))| ==> p(FlatMap(xs, Unmatched(key, others, mk))[k])
  {
    FlatMapAll(xs, Unmatched(key, others, mk), p);
  }

  /** A source column gives at most one change, of rank 2, naming the table. */
  lemma ColumnStepShape(g: SqlGenerator, table: string, targetColumns: seq<Column>, c: Column)
    ensures |ColumnStep(g, table, targetColumns)(c)| <= 1
    ensures forall k :: 0 <= k < |ColumnStep(g, table, targetColumns)(c)| ==>
              Rank(ColumnStep(g, table, targetColumns)(c)[k].kind) == 2 && ColumnStep(g, table, targetColumns)(c)[k].tableName == table
  {
    match LastWithKey(targetColumns, ColumnName, c.name)
    case None =>
      assert ColumnStep(g, table, targetColumns)(c) == [ColumnAddedChange(g, table)(c)];
    case Some(tc) =>
      assert ColumnStep(g, table, targetColumns)(c) == if c != tc then [ColumnModifiedChange(g, table, c, tc)] else [];
  }

  /** A source index likewise, of rank 4. */
  lemma IndexStepShape(g: SqlGenerator, table: string, targetIndexes: seq<Index>, i: Index)
    ensures |IndexStep(g, table, targetIndexes)(i)| <= 1
    ensures forall k :: 0 <= k < |IndexStep(g, table, targetIndexes)(i)| ==>
              Rank(IndexStep(g, table, targetIndexes)(i)[k].kind) == 4 && IndexStep(g, table, targetIndexes)(i)[k].tableName == table
  {
    match LastWithKey(targetIndexes, IndexName, i.name)
    case None =>
      assert IndexStep(g, table, targetIndexes)(i) == [IndexAddedChange(g, table)(i)];
    case Some(ti) =>
      assert IndexStep(g, table, targetIndexes)(i) == if i != ti then [IndexModifiedChange(g, table, i, ti)] else [];
  }

  /** The four column and index parts of a matched table each hold a single rank, and all name the source table. */
  lemma ColumnIndexPartShapes(g: SqlGenerator, s: TableSchema, t: TableSchema)
    ensures RanksIn(ColumnChanges(g, s, t), Rank, 2, 2) && InTable(ColumnChanges(g, s, t), s.name)
    ensures RanksIn(ColumnRemovals(g, s, t), Rank, 3, 3) && InTable(ColumnRemovals(g, s, t), s.name)
    ensures RanksIn(IndexChanges(g, s, t), Rank, 4, 4) && InTable(IndexChanges(g, s, t), s.name)
    ensures RanksIn(IndexRemovals(g, s, t), Rank, 5, 5) && InTable(IndexRemovals(g, s, t), s.name)
  {
    forall i | 0 <= i < |s.columns| {
      ColumnStepShape(g, s.name, t.columns, s.columns[i]);
    }
    forall i | 0 <= i < |s.indexes| {
      IndexStepShape(g, s.name, t.indexes, s.indexes[i]);
    }
    FlatMapAll(s.columns, ColumnStep(g, s.name, t.columns), (c: Change) => Rank(c.kind) == 2 && c.tableName == s.name);
    UnmatchedAll(t.columns, ColumnName, s.columns, ColumnRemovedChange(g, s.name), (c: Change) => Rank(c.kind) == 3 && c.tableName == s.name);
    FlatMapAll(s.indexes, IndexStep(g, s.name, t.indexes), (c: Change) => Rank(c.kind) == 4 && c.tableName == s.name);
    UnmatchedAll(t.indexes, IndexName, s.indexes, IndexRemovedChange(g, s.name), (c: Change) => Rank(c.kind) == 5 && c.tableName == s.name);
  }

  /** The four foreign-key and unique-constraint parts likewise, ranks 6 to 9. */
  lemma ConstraintPartShapes(g: SqlGenerator, s: TableSchema, t: TableSchema)
    ensures RanksIn(ForeignKeyAdditions(g, s, t), Rank, 6, 6) && InTable(ForeignKeyAdditions(g, s, t), s.name)
    ensures RanksIn(ForeignKeyRemovals(g, s, t), Rank, 7, 7) && InTable(ForeignKeyRemovals(g, s, t), s.name)
    ensures RanksIn(UniqueAdditions(g, s, t), Rank, 8, 8) && InTable(UniqueAdditions(g, s, t), s.name)
    ensures RanksIn(UniqueRemovals(g, s, t), Rank, 9, 9) && InTable(UniqueRemovals(g, s, t), s.name)
  {
    UnmatchedAll(s.foreign_keys, ForeignKeyName, t.foreign_keys, ForeignKeyAddedChange(g, s.name), (c: Change) => Rank(c.kind) == 6 && c.tableName == s.name);
    UnmatchedAll(t.foreign_keys, ForeignKeyName, s.foreign_keys, ForeignKeyRemovedChange(g, s.name), (c: Change) => Rank(c.kind) == 7 && c.tableName == s.name);
    UnmatchedAll(s.unique_constraints, UniqueName, t.unique_constraints, UniqueAddedChange(g, s.name), (c: Change) => Rank(c.kind) == 8 && c.tableName == s.name);
    UnmatchedAll(t.unique_constraints, UniqueName, s.unique_constraints, UniqueRemovedChange(g, s.name), (c: Change) => Rank(c.kind) == 9 && c.tableName == s.name);
  }

  /** Two single-rank parts, the lower first, make an ordered phase naming one table. */
  lemma PhaseShape(a: seq<Change>, b: seq<Change>, r: nat, name: string)
    requires RanksIn(a, Rank, r, r) && RanksIn(b, Rank, r + 1, r + 1)
    requires InTable(a, name) && InTable(b, name)
    ensures Ordered(a + b, Rank) && RanksIn(a + b, Rank, r, r + 1) && InTable(a + b, name)
  {
    SingleRank(a, Rank, r);
    SingleRank(b, Rank, r + 1);
    OrderedAppend(a, b, Rank, r, r, r + 1, r + 1);
    InTableAppend(a, b, name);
  }

  /**
   * Within one matched table: added or modified columns, removed columns,
   * added or modified indexes, removed indexes, added foreign keys, removed
   * foreign keys, added unique constraints, removed unique constraints; every
   * change names the source table and none is a table-level change.
   */
  lemma TableChangesOrdered(g: SqlGenerator, s: TableSchema, t: TableSchema)
    ensures Ordered(TableChanges(g, s, t), Rank)
    ensures RanksIn(TableChanges(g, s, t), Rank, 2, 9)
    ensures InTable(TableChanges(g, s, t), s.name)
  {
    var c, i, f, u := ColumnPhase(g, s, t), IndexPhase(g, s, t), ForeignKeyPhase(g, s, t), UniquePhase(g, s, t);
    ColumnIndexPartShapes(g, s, t);
    ConstraintPartShapes(g, s, t);
    PhaseShape(ColumnChanges(g, s, t), ColumnRemovals(g, s, t), 2, s.name);
    PhaseShape(IndexChanges(g, s, t), IndexRemovals(g, s, t), 4, s.name);
    PhaseShape(ForeignKeyAdditions(g, s, t), ForeignKeyRemovals(g, s, t), 6, s.name);
    PhaseShape(UniqueAdditions(g, s, t), UniqueRemovals(g, s, t), 8, s.name);
    OrderedAppend(c, i, Rank, 2, 3, 4, 5);
    OrderedAppend(c + i, f, Rank, 2, 5, 6, 7);
    OrderedAppend(c + i + f, u, Rank, 2, 7, 8, 9);
    InTableAppend(c, i, s.name);
    InTableAppend(c + i, f, s.name);
    InTableAppend(c + i + f, u, s.name);
  }

  /** The matched-table part holds no table-level change. */
  lemma MatchedChangesRanks(g: SqlGenerator, source: seq<TableSchema>, target: seq<TableSchema>)
    ensures RanksIn(MatchedChanges(g, source, target), Rank, 2, 9)
  {
    var p := (c: Change) => 2 <= Rank(c.kind) <= 9;
    forall i | 0 <= i < |source|
      ensures forall k :: 0 <= k < |MatchedStep(g, target)(source[i])| ==> p(MatchedStep(g, target)(source[i])[k])
    {
      match LastWithKey(target, TableName, source[i].name)
      case None =>
      case Some(t) => TableChangesOrdered(g, source[i], t);
    }
    FlatMapAll(source, MatchedStep(g, target), p);
  }

  /** The three groups of the result and the rank of each. */
  lemma SchemaChangesGroups(g: SqlGenerator, source: seq<TableSchema>, target: seq<TableSchema>)
    ensures RanksIn(TableAdditions(g, source, target), Rank, 0, 0)
    ensures RanksIn(TableRemovals(g, source, target), Rank, 1, 1)
    ensures RanksIn(MatchedChanges(g, source, target), Rank, 2, 9)
  {
    UnmatchedAll(source, TableName, target, TableAddedChange(g), (c: Change) => Rank(c.kind) == 0);
    UnmatchedAll(target, TableName, source, TableRemovedChange(g), (c: Change) => Rank(c.kind) == 1);
    MatchedChangesRanks(g, source, target);
  }

  /** Every TableAdded precedes every TableRemoved, which precedes every change inside a matched table. */
  lemma SchemaChangesOrdered(g: SqlGenerator, source: seq<TableSchema>, target: seq<TableSchema>)
    ensures Ordered(SchemaChanges(g, source, target), SchemaRank)
  {
    var a, r, m := TableAdditions(g, source, target), TableRemovals(g, source, target), MatchedChanges(g, source, target);
    SchemaChangesGroups(g, source, target);
    assert RanksIn(a, SchemaRank, 0, 0) && RanksIn(r, SchemaRank, 1, 1) && RanksIn(m, SchemaRank, 2, 2);
    SingleRank(a, SchemaRank, 0);
    SingleRank(r, SchemaRank, 1);
    SingleRank(m, SchemaRank, 2);
    OrderedAppend(a, r, SchemaRank, 0, 0, 1, 1);
    OrderedAppend(a + r, m, SchemaRank, 0, 1, 2, 2);
  }

  // ---------------------------------------------------------------------------
  // Table-level changes
  // ---------------------------------------------------------------------------

  function IsKind(k: DiffType): Change -> bool
  {
    (c: Change) => c.kind == k
  }

  /** The elements whose name, read by `key`, does not occur among `others`. */
  function Absent<T>(others: seq<T>, key: T -> string): T -> bool
  {
    (x: T) => !HasKey(others, key, key(x))
  }

  lemma FilterSingleton<T>(x: T, p: T -> bool)
    ensures Filter([x], p) == if p(x) then [x] else []
  {
    assert [x][..0] == [];
  }

  /** Filtering an unmatched-element loop for the kind `mk` builds gives one change per unmatched element, in order. */
  lemma FilterUnmatched<T>(xs: seq<T>, key: T -> string, others: seq<T>, mk: T -> Change, k: DiffType, absent: T -> bool)
    requires forall x :: mk(x).kind == k
    requires forall x :: absent(x) == !HasKey(others, key, key(x))
    ensures Filter(FlatMap(xs, Unmatched(key, others, mk)), IsKind(k)) == Map(Filter(xs, absent), mk)
  {
    forall i | 0 <= i < |xs|
      ensures Filter(Unmatched(key, others, mk)(xs[i]), IsKind(k)) == if absent(xs[i]) then [mk(xs[i])] else []
    {
      FilterSingleton(mk(xs[i]), IsKind(k));
    }
    FilterFlatMapSingletons(xs, Unmatched(key, others, mk), IsKind(k), absent, mk);
  }

  /** No change of kind `k` in a group whose ranks exclude `k`'s. */
  lemma FilterOtherRanks(cs: seq<Change>, k: DiffType, lo: nat, hi: nat)
    requires RanksIn(cs, Rank, lo, hi) && !(lo <= Rank(k) <= hi)
    ensures Filter(cs, IsKind(k)) == []
  {
    FilterNone(cs, IsKind(k));
  }

  /**
   * The TableAdded items are one per source table whose name the target
   * lacks, in source order (a repeated source name gives one item per
   * occurrence), each with no object name, "<n> columns" as source
   * definition, and the generator's CREATE TABLE as its SQL.
   */
  lemma TableAddedItems(g: SqlGenerator, source: seq<TableSchema>, target: seq<TableSchema>)
    ensures Filter(SchemaChanges(g, source, target), IsKind(TableAdded)) ==
            Map(Filter(source, Absent(target, TableName)), TableAddedChange(g))
    ensures forall x :: (TableAddedChange(g)(x) ==
              Change(TableAdded, x.name, None, Some(NatToString(|x.columns|) + " columns"), None, g.createTable(x)))
  {
    var a, r, m := TableAdditions(g, source, target), TableRemovals(g, source, target), MatchedChanges(g, source, target);
    SchemaChangesGroups(g, source, target);
    FilterAppend(a + r, m, IsKind(TableAdded));
    FilterAppend(a, r, IsKind(TableAdded));
    FilterUnmatched(source, TableName, target, TableAddedChange(g), TableAdded, Absent(target, TableName));
    FilterOtherRanks(r, TableAdded, 1, 1);
    FilterOtherRanks(m, TableAdded, 2, 9);
  }

  /**
   * The TableRemoved items are one per target table whose name the source
   * lacks, in target order, each with "<n> columns" as target definition and
   * the generator's DROP TABLE of that name as its SQL.
   */
  lemma TableRemovedItems(g: SqlGenerator, source: seq<TableSchema>, target: seq<TableSchema>)
    ensures Filter(SchemaChanges(g, source, target), IsKind(TableRemoved)) ==
            Map(Filter(target, Absent(source, TableName)), TableRemovedChange(g))
    ensures forall x :: (TableRemovedChange(g)(x) ==
              Change(TableRemoved, x.name, None, None, Some(NatToString(|x.columns|) + " columns"), g.dropTable(x.name)))
  {
    var a, r, m := TableAdditions(g, source, target), TableRemovals(g, source, target), MatchedChanges(g, source, target);
    SchemaChangesGroups(g, source, target);
    FilterAppend(a + r, m, IsKind(TableRemoved));
    FilterAppend(a, r, IsKind(TableRemoved));
    FilterUnmatched(target, TableName, source, TableRemovedChange(g), TableRemoved, Absent(source, TableName));
    FilterOtherRanks(a, TableRemoved, 0, 0);
    FilterOtherRanks(m, TableRemoved, 2, 9);
  }

  // ---------------------------------------------------------------------------
  // Changes of one kind inside a matched table
  // ---------------------------------------------------------------------------

  /** The part of a matched table's changes that holds the kind `k`. */
  function PartOf(g: SqlGenerator, s: TableSchema, t: TableSchema, k: DiffType): seq<Change>
  {
    match k
    case TableAdded => []
    case TableRemoved => []
    case ColumnAdded => ColumnChanges(g, s, t)
    case ColumnModified => ColumnChanges(g, s, t)
    case ColumnRemoved => ColumnRemovals(g, s, t)
    case IndexAdded => IndexChanges(g, s, t)
    case IndexModified => IndexChanges(g, s, t)
    case IndexRemoved => IndexRemovals(g, s, t)
    case ForeignKeyAdded => ForeignKeyAdditions(g, s, t)
    case ForeignKeyRemoved => ForeignKeyRemovals(g, s, t)
    case UniqueConstraintAdded => UniqueAdditions(g, s, t)
    case UniqueConstraintRemoved => UniqueRemovals(g, s, t)
  }

  /**
   * Filtering the four phases of a matched table, ranks 2-3, 4-5, 6-7 and 8-9,
   * for one kind keeps only the phase holding that kind's rank.
   */
  lemma FilterPhases(c: seq<Change>, i: seq<Change>, f: seq<Change>, u: seq<Change>, k: DiffType)
    requires RanksIn(c, Rank, 2, 3) && RanksIn(i, Rank, 4, 5) && RanksIn(f, Rank, 6, 7) && RanksIn(u, Rank, 8, 9)
    ensures Filter(c + i + f + u, IsKind(k)) ==
            if Rank(k) <= 3 then Filter(c, IsKind(k))
            else if Rank(k) <= 5 then Filter(i, IsKind(k))
            else if Rank(k) <= 7 then Filter(f, IsKind(k))
            else Filter(u, IsKind(k))
  {
    var p := IsKind(k);
    FilterAppend(c + i + f, u, p);
    FilterAppend(c + i, f, p);
    FilterAppend(c, i, p);
    if Rank(k) > 3 { FilterOtherRanks(c, k, 2, 3); }
    if Rank(k) <= 3 || Rank(k) > 5 { FilterOtherRanks(i, k, 4, 5); }
    if Rank(k) <= 5 || Rank(k) > 7 { FilterOtherRanks(f, k, 6, 7); }
    if Rank(k) <= 7 { FilterOtherRanks(u, k, 8, 9); }
  }

  /** Filtering two consecutive single-rank groups keeps the group of `k`'s rank, or nothing. */
  lemma FilterPair(a: seq<Change>, b: seq<Change>, k: DiffType, r: nat)
    requires RanksIn(a, Rank, r, r) && RanksIn(b, Rank, r + 1, r + 1)
    ensures Filter(a + b, IsKind(k)) ==
            if Rank(k) == r then Filter(a, IsKind(k)) else if Rank(k) == r + 1 then Filter(b, IsKind(k)) else []
  {
    FilterAppend(a, b, IsKind(k));
    if Rank(k) != r { FilterOtherRanks(a, k, r, r); }
    if Rank(k) != r + 1 { FilterOtherRanks(b, k, r + 1, r + 1); }
  }

  /** The changes of kind `k` inside a matched table all come from the part that holds `k`. */
  lemma FilterTableChanges(g: SqlGenerator, s: TableSchema, t: TableSchema, k: DiffType)
    ensures Filter(TableChanges(g, s, t), IsKind(k)) == Filter(PartOf(g, s, t, k), IsKind(k))
  {
    var cc, cr, ic, ir := ColumnChanges(g, s, t), ColumnRemovals(g, s, t), IndexChanges(g, s, t), IndexRemovals(g, s, t);
    var fa, fr, ua, ur := ForeignKeyAdditions(g, s, t), ForeignKeyRemovals(g, s, t), UniqueAdditions(g, s, t), UniqueRemovals(g, s, t);
    ColumnIndexPartShapes(g, s, t);
    ConstraintPartShapes(g, s, t);
    PhaseShape(cc, cr, 2, s.name);
    PhaseShape(ic, ir, 4, s.name);
    PhaseShape(fa, fr, 6, s.name);
    PhaseShape(ua, ur, 8, s.name);
    FilterPhases(cc + cr, ic + ir, fa + fr, ua + ur, k);
    FilterPair(cc, cr, k, 2);
    FilterPair(ic, ir, k, 4);
    FilterPair(fa, fr, k, 6);
    FilterPair(ua, ur, k, 8);
  }

  /**
   * When a kind's part is a by-name comparison of xs against others, the
   * changes of that kind are one per item of xs without a counterpart, in
   * order.
   */
  lemma UnmatchedItems<T>(g: SqlGenerator, s: TableSchema, t: TableSchema, k: DiffType,
                          xs: seq<T>, key: T -> string, others: seq<T>, mk: T -> Change)
    requires PartOf(g, s, t, k) == FlatMap(xs, Unmatched(key, others, mk))
    requires forall x :: mk(x).kind == k
    ensures Filter(TableChanges(g, s, t), IsKind(k)) == Map(Filter(xs, Absent(others, key)), mk)
  {
    FilterTableChanges(g, s, t, k);
    FilterUnmatched(xs, key, others, mk, k, Absent(others, key));
  }

  // ---------------------------------------------------------------------------
  // Columns and indexes
  // ---------------------------------------------------------------------------

  /** A source column whose name the target lacks gives one ColumnAdded carrying its type and the generator's ADD COLUMN. */
  lemma ColumnAddedItem(g: SqlGenerator, table: string, targetColumns: seq<Column>, c: Column)
    requires !HasKey(targetColumns, ColumnName, c.name)
    ensures ColumnStep(g, table, targetColumns)(c) ==
            [Change(ColumnAdded, table, Some(c.name), Some(c.data_type), None, g.addColumn(table, c))]
  {
    assert LastWithKey(targetColumns, ColumnName, c.name) == None;
    assert ColumnStep(g, table, targetColumns)(c) == [ColumnAddedChange(g, table)(c)];
  }

  /**
   * A source column matched with the last target column of its name gives
   * exactly one ColumnModified when the two differ in any field, carrying
   * both data types and the generator's MODIFY of the source column, and
   * nothing when they are equal.
   */
  lemma ColumnModifiedItem(g: SqlGenerator, table: string, targetColumns: seq<Column>, c: Column, j: nat)
    requires j < |targetColumns| && targetColumns[j].name == c.name
    requires forall m :: j < m < |targetColumns| ==> targetColumns[m].name != c.name
    ensures ColumnStep(g, table, targetColumns)(c) ==
            if c == targetColumns[j] then []
            else [Change(ColumnModified, table, Some(c.name), Some(c.data_type), Some(targetColumns[j].data_type),
                         g.modifyColumn(table, c))]
  {
    var r := LastWithKey(targetColumns, ColumnName, c.name);
    assert HasKey(targetColumns, ColumnName, c.name);
    var i :| 0 <= i < |targetColumns| && targetColumns[i] == r.value && ColumnName(targetColumns[i]) == c.name &&
             forall m :: i < m < |targetColumns| ==> ColumnName(targetColumns[m]) != c.name;
    assert i == j;
    assert LastWithKey(targetColumns, ColumnName, c.name) == Some(targetColumns[j]);
    assert ColumnStep(g, table, targetColumns)(c) ==
           if c != targetColumns[j] then [ColumnModifiedChange(g, table, c, targetColumns[j])] else [];
  }

  /**
   * Two columns that differ only in their ordinal position are reported as
   * modified, with equal source and target definitions.
   */
  lemma OrdinalOnlyModified(g: SqlGenerator, table: string, tc: Column, position: Ints.u32)
    requires position != tc.ordinal_position
    ensures var c := tc.(ordinal_position := position);
      ColumnStep(g, table, [tc])(c) ==
        [Change(ColumnModified, table, Some(tc.name), Some(tc.data_type), Some(tc.data_type), g.modifyColumn(table, c))]
  {
    ColumnModifiedItem(g, table, [tc], tc.(ordinal_position := position), 0);
  }

  /**
   * Comments take part in the comparison: a column whose comment alone
   * changed is reported as modified, with equal source and target types.
   */
  lemma CommentOnlyModified(g: SqlGenerator, table: string, tc: Column, comment: Option<string>)
    requires comment != tc.comment
    ensures var c := tc.(comment := comment);
      ColumnStep(g, table, [tc])(c) ==
        [Change(ColumnModified, table, Some(tc.name), Some(tc.data_type), Some(tc.data_type), g.modifyColumn(table, c))]
  {
    ColumnModifiedItem(g, table, [tc], tc.(comment := comment), 0);
  }

  /** A source index whose name the target lacks gives one IndexAdded with its columns joined by ", ". */
  lemma IndexAddedItem(g: SqlGenerator, table: string, targetIndexes: seq<Index>, i: Index)
    requires !HasKey(targetIndexes, IndexName, i.name)
    ensures IndexStep(g, table, targetIndexes)(i) ==
            [Change(IndexAdded, table, Some(i.name), Some(Join(i.columns, ", ")), None, g.addIndex(table, i))]
  {
    assert LastWithKey(targetIndexes, IndexName, i.name) == None;
    assert IndexStep(g, table, targetIndexes)(i) == [IndexAddedChange(g, table)(i)];
  }

  /**
   * A source index that differs from the last target index of its name gives
   * one IndexModified whose SQL drops the index and then creates the source
   * one, on two lines.
   */
  lemma IndexModifiedItem(g: SqlGenerator, table: string, targetIndexes: seq<Index>, i: Index, j: nat)
    requires j < |targetIndexes| && targetIndexes[j].name == i.name
    requires forall m :: j < m < |targetIndexes| ==> targetIndexes[m].name != i.name
    ensures IndexStep(g, table, targetIndexes)(i) ==
            if i == targetIndexes[j] then []
            else [Change(IndexModified, table, Some(i.name), Some(Join(i.columns, ", ")),
                         Some(Join(targetIndexes[j].columns, ", ")),
                         g.dropIndex(table, i.name) + "\n" + g.addIndex(table, i))]
  {
    var r := LastWithKey(targetIndexes, IndexName, i.name);
    assert HasKey(targetIndexes, IndexName, i.name);
    var k :| 0 <= k < |targetIndexes| && targetIndexes[k] == r.value && IndexName(targetIndexes[k]) == i.name &&
             forall m :: k < m < |targetIndexes| ==> IndexName(targetIndexes[m]) != i.name;
    assert k == j;
    assert LastWithKey(targetIndexes, IndexName, i.name) == Some(targetIndexes[j]);
    assert IndexStep(g, table, targetIndexes)(i) ==
           if i != targetIndexes[j] then [IndexModifiedChange(g, table, i, targetIndexes[j])] else [];
  }

  /**
   * Index columns compare as an ordered list: the same columns in another
   * order make a modified index, rebuilt with the source order.
   */
  lemma IndexColumnOrderModified(g: SqlGenerator, table: string, ti: Index, cols: seq<string>)
    requires cols != ti.columns && multiset(cols) == multiset(ti.columns)
    ensures var i := ti.(columns := cols);
      IndexStep(g, table, [ti])(i) ==
        [Change(IndexModified, table, Some(ti.name), Some(Join(cols, ", ")), Some(Join(ti.columns, ", ")),
                g.dropIndex(table, ti.name) + "\n" + g.addIndex(table, i))]
  {
    IndexModifiedItem(g, table, [ti], ti.(columns := cols), 0);
  }

  /**
   * The ColumnRemoved items of a matched table are one per target column
   * whose name the source table lacks, in target order, each carrying the
   * target column's type and the generator's DROP COLUMN.
   */
  lemma ColumnRemovedItems(g: SqlGenerator, s: TableSchema, t: TableSchema)
    ensures Filter(TableChanges(g, s, t), IsKind(ColumnRemoved)) ==
            Map(Filter(t.columns, Absent(s.columns, ColumnName)), ColumnRemovedChange(g, s.name))
    ensures forall x :: (ColumnRemovedChange(g, s.name)(x) ==
              Change(ColumnRemoved, s.name, Some(x.name), None, Some(x.data_type), g.dropColumn(s.name, x.name)))
  {
    UnmatchedItems(g, s, t, ColumnRemoved, t.columns, ColumnName, s.columns, ColumnRemovedChange(g, s.name));
    forall x ensures ColumnRemovedChange(g, s.name)(x) ==
              Change(ColumnRemoved, s.name, Some(x.name), None, Some(x.data_type), g.dropColumn(s.name, x.name)) {
    }
  }

  /**
   * The IndexRemoved items of a matched table are one per target index whose
   * name the source table lacks, in target order, each carrying the target
   * index's columns and the generator's DROP INDEX.
   */
  lemma IndexRemovedItems(g: SqlGenerator, s: TableSchema, t: TableSchema)
    ensures Filter(TableChanges(g, s, t), IsKind(IndexRemoved)) ==
            Map(Filter(t.indexes, Absent(s.indexes, IndexName)), IndexRemovedChange(g, s.name))
    ensures forall x :: (IndexRemovedChange(g, s.name)(x) ==
              Change(IndexRemoved, s.name, Some(x.name), None, Some(Join(x.columns, ", ")), g.dropIndex(s.name, x.name)))
  {
    UnmatchedItems(g, s, t, IndexRemoved, t.indexes, IndexName, s.indexes, IndexRemovedChange(g, s.name));
    forall x ensures IndexRemovedChange(g, s.name)(x) ==
              Change(IndexRemoved, s.name, Some(x.name), None, Some(Join(x.columns, ", ")), g.dropIndex(s.name, x.name)) {
    }
  }

  // ---------------------------------------------------------------------------
  // Foreign keys and unique constraints: matched by name only
  // ---------------------------------------------------------------------------

  /**
   * The ForeignKeyAdded items of a matched table are one per source foreign
   * key whose name the target table lacks, in source order, each with
   * "-> <referenced table>" and the generator's ADD CONSTRAINT. Nothing else
   * about a foreign key is compared.
   */
  lemma ForeignKeyAddedItems(g: SqlGenerator, s: TableSchema, t: TableSchema)
    ensures Filter(TableChanges(g, s, t), IsKind(ForeignKeyAdded)) ==
            Map(Filter(s.foreign_keys, Absent(t.foreign_keys, ForeignKeyName)), ForeignKeyAddedChange(g, s.name))
    ensures forall x :: (ForeignKeyAddedChange(g, s.name)(x) ==
              Change(ForeignKeyAdded, s.name, Some(x.name), Some("-> " + x.ref_table), None, g.addForeignKey(s.name, x)))
  {
    UnmatchedItems(g, s, t, ForeignKeyAdded, s.foreign_keys, ForeignKeyName, t.foreign_keys, ForeignKeyAddedChange(g, s.name));
    forall x ensures ForeignKeyAddedChange(g, s.name)(x) ==
              Change(ForeignKeyAdded, s.name, Some(x.name), Some("-> " + x.ref_table), None, g.addForeignKey(s.name, x)) {
    }
  }

  /** The ForeignKeyRemoved items: one per target foreign key whose name the source lacks, in target order. */
  lemma ForeignKeyRemovedItems(g: SqlGenerator, s: TableSchema, t: TableSchema)
    ensures Filter(TableChanges(g, s, t), IsKind(ForeignKeyRemoved)) ==
            Map(Filter(t.foreign_keys, Absent(s.foreign_keys, ForeignKeyName)), ForeignKeyRemovedChange(g, s.name))
    ensures forall x :: (ForeignKeyRemovedChange(g, s.name)(x) ==
              Change(ForeignKeyRemoved, s.name, Some(x.name), None, Some("-> " + x.ref_table), g.dropForeignKey(s.name, x.name)))
  {
    UnmatchedItems(g, s, t, ForeignKeyRemoved, t.foreign_keys, ForeignKeyName, s.foreign_keys, ForeignKeyRemovedChange(g, s.name));
    forall x ensures ForeignKeyRemovedChange(g, s.name)(x) ==
              Change(ForeignKeyRemoved, s.name, Some(x.name), None, Some("-> " + x.ref_table), g.dropForeignKey(s.name, x.name)) {
    }
  }

  /** The UniqueConstraintAdded items: one per source constraint whose name the target lacks, in source order. */
  lemma UniqueAddedItems(g: SqlGenerator, s: TableSchema, t: TableSchema)
    ensures Filter(TableChanges(g, s, t), IsKind(UniqueConstraintAdded)) ==
            Map(Filter(s.unique_constraints, Absent(t.unique_constraints, UniqueName)), UniqueAddedChange(g, s.name))
    ensures forall x :: (UniqueAddedChange(g, s.name)(x) ==
              Change(UniqueConstraintAdded, s.name, Some(x.name), Some(Join(x.columns, ", ")), None, g.addUnique(s.name, x)))
  {
    UnmatchedItems(g, s, t, UniqueConstraintAdded, s.unique_constraints, UniqueName, t.unique_constraints, UniqueAddedChange(g, s.name));
    forall x ensures UniqueAddedChange(g, s.name)(x) ==
              Change(UniqueConstraintAdded, s.name, Some(x.name), Some(Join(x.columns, ", ")), None, g.addUnique(s.name, x)) {
    }
  }

  /** The UniqueConstraintRemoved items: one per target constraint whose name the source lacks, in target order. */
  lemma UniqueRemovedItems(g: SqlGenerator, s: TableSchema, t: TableSchema)
    ensures Filter(TableChanges(g, s, t), IsKind(UniqueConstraintRemoved)) ==
            Map(Filter(t.unique_constraints, Absent(s.unique_constraints, UniqueName)), UniqueRemovedChange(g, s.name))
    ensures forall x :: (UniqueRemovedChange(g, s.name)(x) ==
              Change(UniqueConstraintRemoved, s.name, Some(x.name), None, Some(Join(x.columns, ", ")), g.dropUnique(s.name, x.name)))
  {
    UnmatchedItems(g, s, t, UniqueConstraintRemoved, t.unique_constraints, UniqueName, s.unique_constraints, UniqueRemovedChange(g, s.name));
    forall x ensures UniqueRemovedChange(g, s.name)(x) ==
              Change(UniqueConstraintRemoved, s.name, Some(x.name), None, Some(Join(x.columns, ", ")), g.dropUnique(s.name, x.name)) {
    }
  }

  /** An item built for an element absent from `others` never carries a name that `others` has. */
  lemma UnmatchedItemsAvoid<T>(xs: seq<T>, others: seq<T>, key: T -> string, mk: T -> Change, name: string)
    requires HasKey(others, key, name)
    requires forall x :: mk(x).objectName == Some(key(x))
    ensures forall c :: c in Map(Filter(xs, Absent(others, key)), mk) ==> c.objectName != Some(name)
  {
    var fs := Filter(xs, Absent(others, key));
    FilterSatisfies(xs, Absent(others, key));
    forall c | c in Map(fs, mk)
      ensures c.objectName != Some(name)
    {
      var j :| 0 <= j < |fs| && Map(fs, mk)[j] == c;
      assert fs[j] in fs;
      assert !HasKey(others, key, key(fs[j]));
    }
  }

  /**
   * A foreign-key name present in both tables produces neither an added nor a
   * removed item, whatever else differs between the two keys.
   */
  lemma ForeignKeyPairSilent(g: SqlGenerator, s: TableSchema, t: TableSchema, name: string)
    requires HasKey(s.foreign_keys, ForeignKeyName, name) && HasKey(t.foreign_keys, ForeignKeyName, name)
    ensures var cs := TableChanges(g, s, t);
      forall k :: 0 <= k < |cs| && (cs[k].kind == ForeignKeyAdded || cs[k].kind == ForeignKeyRemoved) ==>
        cs[k].objectName != Some(name)
  {
    var cs := TableChanges(g, s, t);
    ForeignKeyAddedItems(g, s, t);
    ForeignKeyRemovedItems(g, s, t);
    UnmatchedItemsAvoid(s.foreign_keys, t.foreign_keys, ForeignKeyName, ForeignKeyAddedChange(g, s.name), name);
    UnmatchedItemsAvoid(t.foreign_keys, s.foreign_keys, ForeignKeyName, ForeignKeyRemovedChange(g, s.name), name);
    forall k | 0 <= k < |cs| && (cs[k].kind == ForeignKeyAdded || cs[k].kind == ForeignKeyRemoved)
      ensures cs[k].objectName != Some(name)
    {
      FilterHas(cs, IsKind(cs[k].kind), k);
    }
  }

  /** A unique-constraint name present in both tables likewise produces no item, whatever the columns. */
  lemma UniquePairSilent(g: SqlGenerator, s: TableSchema, t: TableSchema, name: string)
    requires HasKey(s.unique_constraints, UniqueName, name) && HasKey(t.unique_constraints, UniqueName, name)
    ensures var cs := TableChanges(g, s, t);
      forall k :: 0 <= k < |cs| && (cs[k].kind == UniqueConstraintAdded || cs[k].kind == UniqueConstraintRemoved) ==>
        cs[k].objectName != Some(name)
  {
    var cs := TableChanges(g, s, t);
    UniqueAddedItems(g, s, t);
    UniqueRemovedItems(g, s, t);
    UnmatchedItemsAvoid(s.unique_constraints, t.unique_constraints, UniqueName, UniqueAddedChange(g, s.name), name);
    UnmatchedItemsAvoid(t.unique_constraints, s.unique_constraints, UniqueName, UniqueRemovedChange(g, s.name), name);
    forall k | 0 <= k < |cs| && (cs[k].kind == UniqueConstraintAdded || cs[k].kind == UniqueConstraintRemoved)
      ensures cs[k].objectName != Some(name)
    {
      FilterHas(cs, IsKind(cs[k].kind), k);
    }
  }

  /** Every name on one side occurs on the other. */
  predicate SameNames<T>(xs: seq<T>, ys: seq<T>, key: T -> string)
  {
    (forall i :: 0 <= i < |xs| ==> HasKey(ys, key, key(xs[i]))) &&
    (forall j :: 0 <= j < |ys| ==> HasKey(xs, key, key(ys[j])))
  }

  lemma UnmatchedNone<T>(xs: seq<T>, key: T -> string, others: seq<T>, mk: T -> Change)
    requires forall i :: 0 <= i < |xs| ==> HasKey(others, key, key(xs[i]))
    ensures FlatMap(xs, Unmatched(key, others, mk)) == []
  {
    FlatMapNone(xs, Unmatched(key, others, mk));
  }

  /**
   * The corollary for whole tables: when both have the same foreign-key names
   * the foreign-key part is empty, however the same-named keys differ
   * (columns, referenced table, actions): there is no modified kind for
   * foreign keys.
   */
  lemma ForeignKeysByNameOnly(g: SqlGenerator, s: TableSchema, t: TableSchema)
    requires SameNames(s.foreign_keys, t.foreign_keys, ForeignKeyName)
    ensures ForeignKeyPhase(g, s, t) == []
  {
    UnmatchedNone(s.foreign_keys, ForeignKeyName, t.foreign_keys, ForeignKeyAddedChange(g, s.name));
    UnmatchedNone(t.foreign_keys, ForeignKeyName, s.foreign_keys, ForeignKeyRemovedChange(g, s.name));
  }

  /** The same for unique constraints, whatever their columns. */
  lemma UniquesByNameOnly(g: SqlGenerator, s: TableSchema, t: TableSchema)
    requires SameNames(s.unique_constraints, t.unique_constraints, UniqueName)
    ensures UniquePhase(g, s, t) == []
  {
    UnmatchedNone(s.unique_constraints, UniqueName, t.unique_constraints, UniqueAddedChange(g, s.name));
    UnmatchedNone(t.unique_constraints, UniqueName, s.unique_constraints, UniqueRemovedChange(g, s.name));
  }

  // ---------------------------------------------------------------------------
  // Comparing a schema with itself
  // ---------------------------------------------------------------------------

  lemma SameNamesSelf<T>(xs: seq<T>, key: T -> string)
    ensures SameNames(xs, xs, key)
  {
    forall i | 0 <= i < |xs|
      ensures HasKey(xs, key, key(xs[i]))
    {
    }
  }

  /** With unique names, every element is matched with itself and nothing is reported. */
  lemma MatchedStepsSelf<T>(xs: seq<T>, key: T -> string, step: T -> seq<Change>)
    requires UniqueKeys(xs, key)
    requires forall i :: 0 <= i < |xs| && LastWithKey(xs, key, key(xs[i])) == Some(xs[i]) ==> step(xs[i]) == []
    ensures FlatMap(xs, step) == []
  {
    forall i | 0 <= i < |xs|
      ensures step(xs[i]) == []
    {
      LastWithKeyUnique(xs, key, i);
    }
    FlatMapNone(xs, step);
  }

  /** Column and index names are unique within the table. */
  predicate WellKeyed(t: TableSchema)
  {
    UniqueKeys(t.columns, ColumnName) && UniqueKeys(t.indexes, IndexName)
  }

  /** A table compared with itself yields nothing. */
  lemma TableChangesSelf(g: SqlGenerator, t: TableSchema)
    requires WellKeyed(t)
    ensures TableChanges(g, t, t) == []
  {
    MatchedStepsSelf(t.columns, ColumnName, ColumnStep(g, t.name, t.columns));
    MatchedStepsSelf(t.indexes, IndexName, IndexStep(g, t.name, t.indexes));
    SameNamesSelf(t.columns, ColumnName);
    SameNamesSelf(t.indexes, IndexName);
    SameNamesSelf(t.foreign_keys, ForeignKeyName);
    SameNamesSelf(t.unique_constraints, UniqueName);
    UnmatchedNone(t.columns, ColumnName, t.columns, ColumnRemovedChange(g, t.name));
    UnmatchedNone(t.indexes, IndexName, t.indexes, IndexRemovedChange(g, t.name));
    ForeignKeysByNameOnly(g, t, t);
    UniquesByNameOnly(g, t, t);
  }

  /**
   * Comparing a schema with itself yields no change when table names are
   * unique and, within each table, column and index names are unique;
   * `CompareSchemas` then returns the empty list.
   */
  lemma SchemaChangesSelf(g: SqlGenerator, tables: seq<TableSchema>)
    requires UniqueKeys(tables, TableName)
    requires forall i :: 0 <= i < |tables| ==> WellKeyed(tables[i])
    ensures SchemaChanges(g, tables, tables) == []
    ensures NumberedFrom(SchemaChanges(g, tables, tables), 0) == []
  {
    SameNamesSelf(tables, TableName);
    UnmatchedNone(tables, TableName, tables, TableAddedChange(g));
    UnmatchedNone(tables, TableName, tables, TableRemovedChange(g));
    forall i | 0 <= i < |tables|
      ensures MatchedStep(g, tables)(tables[i]) == []
    {
      LastWithKeyUnique(tables, TableName, i);
      TableChangesSelf(g, tables[i]);
    }
    FlatMapNone(tables, MatchedStep(g, tables));
  }

  // ---------------------------------------------------------------------------
  // Ids
  // ---------------------------------------------------------------------------

  /** Two pushed items never share an id. */
  lemma IdsDistinct(cs: seq<Change>, base: nat)
    ensures forall i, j :: 0 <= i < j < |cs| ==> NumberedFrom(cs, base)[i].id != NumberedFrom(cs, base)[j].id
  {
    forall i, j | 0 <= i < j < |cs|
      ensures NumberedFrom(cs, base)[i].id != NumberedFrom(cs, base)[j].id
    {
      if NumberedFrom(cs, base)[i].id == NumberedFrom(cs, base)[j].id {
        NatToStringInjective(base + i + 1, base + j + 1);
      }
    }
  }
}
