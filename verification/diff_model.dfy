/**
 * The comparator's output types (src-tauri/src/models/diff.rs): the twelve
 * change kinds, one diff item, and the result handed to the caller, with
 * their serde JSON form.
 */
module DiffModel {
  import opened Wrappers
  import opened Text
  import opened Json

  /** Exactly the twelve kinds of the Rust enum; there is no modified kind for foreign keys or unique constraints. */
  datatype DiffType =
    | TableAdded
    | TableRemoved
    | ColumnAdded
    | ColumnRemoved
    | ColumnModified
    | IndexAdded
    | IndexRemoved
    | IndexModified
    | ForeignKeyAdded
    | ForeignKeyRemoved
    | UniqueConstraintAdded
    | UniqueConstraintRemoved

  const AllDiffTypes: seq<DiffType> := [
    TableAdded, TableRemoved, ColumnAdded, ColumnRemoved, ColumnModified,
    IndexAdded, IndexRemoved, IndexModified, ForeignKeyAdded, ForeignKeyRemoved,
    UniqueConstraintAdded, UniqueConstraintRemoved]

  /** The enumeration lists every kind once: twelve pairwise-distinct variants. */
  lemma AllDiffTypesComplete(t: DiffType)
    ensures |AllDiffTypes| == 12
    ensures t in AllDiffTypes
    ensures forall i, j :: 0 <= i < j < |AllDiffTypes| ==> AllDiffTypes[i] != AllDiffTypes[j]
  {
  }

  /** The serialised name: `rename_all = "snake_case"` applied to the variant name. */
  function WireName(t: DiffType): string
  {
    match t
    case TableAdded => "table_added"
    case TableRemoved => "table_removed"
    case ColumnAdded => "column_added"
    case ColumnRemoved => "column_removed"
    case ColumnModified => "column_modified"
    case IndexAdded => "index_added"
    case IndexRemoved => "index_removed"
    case IndexModified => "index_modified"
    case ForeignKeyAdded => "foreign_key_added"
    case ForeignKeyRemoved => "foreign_key_removed"
    case UniqueConstraintAdded => "unique_constraint_added"
    case UniqueConstraintRemoved => "unique_constraint_removed"
  }

  /** Deserialisation of a kind from its serialised name. */
  function DiffTypeFromWire(s: string): Option<DiffType>
  {
    match s
    case "table_added" => Some(TableAdded)
    case "table_removed" => Some(TableRemoved)
    case "column_added" => Some(ColumnAdded)
    case "column_removed" => Some(ColumnRemoved)
    case "column_modified" => Some(ColumnModified)
    case "index_added" => Some(IndexAdded)
    case "index_removed" => Some(IndexRemoved)
    case "index_modified" => Some(IndexModified)
    case "foreign_key_added" => Some(ForeignKeyAdded)
    case "foreign_key_removed" => Some(ForeignKeyRemoved)
    case "unique_constraint_added" => Some(UniqueConstraintAdded)
    case "unique_constraint_removed" => Some(UniqueConstraintRemoved)
    case _ => None
  }

  /** Decoding inverts encoding, and only the twelve wire names decode. */
  lemma WireNameRoundTrip(t: DiffType, s: string)
    ensures DiffTypeFromWire(WireName(t)) == Some(t)
    ensures DiffTypeFromWire(s) == Some(t) ==> s == WireName(t)
  {
  }

  datatype DiffItem = DiffItem(
    id: string,
    diff_type: DiffType,
    table_name: string,
    object_name: Option<string>,
    source_def: Option<string>,
    target_def: Option<string>,
    sql: string,
    selected: bool)

  /** `source_tables` and `target_tables` are `usize` counts. */
  datatype DiffResult = DiffResult(items: seq<DiffItem>, source_tables: nat, target_tables: nat)

  function DiffItemToJson(d: DiffItem): Json
  {
    JObj([
      ("id", JStr(d.id)),
      ("diff_type", JStr(WireName(d.diff_type))),
      ("table_name", JStr(d.table_name)),
      ("object_name", OptStr(d.object_name)),
      ("source_def", OptStr(d.source_def)),
      ("target_def", OptStr(d.target_def)),
      ("sql", JStr(d.sql)),
      ("selected", JBool(d.selected))])
  }

  function DiffItemFromJson(j: Json): Option<DiffItem>
  {
    var id :- ReadString(Field(j, "id"));
    var kindName :- ReadString(Field(j, "diff_type"));
    var kind :- DiffTypeFromWire(kindName);
    var table :- ReadString(Field(j, "table_name"));
    var objectName :- ReadOptString(Field(j, "object_name"));
    var sourceDef :- ReadOptString(Field(j, "source_def"));
    var targetDef :- ReadOptString(Field(j, "target_def"));
    var sql :- ReadString(Field(j, "sql"));
    var selected :- ReadBool(Field(j, "selected"));
    Some(DiffItem(id, kind, table, objectName, sourceDef, targetDef, sql, selected))
  }

  /** Every item, with absent options and an unselected flag included, survives serialisation. */
  lemma DiffItemRoundTrip(d: DiffItem)
    ensures DiffItemFromJson(DiffItemToJson(d)) == Some(d)
  {
    var j := DiffItemToJson(d);
    LookupDistinct(j.fields, 0);
    LookupDistinct(j.fields, 1);
    LookupDistinct(j.fields, 2);
    LookupDistinct(j.fields, 3);
    LookupDistinct(j.fields, 4);
    LookupDistinct(j.fields, 5);
    LookupDistinct(j.fields, 6);
    LookupDistinct(j.fields, 7);
    assert ReadString(Field(j, "id")) == Some(d.id);
    assert ReadString(Field(j, "diff_type")) == Some(WireName(d.diff_type));
    assert ReadString(Field(j, "table_name")) == Some(d.table_name);
    assert ReadString(Field(j, "sql")) == Some(d.sql);
    assert ReadBool(Field(j, "selected")) == Some(d.selected);
    WireNameRoundTrip(d.diff_type, "");
    ReadOptStringOptStr(d.object_name);
    ReadOptStringOptStr(d.source_def);
    ReadOptStringOptStr(d.target_def);
  }

  function DiffResultToJson(r: DiffResult): Json
  {
    JObj([
      ("items", JArr(ItemsToJson(r.items))),
      ("source_tables", JNum(r.source_tables)),
      ("target_tables", JNum(r.target_tables))])
  }

  function ItemsToJson(items: seq<DiffItem>): (js: seq<Json>)
    ensures |js| == |items|
    ensures forall i :: 0 <= i < |items| ==> js[i] == DiffItemToJson(items[i])
  {
    seq(|items|, i requires 0 <= i < |items| => DiffItemToJson(items[i]))
  }

  function ItemsFromJson(js: seq<Json>): Option<seq<DiffItem>>
  {
    if |js| == 0 then Some([])
    else
      var first :- DiffItemFromJson(js[0]);
      var rest :- ItemsFromJson(js[1..]);
      Some([first] + rest)
  }

  function DiffResultFromJson(j: Json): Option<DiffResult>
  {
    var items :- Field(j, "items");
    var list :- if items.JArr? then Some(items.items) else None;
    var decoded :- ItemsFromJson(list);
    var sourceTables :- ReadNat(Field(j, "source_tables"));
    var targetTables :- ReadNat(Field(j, "target_tables"));
    Some(DiffResult(decoded, sourceTables, targetTables))
  }

  lemma {:induction false} ItemsRoundTrip(items: seq<DiffItem>)
    ensures ItemsFromJson(ItemsToJson(items)) == Some(items)
    decreases |items|
  {
    var js := ItemsToJson(items);
    if |items| > 0 {
      DiffItemRoundTrip(items[0]);
      assert js[1..] == ItemsToJson(items[1..]);
      ItemsRoundTrip(items[1..]);
      assert [items[0]] + items[1..] == items;
    }
  }

  /** The items, in order, and both table counts come back unchanged. */
  lemma DiffResultRoundTrip(r: DiffResult)
    ensures DiffResultFromJson(DiffResultToJson(r)) == Some(r)
  {
    var j := DiffResultToJson(r);
    LookupDistinct(j.fields, 0);
    LookupDistinct(j.fields, 1);
    LookupDistinct(j.fields, 2);
    assert Field(j, "items") == Some(JArr(ItemsToJson(r.items)));
    assert ReadNat(Field(j, "source_tables")) == Some(r.source_tables);
    assert ReadNat(Field(j, "target_tables")) == Some(r.target_tables);
    ItemsRoundTrip(r.items);
  }
}
