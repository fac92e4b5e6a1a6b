# database-structure-sync: a Dafny model of the schema comparator, SQL generators and stored connections

database-structure-sync compares two database schemas. One is the source, whose structure is wanted. The other is the target, whose structure is to be changed. It lists every difference as a `DiffItem` that carries the SQL needed to fix it. This project models the pure core of that program and proves properties about the model:

- **The comparator** (`compare_schemas`, `compare_tables`). It is modelled twice:
  - `Comparator.SchemaChanges` is a functional reference: a flat-map of per-element steps that says which changes appear and in which order.
  - `Comparator.CompareSchemas` and the methods it calls are the source's loops. They thread the diff list and the id counter.

  The methods are proved to produce exactly the reference list, numbered "1", "2", … in order. The lemmas in `ComparatorProps` are about the reference: ordering, table-level items, column and index items, name-only matching of foreign keys and unique constraints, a schema compared with itself, and distinct ids.
- **The two SQL dialect generators** (`MySqlGen`, `PostgresGen`) build their statements as exact strings. `Generators.Generator` packs either dialect into the `SqlGenerator` record of twelve functions that the comparator takes as a parameter. The comparator lemmas therefore hold for any generator, and the generator lemmas hold for each dialect.
- **The row-to-model mappings** of the schema readers (`Introspection`). Column rows become `Column`. Key rows become primary keys. Index, foreign-key and unique-constraint rows are grouped by name into `HashMap`s. Each grouping is modelled as a map and characterised key by key.
- **The connection store's pure parts** (`ConfigStore`). The column values `save_connection` writes, the keyring entries it stores, `fetch_connection_passwords`, and `ConnectionRow::into_connection`. They are tied together by a save-then-load lemma.
- **The value types**:
  - the schema model with its derived equality (`Schema`);
  - the diff model and its snake_case wire names (`DiffModel`);
  - connections, which never serialise the password (`Connection`);
  - the application error's display text, JSON form and conversions (`Errors`).

  JSON is modelled at the value level (`Json`), not as text.

Name lookups in the source are `HashMap`s built by `collect()`. They are modelled as sequence searches:

- `Seqs.HasKey` says some element has the name.
- `Seqs.LastWithKey` gives the last element with the name, which is the one `get` returns.
- `Seqs.FirstWithKey` gives the first such row, which is the row that creates an `entry(..).or_insert(..)` entry.

The code has twelve `DiffType` variants and has no modified kind for foreign keys or unique constraints: two that share a name are never compared. Some of the repository's tests expect `ForeignKeyModified` and `UniqueConstraintModified` kinds. The model follows the code. `DiffModel.AllDiffTypesComplete` lists the kinds. `ComparatorProps.ForeignKeyPairSilent` and `ComparatorProps.UniquePairSilent` state that a name both tables share produces no item. `ComparatorProps.ForeignKeysByNameOnly` and `ComparatorProps.UniquesByNameOnly` are the whole-table corollaries.

## Model

| member | source | states |
|---|---|---|
| `Comparator.CompareSchemas` | src-tauri/src/diff/comparator.rs:5-58 | The result is the reference change list numbered from a counter starting at 0. Item k has id "k+1" and is selected, and stripping its id and flag gives the k-th change: added tables, then removed tables, then the changes inside each matched table. |
| `Comparator.CompareMatched` | src-tauri/src/diff/comparator.rs:51-55 | The matched-table loop appends, with consecutive ids, the changes of each source table that has a target table of its name, in source order. |
| `Comparator.MatchedPass` | src-tauri/src/diff/comparator.rs:51-55 | One iteration of that loop extends the numbered list from the changes of the tables seen so far to those of one more table. |
| `Comparator.CompareIfMatched` | src-tauri/src/diff/comparator.rs:52-54 | The loop body pushes nothing for a table absent from the target. Otherwise it pushes the table's changes against the target table found by `get`. |
| `Comparator.MatchedStepCases` | src-tauri/src/diff/comparator.rs:52-53 | Looking a table up in the collected target map finds the last target table of that name, exactly when one exists. |
| `Comparator.CompareTables` | src-tauri/src/diff/comparator.rs:60-238 | `compare_tables` appends the table's changes to the list and advances the counter by their number. The changes are column, index, foreign-key and unique-constraint changes, in that order. |
| `Comparator.CompareColumns` | src-tauri/src/diff/comparator.rs:71-115 | Added or modified columns follow source order; removed columns follow target order. |
| `Comparator.EmitColumns` | src-tauri/src/diff/comparator.rs:71-99 | The source-column loop pushes, in order, each column's step against the target columns. |
| `Comparator.PushColumn` | src-tauri/src/diff/comparator.rs:72-97 | One column pushes an added item when the target lacks its name. It pushes a modified item when the target column of that name differs, and nothing otherwise. |
| `Comparator.ColumnStepCases` | src-tauri/src/diff/comparator.rs:72-97 | The column step read through the collected target map agrees with the step read through name search. |
| `Comparator.CompareIndexes` | src-tauri/src/diff/comparator.rs:121-165 | Added or modified indexes follow source order; removed indexes follow target order. |
| `Comparator.EmitIndexes` | src-tauri/src/diff/comparator.rs:121-149 | The source-index loop pushes, in order, each index's step against the target indexes. |
| `Comparator.PushIndex` | src-tauri/src/diff/comparator.rs:122-147 | One index pushes an added item when the target lacks its name. It pushes a modified item when the target index of that name differs, and nothing otherwise. |
| `Comparator.IndexStepCases` | src-tauri/src/diff/comparator.rs:122-147 | The index step read through the collected target map agrees with the step read through name search. |
| `Comparator.CompareForeignKeys` | src-tauri/src/diff/comparator.rs:171-201 | Foreign keys are pushed as added, for names the target lacks, then as removed, for names the source lacks. |
| `Comparator.CompareUniques` | src-tauri/src/diff/comparator.rs:207-237 | Unique constraints are pushed as added, then as removed, by name alone. |
| `Comparator.EmitUnmatched` | src-tauri/src/diff/comparator.rs:17-31 | A "push if the other side lacks the name" loop pushes one numbered item per unmatched element, in order. |
| `Comparator.NumberedFrom` | src-tauri/src/diff/comparator.rs:19-21 | Numbering pushes exactly one item per change. |
| `Comparator.Item` | src-tauri/src/diff/comparator.rs:19-29 | A pushed item is selected, its id parses back to the counter value, and stripping the id and flag gives back the change. |
| `Comparator.NumberedItems` | src-tauri/src/diff/comparator.rs:11-21 | The k-th item numbered from base b has id b+k+1, is selected, and holds the k-th change. |
| `ComparatorProps.SchemaChangesOrdered` | src-tauri/src/diff/comparator.rs:17-55 | Every TableAdded precedes every TableRemoved, which precedes every change inside a matched table. |
| `ComparatorProps.SchemaChangesGroups` | src-tauri/src/diff/comparator.rs:17-55 | The first group holds only TableAdded and the second only TableRemoved. The third holds only column, index, foreign-key and unique-constraint kinds. |
| `ComparatorProps.MatchedChangesRanks` | src-tauri/src/diff/comparator.rs:51-55 | Matched tables never produce a table-level change. |
| `ComparatorProps.TableChangesOrdered` | src-tauri/src/diff/comparator.rs:60-238 | Inside a table, the changes come in kind order and all name the source table. The order is: columns added or modified, columns removed, indexes added or modified, indexes removed, foreign keys added, foreign keys removed, uniques added, uniques removed. |
| `ComparatorProps.ColumnIndexPartShapes` | src-tauri/src/diff/comparator.rs:71-165 | Added or modified columns, removed columns, added or modified indexes and removed indexes each form one part of a single kind group, all naming the source table. |
| `ComparatorProps.ConstraintPartShapes` | src-tauri/src/diff/comparator.rs:171-237 | Added foreign keys, removed foreign keys, added unique constraints and removed unique constraints each form one part of a single kind, all naming the source table. |
| `ComparatorProps.FilterTableChanges` | src-tauri/src/diff/comparator.rs:60-238 | The changes of one kind inside a matched table are exactly the changes of that kind in the one part that pushes it; no other part contributes. |
| `ComparatorProps.ColumnStepShape` | src-tauri/src/diff/comparator.rs:71-99 | A source column contributes at most one change, added or modified, naming its table. |
| `ComparatorProps.IndexStepShape` | src-tauri/src/diff/comparator.rs:121-149 | A source index contributes at most one change, added or modified, naming its table. |
| `ComparatorProps.TableAddedItems` | src-tauri/src/diff/comparator.rs:17-31 | The TableAdded items are one per source table whose name the target lacks, in source order, duplicates included. Each has no object, "n columns" as source definition and the generator's CREATE TABLE as SQL. |
| `ComparatorProps.TableRemovedItems` | src-tauri/src/diff/comparator.rs:34-48 | The TableRemoved items are one per target table whose name the source lacks, in target order. Each has "n columns" as target definition and the generator's DROP TABLE as SQL. |
| `ComparatorProps.ColumnAddedItem` | src-tauri/src/diff/comparator.rs:72-83 | A column whose name the target lacks gives exactly one ColumnAdded with its type and the generator's ADD COLUMN. |
| `ComparatorProps.ColumnModifiedItem` | src-tauri/src/diff/comparator.rs:84-97 | Against the last target column of its name, a column gives one ColumnModified exactly when the two differ. The item carries both data types and the generator's MODIFY COLUMN for the source column; otherwise nothing is given. |
| `ComparatorProps.ColumnRemovedItems` | src-tauri/src/diff/comparator.rs:100-115 | The ColumnRemoved items of a matched table are one per target column whose name the source table lacks, in target order. Each carries the target column's type and the generator's DROP COLUMN. |
| `ComparatorProps.OrdinalOnlyModified` | src-tauri/src/diff/comparator.rs:85-97 | Two columns that differ only in ordinal position still give a ColumnModified. |
| `ComparatorProps.CommentOnlyModified` | src-tauri/src/diff/comparator.rs:85-97 | Columns are compared with derived equality, comments included: a column whose comment alone changed gives a ColumnModified with equal source and target types. |
| `ComparatorProps.IndexAddedItem` | src-tauri/src/diff/comparator.rs:122-133 | An index whose name the target lacks gives one IndexAdded with its column names joined by ", " and the generator's CREATE INDEX. |
| `ComparatorProps.IndexModifiedItem` | src-tauri/src/diff/comparator.rs:134-147 | Against the last target index of its name, an index gives one IndexModified exactly when the two differ. Its SQL is the generator's DROP INDEX, a newline, then its CREATE INDEX. |
| `ComparatorProps.IndexColumnOrderModified` | src-tauri/src/diff/comparator.rs:135-147 | Index columns compare as an ordered list: the same columns in another order give an IndexModified that drops the index and creates it with the source order. |
| `ComparatorProps.IndexRemovedItems` | src-tauri/src/diff/comparator.rs:150-165 | The IndexRemoved items are one per target index whose name the source table lacks, in target order. Each carries the target index's columns joined by ", " and the generator's DROP INDEX. |
| `ComparatorProps.ForeignKeyAddedItems` | src-tauri/src/diff/comparator.rs:171-185 | The ForeignKeyAdded items are one per source foreign key whose name the target table lacks, in source order. Each has "-> " and the referenced table as source definition and the generator's ADD CONSTRAINT. |
| `ComparatorProps.ForeignKeyRemovedItems` | src-tauri/src/diff/comparator.rs:187-201 | The ForeignKeyRemoved items are one per target foreign key whose name the source table lacks, in target order, with the generator's DROP FOREIGN KEY. |
| `ComparatorProps.UniqueAddedItems` | src-tauri/src/diff/comparator.rs:207-221 | The UniqueConstraintAdded items are one per source unique constraint whose name the target table lacks, in source order, with its columns and the generator's ADD UNIQUE. |
| `ComparatorProps.UniqueRemovedItems` | src-tauri/src/diff/comparator.rs:223-237 | The UniqueConstraintRemoved items are one per target unique constraint whose name the source table lacks, in target order, with the generator's DROP UNIQUE. |
| `ComparatorProps.ForeignKeyPairSilent` | src-tauri/src/diff/comparator.rs:171-201 | A foreign-key name present in both tables gives neither an added nor a removed item, whatever else differs between the two keys. No precondition on the other names. |
| `ComparatorProps.UniquePairSilent` | src-tauri/src/diff/comparator.rs:207-237 | A unique-constraint name present in both tables gives no item, whatever the columns. |
| `ComparatorProps.ForeignKeysByNameOnly` | src-tauri/src/diff/comparator.rs:171-201 | Corollary for whole tables: when both have the same foreign-key names, the foreign-key part is empty, whatever the keys' columns, references or actions. |
| `ComparatorProps.UniquesByNameOnly` | src-tauri/src/diff/comparator.rs:207-237 | Corollary for whole tables: when both have the same unique-constraint names, the unique-constraint part is empty, whatever their columns. |
| `ComparatorProps.TableChangesSelf` | src-tauri/src/diff/comparator.rs:60-238 | A table with unique column and index names, compared with itself, gives no change. |
| `ComparatorProps.SchemaChangesSelf` | src-tauri/src/diff/comparator.rs:5-58 | A schema with unique table names, whose tables are well keyed, compared with itself gives an empty diff list. |
| `ComparatorProps.IdsDistinct` | src-tauri/src/diff/comparator.rs:19-21 | No two pushed items share an id. |
| `MySqlGen.QuoteIdentifier` | src-tauri/src/db/mysql.rs:299-301 | The quoted name always reads back, as a back-quoted identifier with doubled inner back-quotes, to the name. |
| `MySqlGen.CommentLiteral` | src-tauri/src/db/mysql.rs:319-321 | The comment literal always reads back, as a single-quoted SQL string with doubled quotes, to the comment. |
| `MySqlGen.NotNullClause` | src-tauri/src/db/mysql.rs:310-312 | " NOT NULL" is written exactly when the column is not nullable, and nothing otherwise. |
| `MySqlGen.AutoIncrementClause` | src-tauri/src/db/mysql.rs:316-318 | " AUTO_INCREMENT" is written exactly when the column is auto-increment, and nothing otherwise. |
| `MySqlGen.CommentClause` | src-tauri/src/db/mysql.rs:319-321 | With a comment the clause is " COMMENT " and the comment literal; without one it is empty. |
| `MySqlGen.ColumnDefinitionOrder` | src-tauri/src/db/mysql.rs:308-322 | A column is written as the quoted name, a space and the type, then " NOT NULL" iff not nullable, " DEFAULT " and the default iff present, " AUTO_INCREMENT" iff set, and " COMMENT " and the literal iff present, in that order. |
| `MySqlGen.CreateTableParts` | src-tauri/src/db/mysql.rs:308-385 | The parts of CREATE TABLE, in order, are the columns, the primary key if any, the indexes, the unique constraints and the foreign keys, with nothing else between them. |
| `MySqlGen.NotNullIffNotNullable` | src-tauri/src/db/mysql.rs:308-322 | The modifiers after the type start with " NOT NULL" exactly when the column is not nullable. |
| `MySqlGen.NullableModifiersSkipNotNull` | src-tauri/src/db/mysql.rs:308-322 | A nullable column's modifiers never start with the NOT NULL keyword. |
| `MySqlGen.ColumnRenderedAlike` | src-tauri/src/db/mysql.rs:393-445 | ADD COLUMN, MODIFY COLUMN and the CREATE TABLE column part share one column definition, which starts with the quoted name and the type. |
| `MySqlGen.CreateTableFrame` | src-tauri/src/db/mysql.rs:303-387 | CREATE TABLE opens with the quoted table name and " (" and a newline, and closes with a newline and ");". |
| `MySqlGen.CreateTable` | src-tauri/src/db/mysql.rs:303-387 | The table's name reads back, as a back-quoted identifier, right after "CREATE TABLE ". |
| `MySqlGen.CreateTableAddForeignKey` | src-tauri/src/db/mysql.rs:362-385 | The parts of CREATE TABLE are joined by ",\n": a foreign key added to a table goes in just before the closing "\n);", after ",\n" unless it is the only part. |
| `MySqlGen.DropTable` | src-tauri/src/db/mysql.rs:389-391 | The table's name reads back right after "DROP TABLE ", and exactly ";" follows it. |
| `MySqlGen.AddColumn` | src-tauri/src/db/mysql.rs:393-414 | The table reads back after "ALTER TABLE ", and the column's name after " ADD COLUMN ". |
| `MySqlGen.DropColumn` | src-tauri/src/db/mysql.rs:416-422 | The table reads back after "ALTER TABLE ", the column after " DROP COLUMN ", and exactly ";" follows. |
| `MySqlGen.ModifyColumn` | src-tauri/src/db/mysql.rs:424-445 | The table reads back after "ALTER TABLE ", and the column's name after " MODIFY COLUMN ". |
| `MySqlGen.AddIndex` | src-tauri/src/db/mysql.rs:447-465 | The index name reads back after "CREATE INDEX " or "CREATE UNIQUE INDEX ", and the table after " ON ". The statement starts "CREATE UNIQUE INDEX " exactly for a unique index. |
| `MySqlGen.DropIndex` | src-tauri/src/db/mysql.rs:467-473 | The index name reads back after "DROP INDEX ", the table after " ON ", and exactly ";" follows. |
| `MySqlGen.AddForeignKey` | src-tauri/src/db/mysql.rs:475-496 | The table reads back after "ALTER TABLE ", and the key's name after " ADD CONSTRAINT ". |
| `MySqlGen.DropForeignKey` | src-tauri/src/db/mysql.rs:498-504 | The table reads back after "ALTER TABLE ", the key after " DROP FOREIGN KEY ", and exactly ";" follows. |
| `MySqlGen.AddUnique` | src-tauri/src/db/mysql.rs:506-518 | The table reads back after "ALTER TABLE ", and the constraint's name after " ADD CONSTRAINT ". |
| `MySqlGen.DropUnique` | src-tauri/src/db/mysql.rs:520-526 | The table reads back after "ALTER TABLE ", the constraint after " DROP INDEX ", and exactly ";" follows. |
| `MySqlGen.DropStatementsDetermineTargets` | src-tauri/src/db/mysql.rs:389-526 | Two drop statements of one kind are the same text exactly when they drop the same object of the same table. |
| `MySqlGen.ForeignKeyAndUniqueDropsDiffer` | src-tauri/src/db/mysql.rs:498-526 | Dropping a foreign key and dropping a unique constraint never give the same statement. |
| `PostgresGen.QuoteIdentifier` | src-tauri/src/db/postgres.rs:260-262 | The quoted name always reads back, as a delimited identifier with doubled inner double quotes, to the name. |
| `PostgresGen.ColumnType` | src-tauri/src/db/postgres.rs:269-269 | An auto-increment column is typed SERIAL; any other column keeps its declared type. |
| `PostgresGen.NotNullClause` | src-tauri/src/db/postgres.rs:271-273 | " NOT NULL" is written exactly for a non-nullable column that is not auto-increment. |
| `PostgresGen.CreateTableParts` | src-tauri/src/db/postgres.rs:268-299 | The inline parts, in order, are the columns, the primary key if any, the unique constraints and the foreign keys. No index is inline. |
| `PostgresGen.NotNullIffPlainNotNullable` | src-tauri/src/db/postgres.rs:268-278 | The modifiers after the type start with " NOT NULL" exactly for a non-nullable column that is not auto-increment. |
| `PostgresGen.CreateTableThenIndexes` | src-tauri/src/db/postgres.rs:264-315 | CREATE TABLE is the statement for the table without its indexes, followed by one CREATE INDEX line per index. |
| `PostgresGen.CreateTableOpens` | src-tauri/src/db/postgres.rs:264-265 | CREATE TABLE opens with the quoted table name and " (" and a newline, before any column or index. |
| `PostgresGen.CreateTableAddIndex` | src-tauri/src/db/postgres.rs:304-312 | Adding an index to the table appends exactly a newline and that index's CREATE INDEX statement. |
| `PostgresGen.AutoIncrementAddedAsSerial` | src-tauri/src/db/postgres.rs:321-335 | An auto-increment column is added as if it were a nullable SERIAL column: its declared type and NOT NULL are dropped. |
| `PostgresGen.CommentsIgnored` | src-tauri/src/db/postgres.rs:264-347 | No column comment affects ADD COLUMN, ALTER COLUMN TYPE or the CREATE TABLE column part. |
| `PostgresGen.ModifyColumnOnlyType` | src-tauri/src/db/postgres.rs:341-347 | Two same-named columns give the same ALTER COLUMN statement exactly when their written types agree; nullability and defaults play no part. |
| `PostgresGen.DropConstraintShared` | src-tauri/src/db/postgres.rs:373-387 | Dropping a foreign key and dropping a unique constraint are the same DROP CONSTRAINT statement. |
| `PostgresGen.ColumnDefinitionOrder` | src-tauri/src/db/postgres.rs:268-278 | A column is written as the quoted name, a space, SERIAL or the declared type, then " NOT NULL" iff not nullable and not auto-increment, then " DEFAULT " and the default iff present. No comment or AUTO_INCREMENT appears. |
| `PostgresGen.TableStatement` | src-tauri/src/db/postgres.rs:264-302 | The table's name reads back, as a double-quoted identifier, right after "CREATE TABLE ". |
| `PostgresGen.TableStatementAddForeignKey` | src-tauri/src/db/postgres.rs:290-302 | The inline parts are joined by ",\n": a foreign key added to a table goes in just before the closing "\n);" of the table statement, after ",\n" unless it is the only part. |
| `PostgresGen.CreateTable` | src-tauri/src/db/postgres.rs:264-315 | With the trailing CREATE INDEX lines appended, the table's name still reads back right after "CREATE TABLE ". |
| `PostgresGen.DropTable` | src-tauri/src/db/postgres.rs:317-319 | The table's name reads back right after "DROP TABLE ", and exactly ";" follows it. |
| `PostgresGen.AddColumn` | src-tauri/src/db/postgres.rs:321-335 | The table reads back after "ALTER TABLE ", and the column's name after " ADD COLUMN ". |
| `PostgresGen.DropColumn` | src-tauri/src/db/postgres.rs:337-339 | The table reads back after "ALTER TABLE ", the column after " DROP COLUMN ", and exactly ";" follows. |
| `PostgresGen.ModifyColumn` | src-tauri/src/db/postgres.rs:341-347 | The table reads back after "ALTER TABLE ", the column's name after " ALTER COLUMN ", and exactly " TYPE ", the written type (SERIAL or the declared one) and ";" follow. |
| `PostgresGen.AddIndex` | src-tauri/src/db/postgres.rs:349-356 | The index name reads back after "CREATE INDEX " or "CREATE UNIQUE INDEX ", and the table after " ON ". The statement starts "CREATE UNIQUE INDEX " exactly for a unique index. |
| `PostgresGen.DropIndex` | src-tauri/src/db/postgres.rs:358-360 | The index name reads back right after "DROP INDEX ", and exactly ";" follows; no table is named. |
| `PostgresGen.AddForeignKey` | src-tauri/src/db/postgres.rs:362-371 | The table reads back after "ALTER TABLE ", and the key's name after " ADD CONSTRAINT ". |
| `PostgresGen.DropForeignKey` | src-tauri/src/db/postgres.rs:373-375 | The table reads back after "ALTER TABLE ", the key after " DROP CONSTRAINT ", and exactly ";" follows. |
| `PostgresGen.AddUnique` | src-tauri/src/db/postgres.rs:377-383 | The table reads back after "ALTER TABLE ", and the constraint's name after " ADD CONSTRAINT ". |
| `PostgresGen.DropUnique` | src-tauri/src/db/postgres.rs:385-387 | The table reads back after "ALTER TABLE ", the constraint after " DROP CONSTRAINT ", and exactly ";" follows. |
| `PostgresGen.DropStatementsDetermineTargets` | src-tauri/src/db/postgres.rs:317-387 | Two drop statements of one kind are the same text exactly when they drop the same object of the same table. DROP INDEX is the exception: it depends on the index name alone. |
| `SqlCommon.DefaultClause` | src-tauri/src/db/mysql.rs:313-315 | With a default the clause is " DEFAULT " and the default text verbatim; without one it is empty. |
| `Generators.Generator` | src-tauri/src/db/traits.rs:13-26 | In either dialect, the generator's quoting always reads back, under that dialect's delimiter, to the name. |
| `Generators.DialectOf` | src-tauri/src/main.rs:47-75 | PostgreSQL connections get the PostgreSQL generator; MySQL and MariaDB both get the MySQL one. |
| `Generators.SharedTemplates` | src-tauri/src/db/postgres.rs:317-383 | Both dialects build ADD INDEX, ADD FOREIGN KEY, ADD UNIQUE, DROP TABLE and DROP COLUMN from the same templates, differing only in quoting. |
| `Generators.QuoteInjective` | src-tauri/src/db/mysql.rs:299-301 | In either dialect, two names quote alike exactly when they are equal. |
| `Generators.DropForms` | src-tauri/src/db/postgres.rs:358-387 | PostgreSQL's DROP INDEX ignores the table, and it drops foreign keys and unique constraints alike. MySQL's DROP INDEX names the table, and its two constraint drops differ. |
| `Generators.CreateTableOpening` | src-tauri/src/db/traits.rs:15-15 | In both dialects CREATE TABLE opens with the quoted table name and " (" and a newline. |
| `DiffModel.AllDiffTypesComplete` | src-tauri/src/models/diff.rs:5-18 | There are exactly twelve pairwise-distinct diff kinds and every kind is among them. |
| `DiffModel.WireNameRoundTrip` | src-tauri/src/models/diff.rs:4-18 | Decoding a kind's snake_case name gives the kind, and only that name decodes to it. |
| `DiffModel.DiffItemRoundTrip` | src-tauri/src/models/diff.rs:20-30 | Every diff item survives serialisation, absent options and an unselected flag included. |
| `DiffModel.ItemsRoundTrip` | src-tauri/src/models/diff.rs:34-34 | A list of items survives serialisation in order. |
| `DiffModel.DiffResultRoundTrip` | src-tauri/src/models/diff.rs:32-37 | A diff result survives serialisation with its items and both table counts. |
| `Connection.DefaultPort` | src-tauri/src/models/connection.rs:11-18 | The default port is 3306 exactly for MySQL and MariaDB and 5432 exactly for PostgreSQL. |
| `Connection.DbTypeName` | src-tauri/src/models/connection.rs:3-9 | Each kind's serialised lowercase name decodes back to that kind. |
| `Connection.DbTypeNameRoundTrip` | src-tauri/src/models/connection.rs:3-9 | Each kind's lowercase name decodes to that kind, and no other text does. |
| `Connection.AuthTag` | src-tauri/src/models/connection.rs:20-28 | The tag is "password" exactly for password authentication and "privatekey" exactly for key authentication. |
| `Connection.AuthRoundTrip` | src-tauri/src/models/connection.rs:20-28 | An SSH authentication method survives serialisation. |
| `Connection.SshRoundTrip` | src-tauri/src/models/connection.rs:30-37 | An SSH configuration survives serialisation. |
| `Connection.SslRoundTrip` | src-tauri/src/models/connection.rs:39-46 | An SSL configuration survives serialisation. |
| `Connection.ConnectionToJson` | src-tauri/src/models/connection.rs:48-63 | A serialised connection is an object without a password member. |
| `Connection.PasswordNeverSerialised` | src-tauri/src/models/connection.rs:56-57 | The serialised connection does not depend on the password and never contains it. |
| `Connection.SerialisedConnectionLacksPassword` | src-tauri/src/models/connection.rs:48-63 | A serialised connection cannot be read back as it is, because reading demands the skipped password. |
| `Connection.ConnectionRoundTripWithPassword` | src-tauri/src/models/connection.rs:48-63 | With its password member added back, a serialised connection reads back to the connection. |
| `ConfigStore.StoredDbType` | src-tauri/src/storage/config.rs:105-109 | The stored database kind is the kind's serialised name. |
| `ConfigStore.StoredSsh` | src-tauri/src/storage/config.rs:111-139 | The SSH columns are enabled exactly when an enabled configuration is given. Then they hold its host, port, user and auth tag, and a key path exactly for key authentication. Otherwise they are the all-empty disabled columns. |
| `ConfigStore.StoredSsl` | src-tauri/src/storage/config.rs:141-150 | The SSL columns are enabled exactly when an enabled configuration is given. Then they hold its three paths and a verify flag of 1 exactly when it verifies. Otherwise they are disabled with verify 1. |
| `ConfigStore.SavedSecrets` | src-tauri/src/storage/config.rs:111-152 | The keyring gets the password under the id, always. It gets the SSH password exactly for enabled password authentication and the passphrase exactly for enabled key authentication with a passphrase. |
| `ConfigStore.FetchSecrets` | src-tauri/src/storage/config.rs:55-70 | The password is read under the id, or is empty. The SSH password is read only for an enabled password row and the passphrase only for an enabled key row. |
| `ConfigStore.LoadedDbType` | src-tauri/src/storage/config.rs:248-253 | A known stored name decodes to its kind; any other text reads as MySQL. |
| `ConfigStore.LoadedAuth` | src-tauri/src/storage/config.rs:256-267 | "privatekey" gives key authentication with the stored path (or "") and the passphrase. "password" gives password authentication with the fetched password (or ""). Anything else gives an empty password. |
| `ConfigStore.LoadedSsh` | src-tauri/src/storage/config.rs:255-277 | An SSH configuration is present exactly when the flag is 1. It is then enabled, with port 22 when none is stored, empty host or user when missing, and the stored port otherwise cast to 16 bits. |
| `ConfigStore.LoadedSsl` | src-tauri/src/storage/config.rs:279-289 | An SSL configuration is present exactly when the flag is 1. It is then enabled with the stored paths, and it verifies exactly when the stored flag is 1. |
| `ConfigStore.IntoConnection` | src-tauri/src/storage/config.rs:241-306 | The loaded connection carries the row's identity, names and timestamps, the decoded kind, the given password, the port cast to 16 bits and the decoded SSH and SSL configurations. |
| `ConfigStore.DbTypeStoredRoundTrip` | src-tauri/src/storage/config.rs:105-109 | Storing a kind and loading it back gives the kind. |
| `ConfigStore.SaveThenLoad` | src-tauri/src/storage/config.rs:101-201 | Assume the keyring holds no stale entries for the new id. Then loading the saved row gives the connection `save_connection` returned, except that a disabled SSH or SSL configuration comes back absent. |
| `ConfigStore.SaveThenLoadExact` | src-tauri/src/storage/config.rs:111-150 | Loading gives back exactly the saved connection precisely when neither configuration is present but disabled. |
| `ConfigStore.StalePassphraseIsRead` | src-tauri/src/storage/config.rs:119-126 | Saving key authentication without a passphrase leaves an existing passphrase entry in place, and loading returns it. |
| `Introspection.MySqlColumn` | src-tauri/src/db/mysql.rs:143-155 | A MySQL column is nullable exactly when the row says "YES" and auto-increment exactly when "auto_increment" occurs in `extra`. It has a comment exactly when the row's comment is present and non-empty. Name, type, default and position are taken from the row. |
| `Introspection.MySqlColumnRoundTrip` | src-tauri/src/db/mysql.rs:143-155 | The row MySQL reports for a column maps back to that column, unless the comment is the empty string. |
| `Introspection.PgColumn` | src-tauri/src/db/postgres.rs:129-139 | A PostgreSQL column is auto-increment exactly when its default starts with "nextval(", and then has no default. It has no comment, is nullable exactly when the row says "YES", and keeps a non-negative position. |
| `Introspection.PgColumnRoundTrip` | src-tauri/src/db/postgres.rs:129-139 | The row PostgreSQL reports for a comment-less column maps back to that column. A serial column has no default, and no other default starts with "nextval(". |
| `Introspection.MySqlPrimaryKey` | src-tauri/src/db/mysql.rs:160-182 | No key rows means no primary key. Otherwise the key is named "PRIMARY" with the row columns in order. |
| `Introspection.PgPrimaryKey` | src-tauri/src/db/postgres.rs:143-165 | No key rows means no primary key. Otherwise the key is named after the first row's constraint, with the row columns in order. |
| `Introspection.PrimaryKeysAgree` | src-tauri/src/db/postgres.rs:158-164 | Both readers agree on whether there is a primary key and on its columns. Their names differ only when the constraint is not called "PRIMARY". |
| `Introspection.GroupByAt` | src-tauri/src/db/mysql.rs:197-214 | Grouping rows by name gives an entry exactly for each name that occurs. Its header comes from the first row of that name, and its items from all rows of that name, in row order. |
| `Introspection.GroupByCharacterised` | src-tauri/src/db/postgres.rs:189-197 | The same for every name at once. |
| `Introspection.MySqlIndexes` | src-tauri/src/db/mysql.rs:197-214 | There is one index per name occurring in the rows. Unique and type come from its first row (unique exactly when non_unique is 0), and its columns are those of all its rows, in order. |
| `Introspection.PgIndexes` | src-tauri/src/db/postgres.rs:189-197 | There is one index per name. Unique and type come from its first row, and its columns are those of all its rows, in order. |
| `Introspection.ForeignKeys` | src-tauri/src/db/mysql.rs:238-267 | There is one foreign key per name. The referenced table and both actions come from its first row; its columns and referenced columns come from all its rows, pairwise in order. |
| `Introspection.UniqueConstraints` | src-tauri/src/db/mysql.rs:285-294 | There is one unique constraint per name, with the columns of all its rows in order. |
| `Introspection.GroupsNonEmpty` | src-tauri/src/db/mysql.rs:197-294 | No grouped index, foreign key or unique constraint has an empty column list. |
| `Errors.Display` | src-tauri/src/error.rs:7-29 | The displayed text is the variant's prefix followed by the message, unchanged. |
| `Errors.PrefixesDistinct` | src-tauri/src/error.rs:7-29 | No variant's prefix starts with another variant's prefix. |
| `Errors.ParseDisplay` | src-tauri/src/error.rs:7-29 | Whatever a text is read back as displays as that text. |
| `Errors.DisplayRoundTrip` | src-tauri/src/error.rs:7-29 | The displayed text determines the error: reading it back gives the error. |
| `Errors.PrefixOfDisplay` | src-tauri/src/error.rs:7-29 | Only an error's own prefix opens its displayed text. |
| `Errors.ToJson` | src-tauri/src/error.rs:5-6 | The serialised error has "type" set to the variant name and "message" set to the message. |
| `Errors.JsonRoundTrip` | src-tauri/src/error.rs:5-29 | The serialised error reads back to the error. |
| `Errors.FromForeign` | src-tauri/src/error.rs:32-48 | A database driver error becomes Database, and any other foreign error becomes Internal. The text is kept unchanged. |
| `Errors.ForeignDisplay` | src-tauri/src/error.rs:32-48 | A converted error displays as "Database error: " or "Internal error: " followed by the foreign text. |
| `Text.UndoubleDouble` | src-tauri/src/db/mysql.rs:300-300 | Doubling every quote character can always be undone. |
| `Text.Delimit` | src-tauri/src/db/postgres.rs:261-261 | A delimited text starts and ends with the delimiter and is at least two longer than the text. |
| `Text.UndelimitDelimit` | src-tauri/src/db/postgres.rs:260-262 | Reading a delimited text back gives the text. |
| `Text.DelimitInjective` | src-tauri/src/db/mysql.rs:299-301 | Two texts delimit alike only when they are equal. |
| `Text.ReadDelimitedDelimit` | src-tauri/src/db/postgres.rs:260-262 | A delimited identifier followed by any text is read off the front exactly: the reader returns the identifier and the text after it. |
| `Text.JoinSnoc` | src-tauri/src/db/mysql.rs:384-384 | `join` puts the separator between consecutive parts: one more part is appended after a separator, or alone when there were none. |
| `Text.ContainsIffOccurs` | src-tauri/src/db/mysql.rs:148-148 | `contains` holds exactly when the pattern occurs at some position. |
| `Text.NatToString` | src-tauri/src/diff/comparator.rs:21-21 | A counter's decimal text is non-empty, made only of the digits 0-9, and has no leading zero unless the counter is 0. |
| `Text.ParseNatToString` | src-tauri/src/diff/comparator.rs:21-21 | A counter's decimal text reads back to the counter under a strict parser, which rejects the empty text and any non-digit. |
| `Text.NatToStringInjective` | src-tauri/src/diff/comparator.rs:19-21 | Distinct counter values give distinct ids. |
| `Ints.I32AsU16` | src-tauri/src/storage/config.rs:296-296 | `as u16` keeps values in 0..65535 and otherwise agrees with its input modulo 2^16. |
| `Ints.I32AsU32` | src-tauri/src/db/postgres.rs:138-138 | `as u32` keeps non-negative values and wraps negative ones by 2^32. |
| `Ints.U16AsI32` | src-tauri/src/storage/config.rs:168-168 | A port stored with `as i32` reads back unchanged through `as u16`. |
| `Seqs.Collect` | src-tauri/src/diff/comparator.rs:13-14 | The collected map holds exactly the names that occur, each mapped to the last element of that name. |
| `Seqs.LastWithKey` | src-tauri/src/diff/comparator.rs:52-52 | `get` finds an element exactly when the name occurs, and the element it finds is the last one of that name. |
| `Seqs.FirstWithKey` | src-tauri/src/db/mysql.rs:202-202 | `entry().or_insert` creates the entry from an element exactly when the name occurs, and that element is the first one of that name. |
| `Seqs.LastWithKeyUnique` | src-tauri/src/diff/comparator.rs:13-14 | With unique names, looking an element up by its own name finds that element. |

## Left out

- The live schema readers: SQL query texts, sqlx pools, SSL connect options and the async `get_tables` loops are database I/O. Only the row-to-model mappings are modelled, with rows as input sequences. The type text of the PostgreSQL column query is built by its CASE expression inside the query and is taken as given.
- The output order of grouped indexes, foreign keys and unique constraints comes from `HashMap` iteration and is unspecified. The groupings are modelled as maps keyed by name, and no property depends on an order.
- SQLite access in the connection store: the list, get, save and delete queries and table creation are I/O. The uuid id and the chrono timestamp are parameters. The keyring is a map from entry names to secrets. Keyring failures are not modelled: a failing `store_password` aborts `save_connection` and a failing `get_password` reads as absent. `delete_connection` is not modelled.
- ssh/tunnel.rs opens sockets, runs an SSH client and spawns tasks. It is not part of this model.
- The command plumbing in main.rs (Tauri commands, driver construction, config-store locking) is async I/O. So is the statement execution loop, which stops at the first failing statement. Only the choice of generator per database kind is modelled.
- Comparator.CompareSchemas: the id counter is a `u32` in the source. The model uses an unbounded natural number and does not model wrap-around after 2^32 - 1 items.
- Introspection.PgColumn: the ordinal position is stated only for non-negative positions. A negative `i32` position wraps through `as u32`, as `Ints.I32AsU32` states.
- ConfigStore.IntoConnection: the port is stated as unchanged modulo 2^16 only for non-negative stored values. A negative stored port goes through the same `as u16` cast, as `Ints.I32AsU16` states.
- Primary keys are never compared by the comparator, and the model does not invent such a comparison.
- The schema types' derived `PartialEq` is Dafny's structural equality on datatypes, so no separate equality is defined. Its consequences for the comparator are stated by `ComparatorProps.OrdinalOnlyModified`, `ComparatorProps.CommentOnlyModified` and `ComparatorProps.IndexColumnOrderModified`.
- `Comparator.TableChanges` and `Comparator.SchemaChanges` are the reference definitions and carry no contract of their own. Their meaning is stated by the `ComparatorProps` lemmas about them and by `Comparator.CompareSchemas`, which the source loops are proved to equal.
- The `ForeignKeyModified` and `UniqueConstraintModified` kinds expected by some tests do not exist in the code and are not modelled. The code is followed; see the introduction.
- The `MySqlSqlGenerator` and `PostgresSqlGenerator` re-exports are not part of this model. The generators modelled are the SQL-generator impls of the two drivers.
- A `Display` impl for `DbType` and a defaulted password when deserialising a connection are expected by tests but absent from the code, and are not modelled.
- serde and thiserror internals are not modelled. Serialisation is modelled at the level of JSON values, with objects as ordered member lists; JSON text, whitespace and escaping are not modelled. Foreign errors (anyhow, sqlx, io) are known only by their text.
- The MySQL `DEFAULT` and `COMMENT` values and PostgreSQL column types are copied verbatim, as in the code. No SQL-level validity of the generated statements is claimed.
