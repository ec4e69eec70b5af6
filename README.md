# ECM7 Migrator: SQL formatting, the SQL Server dialect and the SQL Server CE providers

This project models four pieces of the ECM7 migrator and proves properties of them in Dafny:

- `SqlFormatter` (file `formatter.dfy`) is the custom formatter that `FormatSql` uses to write statements.
  - The `NAME` format sends an argument through the identifier-quoting converter.
  - The `COLS` format, applied to a collection, converts every element and joins the results with commas.
  - Every other format falls back to the standard rendering.
  - A `FormatException` comes back as an error whose message names the format.
- The SQL Server dialect of the `trunk` tree (file `sqlserver_dialect.dfy`) has four parts:
  - the 27 type-name registrations its constructor makes;
  - the IDENTITY property;
  - its feature flags and bracket quoting of names;
  - the `DEFAULT` clause, which writes booleans as 1 and 0.
- The SQL Server CE provider of the `src` tree (file `sqlserver_ce.dfy`) does the following:
  - its constructor overrides 12 entries of the type map;
  - column renaming and check constraints always fail with a "not supported" error;
  - a non-null default is changed in two steps, clearing the old default first;
  - the `DROP INDEX` statement is built through the formatter.
- The SQL Server CE provider of the `trunk` tree (file `sqlserver_ce_trunk.dfy`) does the following:
  - it renames a column by copying it: it adds the new column, copies the values with `UPDATE`, then removes the old column;
  - table renaming and check constraints fail with a migration error;
  - it looks up an index by the names the dialect quotes, and removes it only when that lookup finds it;
  - otherwise removing an index only logs a warning. With SQL Server's bracket quoting the lookup finds no index of any table whose catalog name does not begin with '[' (see "## Findings"), so the model also gives the removal as evidently intended, guarded by the lookup over the unquoted names.

Support modules:

- `wrappers.dfy` holds the Option, Result and Outcome types.
- `text.dfy` holds ASCII case mapping, comma joining and decimal text.
- `schema.dfy` holds column types, values and columns. It also holds the registration log of a type map, where the last registration for a type and size wins.
- `catalog.dfy` models the database a provider works on:
  - its tables, with their columns and rows;
  - the `INFORMATION_SCHEMA` views the providers query, compared case-insensitively as SQL Server CE's default collation does;
  - the base provider's operations, each written as the change it makes to the database.
- `provider_calls.dfy` holds the errors the CE providers report and the calls they make on their base provider.

Classes model the objects whose state the source changes in place:

- the dialect's registration tables;
- the providers' type map, database, calls made on the base provider, and logged warnings.

Each method states its whole new state. The lemmas beside each method prove what that state means.

## Model

| member | source | states |
|---|---|---|
| Formatter.NewSqlFormatter | src/ECM7.Migrator/Providers/SqlFormatter.cs:22-26 | a formatter is built exactly when a converter is given, and it keeps that converter; a missing converter is refused |
| Formatter.SqlFormatter.GetFormat | src/ECM7.Migrator/Providers/SqlFormatter.cs:35-38 | the formatter offers itself for the custom-formatter service and nothing for any other service |
| Formatter.SqlFormatter.ConvertAll | src/ECM7.Migrator/Providers/SqlFormatter.cs:55-56 | the converted collection has one entry per element, each the converter's result for that element, in order |
| Formatter.SqlFormatter.Format | src/ECM7.Migrator/Providers/SqlFormatter.cs:47-70 | NAME in any case renders the argument through the converter; COLS in any case on a collection renders its converted elements joined by the separator; every other case renders by default formatting |
| Formatter.HandleOtherFormats | src/ECM7.Migrator/Providers/SqlFormatter.cs:77-89 | only a formattable argument can reject the format; null renders as the empty string |
| Formatter.DefaultRendering | src/ECM7.Migrator/Providers/SqlFormatter.cs:64-69 | default rendering fails exactly when a formattable argument rejects the format, and the failure's message is "The format of '<format>' is invalid." |
| Formatter.NameFormatConverts | src/ECM7.Migrator/Providers/SqlFormatter.cs:59-62 | a format spelling NAME in any case renders any argument as the converter's result |
| Formatter.NameFormatSpellings | src/ECM7.Migrator/Providers/SqlFormatter.cs:49 | "name", "Name" and "NAME" all quote the argument, because the format is upper-cased before comparison |
| Formatter.ColsFormatJoins | src/ECM7.Migrator/Providers/SqlFormatter.cs:53-57 | COLS in any case on a collection succeeds with the converted elements, in order, joined by the separator |
| Formatter.ColsFormatTwoColumns | src/ECM7.Migrator/Providers/SqlFormatter.cs:53-57 | two columns render as `conv(a), conv(b)` |
| Formatter.ColsOnNonCollectionRendersByDefault | src/ECM7.Migrator/Providers/SqlFormatter.cs:53-64 | COLS on an argument that is not a collection does not use the converter: it renders as the default formatting does |
| Formatter.OtherFormatsRenderByDefault | src/ECM7.Migrator/Providers/SqlFormatter.cs:64 | every format that is neither NAME nor COLS on a collection renders through the default formatting |
| Formatter.DefaultRenderingCases | src/ECM7.Migrator/Providers/SqlFormatter.cs:77-89 | a formattable argument is rendered with the format as given; any other object renders as its ToString text; null renders as the empty string |
| Formatter.FormatErrorNamesFormat | src/ECM7.Migrator/Providers/SqlFormatter.cs:66-69 | Format fails exactly when a formattable argument rejects a non-NAME format, and the error message is "The format of '<format>' is invalid." |
| Formatter.NullFormatMatchesEmpty | src/ECM7.Migrator/Providers/SqlFormatter.cs:49 | a null format is matched as the empty string: for an argument that does not read the format, null and "" render alike |
| Formatter.NullFormatRendersByDefault | src/ECM7.Migrator/Providers/SqlFormatter.cs:49-64 | a null format is neither NAME nor COLS, so every argument, formattable or not, renders by default formatting |
| Formatter.RenderNameItems | src/ECM7.Migrator/Providers/SqlFormatter.cs:59-62 | a composite format whose items are all NAME items renders as its text with each item replaced by its converted argument |
| Schema.LastEntry | trunk/src/ECM7.Migrator.Providers.SqlServer/SqlServerDialect.cs:12-38 | a registration is in force for a type and size exactly when one was made for that key, and the one in force has that key |
| Schema.LaterRegistrationWins | src/ECM7.Migrator.Providers.SqlServer/SqlServerCeTransformationProvider.cs:21-35 | a later registration for a key replaces every earlier one |
| Schema.EarlierRegistrationsKept | src/ECM7.Migrator.Providers.SqlServer/SqlServerCeTransformationProvider.cs:21-35 | later registrations for other keys leave an earlier registration in force |
| Schema.TableInForce | trunk/src/ECM7.Migrator.Providers.SqlServer/SqlServerDialect.cs:12-38 | a log with no key registered twice, which registers exactly the keys of a name table under those names, has that table's names in force |
| Schema.GroupedIsWellFormed | trunk/src/ECM7.Migrator.Providers.SqlServer/SqlServerDialect.cs:12-38 | a log grouped by type, each group opened by its unsized entry and followed by increasing sizes, has increasing thresholds, distinct keys and one unsized entry per type |
| Schema.UnsizedCountAtMostOne | trunk/src/ECM7.Migrator.Providers.SqlServer/SqlServerDialect.cs:12-38 | a log with distinct keys has at most one unsized entry per type |
| SqlServerDialect.SqlServerDialect.constructor | trunk/src/ECM7.Migrator.Providers.SqlServer/SqlServerDialect.cs:10-41 | the constructor makes the 27 registrations in source order and registers IDENTITY for the identity property |
| SqlServerDialect.SqlServerDialect.RegisterColumnType | trunk/src/ECM7.Migrator.Providers.SqlServer/SqlServerDialect.cs:12 | a registration is appended after those already made, and the properties are unchanged |
| SqlServerDialect.SqlServerDialect.RegisterProperty | trunk/src/ECM7.Migrator.Providers.SqlServer/SqlServerDialect.cs:40 | a property's SQL text is appended, and the type registrations are unchanged |
| SqlServerDialect.TypeNames | trunk/src/ECM7.Migrator.Providers.SqlServer/SqlServerDialect.cs:12-38 | for every type and size, the dialect's registrations give exactly the name of the reference table `TypeName`, and nothing for a key not registered |
| SqlServerDialect.RegistrationsWellFormed | trunk/src/ECM7.Migrator.Providers.SqlServer/SqlServerDialect.cs:12-38 | the registrations have one unsized entry per registered type, increasing size thresholds, and no key registered twice |
| SqlServerDialect.RegistrationsGrouped | trunk/src/ECM7.Migrator.Providers.SqlServer/SqlServerDialect.cs:12-38 | the registrations are grouped by type, each group opened by its unsized entry |
| SqlServerDialect.RegistrationInForce | trunk/src/ECM7.Migrator.Providers.SqlServer/SqlServerDialect.cs:12-38 | every registration the constructor makes is the one in force for its key |
| SqlServerDialect.DecimalScale | trunk/src/ECM7.Migrator.Providers.SqlServer/SqlServerDialect.cs:26 | DECIMAL up to 38 digits is written `DECIMAL($l, $s)` with a default scale of 2 |
| SqlServerDialect.SupportsIndex | trunk/src/ECM7.Migrator.Providers.SqlServer/SqlServerDialect.cs:45-48 | the dialect reports that it does not support indexes |
| SqlServerDialect.NamesNeedsQuote | trunk/src/ECM7.Migrator.Providers.SqlServer/SqlServerDialect.cs:50-53 | the dialect reports that names always need quoting |
| SqlServerDialect.QuoteTemplateBrackets | trunk/src/ECM7.Migrator.Providers.SqlServer/SqlServerDialect.cs:55-58 | substituting any name into the quoting template wraps it in square brackets |
| SqlServerDialect.DialectFlags | trunk/src/ECM7.Migrator.Providers.SqlServer/SqlServerDialect.cs:45-58 | the dialect's quoting settings are "always quote" with the template "[{0}]", and it does not support indexes |
| SqlServerDialect.QuoteName | trunk/src/ECM7.Migrator.Providers.Tests/SqlServerTransformationProviderTest.cs:54 | under SQL Server's quoting settings a name is quoted between square brackets |
| SqlServerDialect.QuoteIfNeeded | trunk/src/ECM7.Migrator.Providers.SqlServer/SqlServerCeTransformationProvider.cs:72 | a dialect that does not quote names leaves them as they are; SQL Server's quotes every name between square brackets |
| SqlServerDialect.BracketQuoting | trunk/src/ECM7.Migrator.Providers.SqlServer/SqlServerDialect.cs:50-58 | every name is quoted between square brackets; "foo" becomes "[foo]" |
| SqlServerDialect.Default | trunk/src/ECM7.Migrator.Providers.SqlServer/SqlServerDialect.cs:60-68 | a null default fails with a null reference, as asking null for its type does; any other default succeeds with a clause that starts "DEFAULT " |
| SqlServerDialect.DefaultOfBooleans | trunk/src/ECM7.Migrator.Providers.SqlServer/SqlServerDialect.cs:60-68 | a true default is "DEFAULT 1" and a false one "DEFAULT 0" |
| SqlServerDialect.BooleanDefaultIsBit | trunk/src/ECM7.Migrator.Providers.SqlServer/SqlServerDialect.cs:62-65 | a boolean default is written as its bit and never as the boolean's own text |
| SqlServerDialect.DefaultOfOtherValues | trunk/src/ECM7.Migrator.Providers.SqlServer/SqlServerDialect.cs:67 | any other non-null value is written as "DEFAULT " followed by its string form |
| Catalog.SelectConstraintNames | src/ECM7.Migrator.Providers.SqlServer/SqlServerCeTransformationProvider.cs:40 | the query selects at most one name per constraint row, and a name is selected exactly when some constraint row has it and it matches the name asked for, ignoring case |
| Catalog.ConstraintExists | src/ECM7.Migrator.Providers.SqlServer/SqlServerCeTransformationProvider.cs:38-45 | the reader has a first row exactly when some constraint row has the name asked for, compared ignoring case |
| Catalog.ConstraintExistsIgnoresTable | src/ECM7.Migrator.Providers.SqlServer/SqlServerCeTransformationProvider.cs:40 | the table argument has no effect on the answer |
| Catalog.ConstraintOfAnyTable | src/ECM7.Migrator.Providers.SqlServer/SqlServerCeTransformationProvider.cs:40 | the query filters by name only: a constraint of another table with that name makes the answer yes |
| Catalog.FindConstraints | src/ECM7.Migrator.Providers.SqlServer/SqlServerCeTransformationProvider.cs:81-86 | the constraints found are exactly those whose key-column rows match the table and the column, compared ignoring case |
| Catalog.IndexExists | src/ECM7.Migrator.Providers.SqlServer/SqlServerCeTransformationProvider.cs:67-74 | the row count is positive exactly when the catalog holds a row of that index on that table |
| Catalog.IndexRowCountPositive | src/ECM7.Migrator.Providers.SqlServer/SqlServerCeTransformationProvider.cs:72-73 | `count(*) > 0` holds exactly when a matching row exists |
| Catalog.DropIndexRemovesOnlyIt | src/ECM7.Migrator.Providers.Tests/ImplementationTest/TransformationProviderTestBase.cs:780-781 | after dropping an index it no longer exists; every other index row is kept; no row is added; the tables are unchanged; dropping again changes nothing |
| Catalog.GetColumn | trunk/src/ECM7.Migrator.Providers.SqlServer/SqlServerCeTransformationProvider.cs:49 | the column read back for an existing name is a column of that table and carries that name |
| Catalog.AddColumn | trunk/src/ECM7.Migrator.Providers.SqlServer/SqlServerCeTransformationProvider.cs:51 | adding a column keeps the set of tables, the rows and the schema views, and the column exists afterwards |
| Catalog.CopyColumn | trunk/src/ECM7.Migrator.Providers.SqlServer/SqlServerCeTransformationProvider.cs:52 | `UPDATE t SET target=source` keeps the tables, the columns and the number of rows, and every row's target holds that row's source value |
| Catalog.RemoveColumn | trunk/src/ECM7.Migrator.Providers.SqlServer/SqlServerCeTransformationProvider.cs:53 | removing a column keeps the set of tables, the number of rows and the schema views; afterwards the column is gone and no row holds a value for it |
| Catalog.SetDefault | src/ECM7.Migrator.Providers.SqlServer/SqlServerCeTransformationProvider.cs:61-64 | changing a default keeps the set of tables, and every column of that name ends with the new default |
| Catalog.DropIndex | trunk/src/ECM7.Migrator.Providers.SqlServer/SqlServerCeTransformationProvider.cs:86-90 | after DROP INDEX the index rows are exactly those that did not belong to the index; the tables are unchanged |
| Catalog.RenameByCopy | trunk/src/ECM7.Migrator.Providers.SqlServer/SqlServerCeTransformationProvider.cs:49-53 | a rename by copy keeps the set of tables and the schema views; the new name exists afterwards unless it is the old name |
| Catalog.SetDefaultTwice | src/ECM7.Migrator.Providers.SqlServer/SqlServerCeTransformationProvider.cs:59-64 | clearing a default and then setting it ends as setting it directly |
| Catalog.SetDefaultChangesOnlyTheDefault | src/ECM7.Migrator.Providers.SqlServer/SqlServerCeTransformationProvider.cs:57-65 | a default change alters only that column's default: the tables, the other tables, the column's other attributes and the rows stay as they were |
| Catalog.RenameByCopyRenames | src/ECM7.Migrator.Providers.Tests/ImplementationTest/TransformationProviderTestBase.cs:325-336 | after a rename by copy the old column is gone and the new one exists, with the old one's type, properties and default; the table stays well formed |
| Catalog.RenameByCopyKeepsOtherTables | trunk/src/ECM7.Migrator.Providers.SqlServer/SqlServerCeTransformationProvider.cs:47-54 | a rename by copy keeps the set of tables and leaves every other table unchanged |
| Catalog.RenameByCopyKeepsOtherColumns | trunk/src/ECM7.Migrator.Providers.SqlServer/SqlServerCeTransformationProvider.cs:47-54 | a rename by copy keeps every other column of the table |
| Catalog.RenameByCopyMovesValues | trunk/src/ECM7.Migrator.Providers.SqlServer/SqlServerCeTransformationProvider.cs:52 | every row keeps its place; its old value is found under the new name, and its other values are unchanged |
| Catalog.RenameByCopyIs | trunk/src/ECM7.Migrator.Providers.SqlServer/SqlServerCeTransformationProvider.cs:49-53 | adding, copying and removing produces the table whose columns are the old ones with the old column replaced by the renamed copy, and whose rows each have the value moved |
| SqlServerCe.SqlServerCeProvider.constructor | src/ECM7.Migrator.Providers.SqlServer/SqlServerCeTransformationProvider.cs:18-36 | the type map is the base provider's, followed by the 12 overrides in source order |
| SqlServerCe.SqlServerCeProvider.Put | src/ECM7.Migrator.Providers.SqlServer/SqlServerCeTransformationProvider.cs:21 | a put appends a registration for its key |
| SqlServerCe.CeTypeNames | src/ECM7.Migrator.Providers.SqlServer/SqlServerCeTransformationProvider.cs:21-35 | after construction every key CE overrides has CE's name, whatever the base provider registered; every other key keeps the base provider's name |
| SqlServerCe.OverridesInForce | src/ECM7.Migrator.Providers.SqlServer/SqlServerCeTransformationProvider.cs:21-35 | the overrides have exactly the names of the reference table `CeTypeName` in force |
| SqlServerCe.CeUnicodeText | src/ECM7.Migrator.Providers.SqlServer/SqlServerCeTransformationProvider.cs:27-29 | Unicode text is NVARCHAR(255) unsized, NVARCHAR($l) up to 4000, and NTEXT up to int.MaxValue |
| SqlServerCe.SqlServerCeProvider.RenameColumn | src/ECM7.Migrator.Providers.SqlServer/SqlServerCeTransformationProvider.cs:47-50 | renaming a column always fails with "SqlServerCe doesn't support column renaming" and changes nothing |
| SqlServerCe.SqlServerCeProvider.AddCheckConstraint | src/ECM7.Migrator.Providers.SqlServer/SqlServerCeTransformationProvider.cs:52-55 | adding a check constraint always fails with "SqlServerCe doesn't support check constraints" and changes nothing |
| SqlServerCe.SqlServerCeProvider.ChangeDefaultValue | src/ECM7.Migrator.Providers.SqlServer/SqlServerCeTransformationProvider.cs:57-65 | a non-null default is set by clearing the default and then setting it; a null one in one call; the database ends with the new default either way |
| SqlServerCe.SqlServerCeProvider.BaseChangeDefaultValue | src/ECM7.Migrator.Providers.SqlServer/SqlServerCeTransformationProvider.cs:61 | the base provider's default change is recorded and sets the column's default |
| SqlServerCe.SqlServerCeProvider.GetSqlRemoveIndex | src/ECM7.Migrator.Providers.SqlServer/SqlServerCeTransformationProvider.cs:76-79 | the statement is `DROP INDEX <table>.<index>`, each name passed through the formatter's converter |
| SqlServerCe.RemoveIndexSpliced | src/ECM7.Migrator.Providers.SqlServer/SqlServerCeTransformationProvider.cs:78 | the DROP INDEX format with its items replaced by the converted table and index names |
| SqlServerCe.BracketedRemoveIndex | src/ECM7.Migrator.Providers.SqlServer/SqlServerCeTransformationProvider.cs:76-79 | with a bracket-quoting converter, the statement is `DROP INDEX [<table>].[<index>]` |
| SqlServerCeTrunk.SqlServerCeTrunkProvider.constructor | trunk/src/ECM7.Migrator.Providers.SqlServer/SqlServerCeTransformationProvider.cs:28-31 | the provider starts with the dialect's quoting and the connection's database, with no calls made and no warnings |
| SqlServerCeTrunk.SqlServerCeTrunkProvider.RenameColumn | trunk/src/ECM7.Migrator.Providers.SqlServer/SqlServerCeTransformationProvider.cs:42-55 | if the new name is taken, the call fails with "Table '<t>' has column named '<new>' already" and nothing changes; if the old column exists, it makes three calls in order (add the copy, `UPDATE <t> SET <new>=<old>`, remove the old column) and the database is renamed by copy; otherwise nothing changes |
| SqlServerCeTrunk.SqlServerCeTrunkProvider.RenameTable | trunk/src/ECM7.Migrator.Providers.SqlServer/SqlServerCeTransformationProvider.cs:58-61 | renaming a table always fails with the migration error "SqlServerCe doesn't support table renaming" |
| SqlServerCeTrunk.SqlServerCeTrunkProvider.AddCheckConstraint | trunk/src/ECM7.Migrator.Providers.SqlServer/SqlServerCeTransformationProvider.cs:63-66 | adding a check constraint always fails with the migration error "SqlServerCe doesn't support check constraints" |
| SqlServerCeTrunk.SqlServerCeTrunkProvider.RemoveIndex | trunk/src/ECM7.Migrator.Providers.SqlServer/SqlServerCeTransformationProvider.cs:78-92 | when the provider's own lookup over the quoted names answers no, the call logs "Index <ix> is not exists" and changes nothing else; otherwise it issues `DROP INDEX` over the quoted names, and the index no longer exists |
| SqlServerCeTrunk.SqlServerCeTrunkProvider.RemoveIndexIntended | trunk/src/ECM7.Migrator.Providers.SqlServer/SqlServerCeTransformationProvider.cs:78-92 | the same removal guarded by the lookup over the catalog names: a missing index is reported by the warning, an existing one is dropped, and either way the index does not exist afterwards |
| SqlServerCeTrunk.SqlServerCeTrunkProvider.AddColumn | trunk/src/ECM7.Migrator.Providers.SqlServer/SqlServerCeTransformationProvider.cs:51 | the base provider's AddColumn is recorded and appends the column |
| SqlServerCeTrunk.SqlServerCeTrunkProvider.RemoveColumn | trunk/src/ECM7.Migrator.Providers.SqlServer/SqlServerCeTransformationProvider.cs:53 | the base provider's RemoveColumn is recorded and removes the column and its values |
| SqlServerCeTrunk.SqlServerCeTrunkProvider.ExecuteNonQuery | trunk/src/ECM7.Migrator.Providers.SqlServer/SqlServerCeTransformationProvider.cs:90 | an executed statement is recorded and the database takes the state it leaves |
| SqlServerCeTrunk.IndexExistsAsWritten | trunk/src/ECM7.Migrator.Providers.SqlServer/SqlServerCeTransformationProvider.cs:68-76 | the lookup as written answers yes exactly when a row's lower-cased table and index names match the names quoted by the dialect |
| SqlServerCeTrunk.LowerAbsorbed | trunk/src/ECM7.Migrator.Providers.SqlServer/SqlServerCeTransformationProvider.cs:71 | `lower()` on one side of a case-insensitive comparison changes nothing |
| SqlServerCeTrunk.QuotedIndexLookupMisses | trunk/src/ECM7.Migrator.Providers.SqlServer/SqlServerCeTransformationProvider.cs:70-72 | under bracket quoting, the lookup as written finds no index of any table whose catalog name is not bracketed |
| SqlServerCeTrunk.QuotedIndexLookupExample | trunk/src/ECM7.Migrator.Providers.SqlServer/SqlServerCeTransformationProvider.cs:68-76 | an index "ix_foo" on table "foo" exists, yet the lookup as written answers no |
| SqlServerCeTrunk.UnquotedLookupAgrees | trunk/src/ECM7.Migrator.Providers.SqlServer/SqlServerCeTransformationProvider.cs:68-76 | for a dialect that does not quote names, the lookup as written agrees with the intended one |
| SqlServerCeTrunk.BracketedDropIndex | trunk/src/ECM7.Migrator.Providers.SqlServer/SqlServerCeTransformationProvider.cs:86-88 | under SQL Server's quoting, an index is dropped by `DROP INDEX [<table>].[<index>]` |

## Left out

- SqlServerCe.SqlServerCeProvider.RenameColumn and AddCheckConstraint return the NotSupportedException as an error value. The same holds for the trunk provider's RenameColumn (when the name is taken), RenameTable and AddCheckConstraint with the MigrationException.
- Culture: `IFormattable.ToString(format, CurrentCulture)` is a function carried by the argument. Its result, or its FormatException, is taken as given.
- Case mapping: `ToUpper(InvariantCulture)` and SQL `lower()` are modelled on ASCII letters only.
- Formatter.SqlFormatter.Format: the converter is a total function. A FormatException thrown by the converter itself, which the source also rewraps, is not modelled.
- Comma joining: `ToCommaSeparatedString` is not part of this model. Its separator is taken to be ", ".
- Formatter.RenderTemplate: parsing the composite format string (braces, alignment, escapes) is left out. Templates are given already split into literal text and items.
- Type-map lookup: `$l`/`$s` substitution and choosing the smallest threshold that fits a requested size are left out. The model states which registration is in force for each key. A later registration for the same key replaces the earlier one, which is assumed from `Put`.
- Base provider: its type map, and the base SQL Server provider's own registrations, are a parameter of the src constructor.
- Queries: the SQL text of the INFORMATION_SCHEMA queries is left out, except where the statement itself is the result (`GetSqlRemoveIndex`, `DROP INDEX`, `UPDATE`). Each query is modelled by the rows it selects.
- Quotes in names: the queries paste table, column, constraint and index names into `'...'` literals without escaping (src SqlServerCeTransformationProvider.cs:40, :70 and :85; trunk :36, :71 and :98). The model assumes names contain no `'`. For a name that does, the source's query fails with a syntax error or asks a different question, while Catalog.ConstraintExists, Catalog.IndexExists, Catalog.FindConstraints and SqlServerCeTrunk.IndexExistsAsWritten answer it like any other name.
- Reader results: `ExecuteReader`/`ExecuteScalar`/`Convert.ToInt32` are read as the row count or the first row.
- Catalog.ConstraintExists and Catalog.FindConstraints: the src and trunk versions differ only in how they bracket the view names. Each is modelled once, over the database.
- Catalog.ColumnExists compares names exactly. The base provider's ColumnExists is not part of this model.
- Catalog.GetColumn: the base provider's `GetColumnByName` is not part of this model. It is assumed to return the column exactly as it was added: the first column of that exact name, with its type, properties and default.
- Base provider changes: the base `ChangeDefaultValue`, `AddColumn` and `RemoveColumn` are modelled by their effect on the catalog (default, columns and row values). The DDL they issue, such as dropping the default constraint, is left out.
- Catalog.AddColumn, Catalog.CopyColumn, Catalog.RemoveColumn, Catalog.RenameByCopy and Catalog.SetDefault always succeed. The database errors the statements can raise are not modelled: an `UPDATE` with unquoted names, adding a copy of a primary-key or identity column to a table that has rows, or changing the default of a missing table or column. Catalog.SetDefault is a no-op on a missing table or column, where the base `ChangeDefaultValue` would issue DDL that the database rejects.
- Catalog.RemoveColumn leaves INFORMATION_SCHEMA.KEY_COLUMN_USAGE and INFORMATION_SCHEMA.INDEXES unchanged. After a rename by copy, `FindConstraints` and `IndexExists` still report the constraints and indexes of the old column.
- SqlServerDialect.QuoteName and SqlServerDialect.QuoteIfNeeded stand for methods of the base `Dialect`, which is not part of this model. The model assumes they substitute the name into the quoting template, and do so only when the dialect needs quoting. The only fixed point is trunk SqlServerTransformationProviderTest.cs:54, which expects `QuoteName("foo")` to be "[foo]". The finding below rests on this assumption.
- Logging: the logger is a sequence of warning texts. Log levels and the TaskLogger are left out.
- Connections and transactions are left out, as are the migration plan, the migrator, the ledger of applied versions and the batch splitter.

## Findings

| source | as written | input that shows it | evidently intended | confidence | as-written member | corrected member |
|---|---|---|---|---|---|---|
| trunk/src/ECM7.Migrator.Providers.SqlServer/SqlServerCeTransformationProvider.cs:70-72 | `IndexExists` compares `lower(TABLE_NAME)` and `lower(INDEX_NAME)` with `Dialect.QuoteIfNeeded(name)`. With a dialect that quotes with brackets, as SqlServerDialect does, the literal becomes `'[foo]'`, which no catalog table name matches unless it begins with '['. So `IndexExists` answers no for every index of such a table, and `RemoveIndex` then only logs a warning and never drops the index | a database with index row (table "foo", index "ix_foo"); `IndexExists("ix_foo", "foo")` | compare the catalog names with the unquoted names, as the `src` provider does (TransformationProviderTestBase.cs:775 expects yes after AddIndex) | medium, not executed: the dialect the CE provider is given is not part of this model | SqlServerCeTrunk.QuotedIndexLookupExample | SqlServerCeTrunk.SqlServerCeTrunkProvider.RemoveIndexIntended |
