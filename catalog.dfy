/**
 * The database a SQL Server CE provider works on, as far as the provider observes and changes
 * it: tables with their columns and rows, the INFORMATION_SCHEMA views the provider queries,
 * and the operations of the base provider that the CE provider delegates to.
 *
 * The base provider's operations are not part of this model; each is stated here as the
 * change to the database it stands for.
 */
module Catalog {
  import opened Wrappers
  import opened Text
  import opened Schema

  /** A row: the values of its columns by name; a column missing from the map holds NULL. */
  type Row = map<string, Value>

  /** A table: its columns in order and its rows. */
  datatype Table = Table(columns: seq<Column>, rows: seq<Row>)

  /** A row of INFORMATION_SCHEMA.INDEXES: one per indexed column of an index. */
  datatype IndexRow = IndexRow(table: string, index: string, column: string)

  /** A row of INFORMATION_SCHEMA.TABLE_CONSTRAINTS. */
  datatype ConstraintRow = ConstraintRow(table: string, name: string)

  /** A row of INFORMATION_SCHEMA.KEY_COLUMN_USAGE: a column taking part in a constraint. */
  datatype KeyColumnRow = KeyColumnRow(table: string, column: string, constraint: string)

  /** The database: its tables by name and the rows of the schema views. */
  datatype Database = Database(
    tables: map<string, Table>,
    indexes: seq<IndexRow>,
    constraints: seq<ConstraintRow>,
    keyColumns: seq<KeyColumnRow>)

  /** The value of a column in a row. */
  function Cell(r: Row, column: string): Value
  {
    if column in r then r[column] else NullValue
  }

  /** The names of a sequence of columns. */
  function ColumnNames(columns: seq<Column>): set<string>
  {
    set c | c in columns :: c.name
  }

  /** No two columns share a name. */
  predicate DistinctNames(columns: seq<Column>)
  {
    forall i, j :: 0 <= i < j < |columns| ==> columns[i].name != columns[j].name
  }

  /** A table whose columns have distinct names and whose rows hold values of its columns only. */
  predicate TableWellFormed(t: Table)
  {
    && DistinctNames(t.columns)
    && forall k :: 0 <= k < |t.rows| ==> t.rows[k].Keys <= ColumnNames(t.columns)
  }

  /** The first column of a sequence with the given name. */
  function FindColumn(columns: seq<Column>, name: string): (r: Option<Column>)
    ensures r.Some? <==> name in ColumnNames(columns)
    ensures r.Some? ==> r.value in columns && r.value.name == name
  {
    if columns == [] then None
    else if columns[0].name == name then Some(columns[0])
    else
      assert ColumnNames(columns) == {columns[0].name} + ColumnNames(columns[1..]) by {
        assert columns == [columns[0]] + columns[1..];
      }
      FindColumn(columns[1..], name)
  }

  /** The columns without those of the given name, in their order. */
  function Without(columns: seq<Column>, name: string): (r: seq<Column>)
    ensures ColumnNames(r) == ColumnNames(columns) - {name}
    ensures forall c :: c in r <==> c in columns && c.name != name
  {
    if columns == [] then []
    else
      assert columns == [columns[0]] + columns[1..];
      var rest := Without(columns[1..], name);
      if columns[0].name == name then rest else [columns[0]] + rest
  }

  /** The database with one table replaced. */
  function WithTable(db: Database, name: string, t: Table): Database
  {
    db.(tables := db.tables[name := t])
  }

  /** Whether a table has a column of the given name. */
  predicate ColumnExists(db: Database, table: string, column: string)
  {
    table in db.tables && column in ColumnNames(db.tables[table].columns)
  }

  /** The description of a column: its type, properties and default. */
  function GetColumn(db: Database, table: string, column: string): (r: Column)
    requires ColumnExists(db, table, column)
    ensures r in db.tables[table].columns && r.name == column
  {
    FindColumn(db.tables[table].columns, column).value
  }

  /** Adding a column appends it to the table's columns; it holds NULL in every existing row. */
  function AddColumn(db: Database, table: string, column: Column): (r: Database)
    requires table in db.tables
    ensures r.tables.Keys == db.tables.Keys
    ensures ColumnExists(r, table, column.name)
    ensures r.tables[table].rows == db.tables[table].rows
    ensures r.indexes == db.indexes && r.constraints == db.constraints && r.keyColumns == db.keyColumns
  {
    var t := db.tables[table];
    WithTable(db, table, t.(columns := t.columns + [column]))
  }

  /** `UPDATE table SET target=source`: every row's `target` takes the row's `source` value. */
  function CopyColumn(db: Database, table: string, target: string, source: string): (r: Database)
    requires table in db.tables
    ensures r.tables.Keys == db.tables.Keys
    ensures r.tables[table].columns == db.tables[table].columns
    ensures |r.tables[table].rows| == |db.tables[table].rows|
    ensures forall k :: 0 <= k < |r.tables[table].rows| ==>
              Cell(r.tables[table].rows[k], target) == Cell(db.tables[table].rows[k], source)
  {
    var t := db.tables[table];
    var rows := seq(|t.rows|, k requires 0 <= k < |t.rows| => t.rows[k][target := Cell(t.rows[k], source)]);
    WithTable(db, table, t.(rows := rows))
  }

  /** Removing a column drops it from the table's columns and its values from every row. */
  function RemoveColumn(db: Database, table: string, column: string): (r: Database)
    requires table in db.tables
    ensures r.tables.Keys == db.tables.Keys
    ensures !ColumnExists(r, table, column)
    ensures |r.tables[table].rows| == |db.tables[table].rows|
    ensures forall k :: 0 <= k < |r.tables[table].rows| ==> column !in r.tables[table].rows[k]
    ensures r.indexes == db.indexes && r.constraints == db.constraints && r.keyColumns == db.keyColumns
  {
    var t := db.tables[table];
    var rows := seq(|t.rows|, k requires 0 <= k < |t.rows| => t.rows[k] - {column});
    WithTable(db, table, Table(Without(t.columns, column), rows))
  }

  /**
   * The columns with the default of every column of the given name changed: the same columns
   * under the same names, each matching column with the new default, every other column as it was.
   */
  function SetDefaultOf(columns: seq<Column>, column: string, value: Value): (r: seq<Column>)
    ensures |r| == |columns|
    ensures ColumnNames(r) == ColumnNames(columns)
    ensures forall k :: 0 <= k < |r| ==> r[k] == columns[k].(defaultValue := r[k].defaultValue)
    ensures forall k :: 0 <= k < |r| && columns[k].name == column ==> r[k].defaultValue == value
    ensures forall k :: 0 <= k < |r| && columns[k].name != column ==> r[k] == columns[k]
  {
    var r := seq(|columns|, k requires 0 <= k < |columns| =>
      if columns[k].name == column then columns[k].(defaultValue := value) else columns[k]);
    assert ColumnNames(r) == ColumnNames(columns) by {
      forall n | n in ColumnNames(columns) ensures n in ColumnNames(r) {
        var j :| 0 <= j < |columns| && columns[j].name == n;
        assert r[j].name == n;
      }
    }
    r
  }

  /** Changing a column's default; NULL removes it. Nothing changes for a missing table. */
  function SetDefault(db: Database, table: string, column: string, value: Value): (r: Database)
    ensures r.tables.Keys == db.tables.Keys
    ensures table in db.tables ==>
              forall c :: c in r.tables[table].columns && c.name == column ==> c.defaultValue == value
  {
    if table in db.tables then
      var t := db.tables[table];
      WithTable(db, table, t.(columns := SetDefaultOf(t.columns, column, value)))
    else db
  }

  /** An index row of the given table and index, under the case-insensitive collation of the catalog. */
  predicate IndexRowOf(row: IndexRow, table: string, index: string)
  {
    SameName(row.table, table) && SameName(row.index, index)
  }

  /** `select count(*)` over the index rows of the given table and index. */
  function IndexRowCount(rows: seq<IndexRow>, table: string, index: string): nat
  {
    if rows == [] then 0
    else (if IndexRowOf(rows[0], table, index) then 1 else 0) + IndexRowCount(rows[1..], table, index)
  }

  /** The index rows that do not belong to the given table and index, in their order. */
  function IndexRowsExcept(rows: seq<IndexRow>, table: string, index: string): (r: seq<IndexRow>)
    ensures forall row :: row in r <==> row in rows && !IndexRowOf(row, table, index)
  {
    if rows == [] then []
    else
      assert rows == [rows[0]] + rows[1..];
      var rest := IndexRowsExcept(rows[1..], table, index);
      if IndexRowOf(rows[0], table, index) then rest else [rows[0]] + rest
  }

  /** Dropping an index removes its rows from INFORMATION_SCHEMA.INDEXES. */
  function DropIndex(db: Database, table: string, index: string): (r: Database)
    ensures forall row :: row in r.indexes <==> row in db.indexes && !IndexRowOf(row, table, index)
    ensures r.tables == db.tables
  {
    db.(indexes := IndexRowsExcept(db.indexes, table, index))
  }

  /**
   * `SELECT constraint_name FROM INFORMATION_SCHEMA.TABLE_CONSTRAINTS WHERE constraint_name = name`:
   * the names of the constraint rows whose name matches, ignoring case, in catalog order.
   */
  function SelectConstraintNames(rows: seq<ConstraintRow>, name: string): (r: seq<string>)
    ensures |r| <= |rows|
    ensures forall c :: c in r <==>
              exists k :: 0 <= k < |rows| && SameName(rows[k].name, name) && rows[k].name == c
  {
    if rows == [] then []
    else
      var rest := SelectConstraintNames(rows[1..], name);
      assert forall k :: 0 < k < |rows| ==> rows[k] == rows[1..][k - 1];
      if SameName(rows[0].name, name) then [rows[0].name] + rest else rest
  }

  /**
   * Whether a constraint of the given name exists: whether the reader over the selection has a
   * first row. The table is not looked at.
   */
  function ConstraintExists(db: Database, table: string, name: string): (r: bool)
    ensures r <==> exists k :: 0 <= k < |db.constraints| && SameName(db.constraints[k].name, name)
  {
    var selected := SelectConstraintNames(db.constraints, name);
    assert selected != [] ==> selected[0] in selected;
    assert (exists k :: 0 <= k < |db.constraints| && SameName(db.constraints[k].name, name)) ==> selected != [] by {
      if exists k :: 0 <= k < |db.constraints| && SameName(db.constraints[k].name, name) {
        var k :| 0 <= k < |db.constraints| && SameName(db.constraints[k].name, name);
        assert db.constraints[k].name in selected;
      }
    }
    selected != []
  }

  /** The table argument has no effect on `ConstraintExists`. */
  lemma ConstraintExistsIgnoresTable(db: Database, table: string, other: string, name: string)
    ensures ConstraintExists(db, table, name) == ConstraintExists(db, other, name)
  {
  }

  /** The names of the constraints a column of a table takes part in, in catalog order. */
  function FindConstraints(rows: seq<KeyColumnRow>, table: string, column: string): (r: seq<string>)
    ensures forall name :: name in r <==>
              exists k :: 0 <= k < |rows| && SameName(rows[k].table, table) && SameName(rows[k].column, column) && rows[k].constraint == name
  {
    if rows == [] then []
    else
      var rest := FindConstraints(rows[1..], table, column);
      assert forall k :: 0 < k < |rows| ==> rows[k] == rows[1..][k - 1];
      if SameName(rows[0].table, table) && SameName(rows[0].column, column) then [rows[0].constraint] + rest else rest
  }

  /** `select count(*) ... > 0` over the index rows: whether the index exists on the table. */
  function IndexExists(db: Database, index: string, table: string): (r: bool)
    ensures r <==> exists k :: 0 <= k < |db.indexes| && IndexRowOf(db.indexes[k], table, index)
  {
    IndexRowCountPositive(db.indexes, table, index);
    IndexRowCount(db.indexes, table, index) > 0
  }

  /** A constraint of another table with the name asked for makes `ConstraintExists` answer yes. */
  lemma ConstraintOfAnyTable(db: Database, table: string, other: string, name: string)
    requires ConstraintRow(other, name) in db.constraints
    ensures ConstraintExists(db, table, name)
  {
    var k :| 0 <= k < |db.constraints| && db.constraints[k] == ConstraintRow(other, name);
    assert SameName(db.constraints[k].name, name);
  }

  /** The count of an index's rows is positive exactly when the index has a row. */
  lemma {:induction false} IndexRowCountPositive(rows: seq<IndexRow>, table: string, index: string)
    ensures IndexRowCount(rows, table, index) > 0 <==> exists k :: 0 <= k < |rows| && IndexRowOf(rows[k], table, index)
  {
    if rows != [] {
      IndexRowCountPositive(rows[1..], table, index);
      if IndexRowCount(rows[1..], table, index) > 0 {
        var k :| 0 <= k < |rows| - 1 && IndexRowOf(rows[1..][k], table, index);
        assert IndexRowOf(rows[k + 1], table, index);
      }
      if exists k :: 0 <= k < |rows| && IndexRowOf(rows[k], table, index) {
        var k :| 0 <= k < |rows| && IndexRowOf(rows[k], table, index);
        if k > 0 {
          assert IndexRowOf(rows[1..][k - 1], table, index);
        }
      }
    }
  }

  /**
   * Dropping an index leaves no row of it, keeps the rows of every other index, and dropping
   * it again changes nothing.
   */
  lemma DropIndexRemovesOnlyIt(db: Database, table: string, index: string)
    ensures !IndexExists(DropIndex(db, table, index), index, table)
    ensures forall row :: row in db.indexes && !IndexRowOf(row, table, index) ==> row in DropIndex(db, table, index).indexes
    ensures forall row :: row in DropIndex(db, table, index).indexes ==> row in db.indexes
    ensures DropIndex(db, table, index).tables == db.tables
    ensures DropIndex(DropIndex(db, table, index), table, index) == DropIndex(db, table, index)
  {
    var rows := DropIndex(db, table, index).indexes;
    forall k | 0 <= k < |rows|
      ensures !IndexRowOf(rows[k], table, index)
    {
      assert rows[k] in rows;
    }
    IndexRowsExceptUnchanged(rows, table, index);
  }

  /** Removing the rows of an index that has none leaves the rows as they are. */
  lemma {:induction false} IndexRowsExceptUnchanged(rows: seq<IndexRow>, table: string, index: string)
    requires forall row :: row in rows ==> !IndexRowOf(row, table, index)
    ensures IndexRowsExcept(rows, table, index) == rows
  {
    if rows != [] {
      assert rows[0] in rows;
      assert forall row :: row in rows[1..] ==> row in rows;
      IndexRowsExceptUnchanged(rows[1..], table, index);
      assert rows == [rows[0]] + rows[1..];
    }
  }

  /** Clearing a default and then setting it ends as setting it directly. */
  lemma SetDefaultTwice(db: Database, table: string, column: string, first: Value, value: Value)
    ensures SetDefault(SetDefault(db, table, column, first), table, column, value) == SetDefault(db, table, column, value)
  {
    if table in db.tables {
      var t := db.tables[table];
      var once := SetDefaultOf(t.columns, column, first);
      assert SetDefaultOf(once, column, value) == SetDefaultOf(t.columns, column, value);
    }
  }

  /** Setting a default changes only the default of that column, in that table. */
  lemma SetDefaultChangesOnlyTheDefault(db: Database, table: string, column: string, value: Value)
    requires ColumnExists(db, table, column) && DistinctNames(db.tables[table].columns)
    ensures var after := SetDefault(db, table, column, value);
      && after.tables.Keys == db.tables.Keys
      && (forall other :: other in db.tables && other != table ==> after.tables[other] == db.tables[other])
      && ColumnExists(after, table, column)
      && GetColumn(after, table, column) == GetColumn(db, table, column).(defaultValue := value)
      && after.tables[table].rows == db.tables[table].rows
  {
    var t := db.tables[table];
    var cols := SetDefaultOf(t.columns, column, value);
    var c := GetColumn(db, table, column);
    var i :| 0 <= i < |t.columns| && t.columns[i] == c;
    assert cols[i] == c.(defaultValue := value);
    var found := FindColumn(cols, column).value;
    var j :| 0 <= j < |cols| && cols[j] == found;
    assert t.columns[j].name == column;
    assert j == i;
  }

  /** A column copied under the name `target`, with its type, properties and default. */
  function Renamed(c: Column, target: string): Column
  {
    Column(target, c.columnType, c.properties, c.defaultValue)
  }

  /**
   * A column renamed the way a database without column renaming allows: a column of the new
   * name and the old one's description is added, the old values are copied into it, and the
   * old column is removed.
   */
  function RenameByCopy(db: Database, table: string, source: string, target: string): (r: Database)
    requires ColumnExists(db, table, source)
    ensures r.tables.Keys == db.tables.Keys
    ensures ColumnExists(r, table, target) <==> target != source
    ensures r.indexes == db.indexes && r.constraints == db.constraints && r.keyColumns == db.keyColumns
  {
    var added := AddColumn(db, table, Renamed(GetColumn(db, table, source), target));
    RemoveColumn(CopyColumn(added, table, target, source), table, source)
  }

  /**
   * Renaming by copy leaves the old name absent and the new name present with the source
   * column's type, properties and default, and keeps the table well formed.
   */
  lemma RenameByCopyRenames(db: Database, table: string, source: string, target: string)
    requires ColumnExists(db, table, source) && !ColumnExists(db, table, target)
    requires TableWellFormed(db.tables[table])
    ensures !ColumnExists(RenameByCopy(db, table, source, target), table, source)
    ensures ColumnExists(RenameByCopy(db, table, source, target), table, target)
    ensures GetColumn(RenameByCopy(db, table, source, target), table, target) == Renamed(GetColumn(db, table, source), target)
    ensures TableWellFormed(RenameByCopy(db, table, source, target).tables[table])
  {
    RenameByCopyIs(db, table, source, target);
    RenamedTable(db.tables[table], GetColumn(db, table, source), target);
  }

  /** Renaming by copy leaves the set of tables and every other table alone. */
  lemma RenameByCopyKeepsOtherTables(db: Database, table: string, source: string, target: string)
    requires ColumnExists(db, table, source)
    ensures RenameByCopy(db, table, source, target).tables.Keys == db.tables.Keys
    ensures forall other :: other in db.tables && other != table ==>
              RenameByCopy(db, table, source, target).tables[other] == db.tables[other]
  {
    RenameByCopyIs(db, table, source, target);
  }

  /** Renaming by copy keeps every other column of the table. */
  lemma RenameByCopyKeepsOtherColumns(db: Database, table: string, source: string, target: string)
    requires ColumnExists(db, table, source) && !ColumnExists(db, table, target)
    requires TableWellFormed(db.tables[table])
    ensures forall c :: c in db.tables[table].columns && c.name != source ==>
              c in RenameByCopy(db, table, source, target).tables[table].columns
  {
    RenameByCopyIs(db, table, source, target);
    RenamedTable(db.tables[table], GetColumn(db, table, source), target);
  }

  /** The renamed table is well formed, has the new name in place of the old, and keeps every other column. */
  lemma RenamedTable(t: Table, c: Column, target: string)
    requires TableWellFormed(t) && c in t.columns && target !in ColumnNames(t.columns)
    ensures var r := Table(Without(t.columns + [Renamed(c, target)], c.name), RenamedRows(t.rows, c.name, target));
      && TableWellFormed(r)
      && ColumnNames(r.columns) == ColumnNames(t.columns) - {c.name} + {target}
      && FindColumn(r.columns, target) == Some(Renamed(c, target))
      && (forall x :: x in t.columns && x.name != c.name ==> x in r.columns)
  {
    RenamedColumns(t.columns, c, target);
    var columns := Without(t.columns + [Renamed(c, target)], c.name);
    var rows := RenamedRows(t.rows, c.name, target);
    forall k | 0 <= k < |rows|
      ensures rows[k].Keys <= ColumnNames(columns)
    {
      assert t.rows[k].Keys <= ColumnNames(t.columns);
      assert rows[k] == t.rows[k][target := Cell(t.rows[k], c.name)] - {c.name};
    }
  }

  /**
   * Renaming by copy keeps every row: each holds its old value under the new name and its
   * other values as before.
   */
  lemma RenameByCopyMovesValues(db: Database, table: string, source: string, target: string)
    requires ColumnExists(db, table, source) && !ColumnExists(db, table, target)
    ensures var before := db.tables[table]; var after := RenameByCopy(db, table, source, target).tables[table];
      && |after.rows| == |before.rows|
      && (forall k :: 0 <= k < |after.rows| ==> Cell(after.rows[k], target) == Cell(before.rows[k], source))
      && (forall k, name :: 0 <= k < |after.rows| && name != source && name != target ==>
            Cell(after.rows[k], name) == Cell(before.rows[k], name))
  {
    RenameByCopyIs(db, table, source, target);
    RenamedRowsCells(db.tables[table].rows, source, target);
  }

  /** The rows of a renamed table: each row's old value moved under the new name. */
  function RenamedRows(rows: seq<Row>, source: string, target: string): seq<Row>
  {
    seq(|rows|, k requires 0 <= k < |rows| => rows[k][target := Cell(rows[k], source)] - {source})
  }

  /** Renaming by copy replaces the table by its renamed columns and rows. */
  lemma RenameByCopyIs(db: Database, table: string, source: string, target: string)
    requires ColumnExists(db, table, source)
    ensures var t := db.tables[table];
      RenameByCopy(db, table, source, target)
        == WithTable(db, table, Table(Without(t.columns + [Renamed(GetColumn(db, table, source), target)], source),
                                      RenamedRows(t.rows, source, target)))
  {
    var t := db.tables[table];
    var added := AddColumn(db, table, Renamed(GetColumn(db, table, source), target));
    var copied := CopyColumn(added, table, target, source);
    assert added.tables[table].rows == t.rows;
    assert copied.tables[table].columns == t.columns + [Renamed(GetColumn(db, table, source), target)];
    var removed := RemoveColumn(copied, table, source).tables[table];
    assert |removed.rows| == |t.rows|;
    forall k | 0 <= k < |t.rows|
      ensures removed.rows[k] == RenamedRows(t.rows, source, target)[k]
    {
      assert copied.tables[table].rows[k] == t.rows[k][target := Cell(t.rows[k], source)];
    }
    assert removed.rows == RenamedRows(t.rows, source, target);
  }

  /** Each renamed row holds the old value under the new name, and every other value as before. */
  lemma RenamedRowsCells(rows: seq<Row>, source: string, target: string)
    requires source != target
    ensures var r := RenamedRows(rows, source, target);
      && |r| == |rows|
      && (forall k :: 0 <= k < |r| ==> Cell(r[k], target) == Cell(rows[k], source))
      && (forall k, name :: 0 <= k < |r| && name != source && name != target ==> Cell(r[k], name) == Cell(rows[k], name))
      && (forall k :: 0 <= k < |r| ==> r[k].Keys <= rows[k].Keys - {source} + {target})
  {
  }

  /**
   * The columns of a renamed table: the old column's description under the new name, after
   * the other columns, and the names still distinct.
   */
  lemma RenamedColumns(columns: seq<Column>, c: Column, target: string)
    requires DistinctNames(columns) && c in columns && target !in ColumnNames(columns)
    ensures var r := Without(columns + [Renamed(c, target)], c.name);
      && DistinctNames(r)
      && ColumnNames(r) == ColumnNames(columns) - {c.name} + {target}
      && FindColumn(r, target) == Some(Renamed(c, target))
  {
    var extended := columns + [Renamed(c, target)];
    assert ColumnNames(extended) == ColumnNames(columns) + {target};
    forall i, j | 0 <= i < j < |extended|
      ensures extended[i].name != extended[j].name
    {
      if j == |columns| {
        assert extended[i] in columns;
      }
    }
    WithoutDistinct(extended, c.name);
  }

  /** Removing the columns of one name keeps the names distinct. */
  lemma {:induction false} WithoutDistinct(columns: seq<Column>, name: string)
    requires DistinctNames(columns)
    ensures DistinctNames(Without(columns, name))
  {
    if columns != [] {
      var rest := Without(columns[1..], name);
      WithoutDistinct(columns[1..], name);
      if columns[0].name != name {
        assert columns[0].name !in ColumnNames(columns[1..]);
        var r := [columns[0]] + rest;
        forall i, j | 0 <= i < j < |r|
          ensures r[i].name != r[j].name
        {
          if i == 0 {
            assert r[j] in rest;
          } else {
            assert r[i] == rest[i - 1] && r[j] == rest[j - 1];
          }
        }
      }
    }
  }
}
