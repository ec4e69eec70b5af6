/**
 * The SQL Server Compact Edition provider of the `trunk` tree: column renaming by copy, the
 * operations CE does not support, and the index lookup and removal it builds from the dialect's
 * quoting.
 */
module SqlServerCeTrunk {
  import opened Wrappers
  import opened Text
  import opened Schema
  import opened Catalog
  import opened ProviderCalls
  import opened SqlServerDialect

  /**
   * `IndexExists` as written: the catalog's lower-cased names are compared with the names the
   * dialect quotes. The comparison itself ignores case, so the lowering changes nothing
   * (`LowerAbsorbed`); what decides the answer is the quoting of the names asked for.
   */
  function IndexExistsAsWritten(q: NameQuoting, db: Database, index: string, table: string): (r: bool)
    ensures r <==> exists k :: 0 <= k < |db.indexes|
                     && SameName(Lower(db.indexes[k].table), QuoteIfNeeded(q, table))
                     && SameName(Lower(db.indexes[k].index), QuoteIfNeeded(q, index))
  {
    LowerAbsorbedInRows(db.indexes, QuoteIfNeeded(q, table), QuoteIfNeeded(q, index));
    IndexExists(db, QuoteIfNeeded(q, index), QuoteIfNeeded(q, table))
  }

  /** Lower-casing one side of a case-insensitive comparison changes nothing. */
  lemma LowerAbsorbed(a: string, b: string)
    ensures SameName(Lower(a), b) == SameName(a, b)
  {
    LowerIdempotent(a);
  }

  /** `LowerAbsorbed` for the table and index names of every index row. */
  lemma LowerAbsorbedInRows(rows: seq<IndexRow>, table: string, index: string)
    ensures forall k :: 0 <= k < |rows| ==>
              (IndexRowOf(rows[k], table, index) <==>
                 SameName(Lower(rows[k].table), table) && SameName(Lower(rows[k].index), index))
  {
    forall k | 0 <= k < |rows|
      ensures IndexRowOf(rows[k], table, index) <==>
                SameName(Lower(rows[k].table), table) && SameName(Lower(rows[k].index), index)
    {
      LowerAbsorbed(rows[k].table, table);
      LowerAbsorbed(rows[k].index, index);
    }
  }

  /** A name as the catalog stores it: not wrapped in square brackets. */
  predicate Unbracketed(name: string)
  {
    name == [] || name[0] != '['
  }

  /**
   * With SQL Server's bracket quoting, the lookup as written finds no index of a table whose
   * catalog name is not itself bracketed, whatever indexes exist.
   */
  lemma QuotedIndexLookupMisses(db: Database, index: string, table: string)
    requires forall k :: 0 <= k < |db.indexes| ==> Unbracketed(db.indexes[k].table)
    ensures !IndexExistsAsWritten(Quoting(), db, index, table)
  {
    BracketQuoting(table);
    var quoted := QuoteIfNeeded(Quoting(), table);
    forall k | 0 <= k < |db.indexes|
      ensures !SameName(Lower(db.indexes[k].table), quoted)
    {
      var stored := db.indexes[k].table;
      LowerIdempotent(stored);
      assert Lower(quoted)[0] == '[';
      if stored != [] {
        assert Lower(Lower(stored))[0] == Lower(stored)[0] == LowerChar(stored[0]) != '[';
      }
    }
  }

  /** An index "ix_foo" on table "foo" exists, yet the lookup as written answers no. */
  lemma QuotedIndexLookupExample()
    ensures var db := Database(map[], [IndexRow("foo", "ix_foo", "name")], [], []);
      IndexExists(db, "ix_foo", "foo") && !IndexExistsAsWritten(Quoting(), db, "ix_foo", "foo")
  {
    var db := Database(map[], [IndexRow("foo", "ix_foo", "name")], [], []);
    assert IndexRowOf(db.indexes[0], "foo", "ix_foo");
    QuotedIndexLookupMisses(db, "ix_foo", "foo");
  }

  /** For a dialect that does not quote names, the lookup as written is the intended one. */
  lemma UnquotedLookupAgrees(q: NameQuoting, db: Database, index: string, table: string)
    requires !q.needsQuote
    ensures IndexExistsAsWritten(q, db, index, table) == IndexExists(db, index, table)
  {
  }

  /** The message of the exception for renaming onto a column that already exists. */
  function ColumnTakenMessage(table: string, target: string): string
  {
    "Table '" + table + "' has column named '" + target + "' already"
  }

  /** `UPDATE {0} SET {1}={2}`: the statement that copies the old column's values into the new one. */
  function CopyValuesSql(table: string, target: string, source: string): string
  {
    "UPDATE " + table + " SET " + target + "=" + source
  }

  /** `DROP INDEX {0}.{1}` with both names quoted as the dialect needs. */
  function DropIndexSql(q: NameQuoting, index: string, table: string): string
  {
    "DROP INDEX " + QuoteIfNeeded(q, table) + "." + QuoteIfNeeded(q, index)
  }

  /** The message of the warning logged for removing an index that does not exist. */
  function MissingIndexWarning(index: string): string
  {
    "Index " + index + " is not exists"
  }

  /** The trunk CE provider: its dialect's quoting, the database, the base calls made and the warnings logged. */
  class SqlServerCeTrunkProvider {
    /** The quoting of the dialect the provider was built with. */
    const quoting: NameQuoting
    /** The database, as the provider's connection sees it. */
    var database: Database
    /** The calls made on the base provider, in order. */
    var baseCalls: seq<BaseCall>
    /** The warnings logged, in order. */
    var warnings: seq<string>

    constructor (quoting: NameQuoting, db: Database)
      ensures this.quoting == quoting && database == db && baseCalls == [] && warnings == []
    {
      this.quoting := quoting;
      database := db;
      baseCalls := [];
      warnings := [];
    }

    /**
     * Renames a column by adding a copy under the new name, copying the values and removing
     * the old column. Fails when the new name is taken; does nothing when the old column is missing.
     */
    method RenameColumn(table: string, source: string, target: string) returns (r: Outcome<ProviderError>)
      modifies this`database, this`baseCalls
      ensures ColumnExists(old(database), table, target) ==>
                r == Fail(MigrationError(ColumnTakenMessage(table, target)))
                && database == old(database) && baseCalls == old(baseCalls)
      ensures !ColumnExists(old(database), table, target) && ColumnExists(old(database), table, source) ==>
                r == Pass
                && baseCalls == old(baseCalls) + [
                     AddColumnCall(table, Renamed(GetColumn(old(database), table, source), target)),
                     ExecuteSql(CopyValuesSql(table, target, source)),
                     RemoveColumnCall(table, source)]
                && database == RenameByCopy(old(database), table, source, target)
      ensures !ColumnExists(old(database), table, target) && !ColumnExists(old(database), table, source) ==>
                r == Pass && database == old(database) && baseCalls == old(baseCalls)
    {
      if ColumnExists(database, table, target) {
        return Fail(MigrationError(ColumnTakenMessage(table, target)));
      }
      if ColumnExists(database, table, source) {
        var column := GetColumn(database, table, source);
        AddColumn(table, Renamed(column, target));
        ExecuteNonQuery(CopyValuesSql(table, target, source), CopyColumn(database, table, target, source));
        RemoveColumn(table, source);
      }
      r := Pass;
    }

    /** CE cannot rename a table: the operation always fails and changes nothing. */
    method RenameTable(oldName: string, newName: string) returns (r: Outcome<ProviderError>)
      ensures r.Fail? && r.error == MigrationError("SqlServerCe doesn't support table renaming")
    {
      r := Fail(MigrationError("SqlServerCe doesn't support table renaming"));
    }

    /** CE has no check constraints: the operation always fails and changes nothing. */
    method AddCheckConstraint(name: string, table: string, checkSql: string) returns (r: Outcome<ProviderError>)
      ensures r.Fail? && r.error == MigrationError("SqlServerCe doesn't support check constraints")
    {
      r := Fail(MigrationError("SqlServerCe doesn't support check constraints"));
    }

    /**
     * Removes an index as written: the guard is the provider's own `IndexExists`, which looks the
     * index up by its quoted names (`IndexExistsAsWritten`). When that lookup answers no, a
     * warning is logged and nothing else happens; otherwise the index is dropped.
     */
    method RemoveIndex(index: string, table: string)
      modifies this`database, this`baseCalls, this`warnings
      ensures !IndexExistsAsWritten(quoting, old(database), index, table) ==>
                warnings == old(warnings) + [MissingIndexWarning(index)]
                && database == old(database) && baseCalls == old(baseCalls)
      ensures IndexExistsAsWritten(quoting, old(database), index, table) ==>
                baseCalls == old(baseCalls) + [ExecuteSql(DropIndexSql(quoting, index, table))]
                && database == DropIndex(old(database), table, index)
                && warnings == old(warnings)
                && !IndexExists(database, index, table)
    {
      if !IndexExistsAsWritten(quoting, database, index, table) {
        warnings := warnings + [MissingIndexWarning(index)];
        return;
      }
      ExecuteNonQuery(DropIndexSql(quoting, index, table), DropIndex(database, table, index));
      DropIndexRemovesOnlyIt(old(database), table, index);
    }

    /**
     * Removes an index as evidently intended: the guard looks the index up by its catalog names
     * (`Catalog.IndexExists`). A missing index is reported by a warning; an existing one is
     * dropped. Either way the index no longer exists afterwards.
     */
    method RemoveIndexIntended(index: string, table: string)
      modifies this`database, this`baseCalls, this`warnings
      ensures !IndexExists(old(database), index, table) ==>
                warnings == old(warnings) + [MissingIndexWarning(index)]
                && database == old(database) && baseCalls == old(baseCalls)
      ensures IndexExists(old(database), index, table) ==>
                baseCalls == old(baseCalls) + [ExecuteSql(DropIndexSql(quoting, index, table))]
                && database == DropIndex(old(database), table, index)
                && warnings == old(warnings)
      ensures !IndexExists(database, index, table)
    {
      if !IndexExists(database, index, table) {
        warnings := warnings + [MissingIndexWarning(index)];
        return;
      }
      ExecuteNonQuery(DropIndexSql(quoting, index, table), DropIndex(database, table, index));
      DropIndexRemovesOnlyIt(old(database), table, index);
    }

    /** The base provider's `AddColumn`, recorded and applied. */
    method AddColumn(table: string, column: Column)
      requires table in database.tables
      modifies this`database, this`baseCalls
      ensures baseCalls == old(baseCalls) + [AddColumnCall(table, column)]
      ensures database == Catalog.AddColumn(old(database), table, column)
    {
      baseCalls := baseCalls + [AddColumnCall(table, column)];
      database := Catalog.AddColumn(database, table, column);
    }

    /** The base provider's `RemoveColumn`, recorded and applied. */
    method RemoveColumn(table: string, column: string)
      requires table in database.tables
      modifies this`database, this`baseCalls
      ensures baseCalls == old(baseCalls) + [RemoveColumnCall(table, column)]
      ensures database == Catalog.RemoveColumn(old(database), table, column)
    {
      baseCalls := baseCalls + [RemoveColumnCall(table, column)];
      database := Catalog.RemoveColumn(database, table, column);
    }

    /** The base provider's `ExecuteNonQuery`: the statement is recorded and the database takes the state it leaves. */
    method ExecuteNonQuery(sql: string, after: Database)
      modifies this`database, this`baseCalls
      ensures baseCalls == old(baseCalls) + [ExecuteSql(sql)]
      ensures database == after
    {
      baseCalls := baseCalls + [ExecuteSql(sql)];
      database := after;
    }
  }

  /** Under SQL Server's quoting, an index is dropped by `DROP INDEX [table].[index]`. */
  lemma BracketedDropIndex(index: string, table: string)
    ensures DropIndexSql(Quoting(), index, table) == "DROP INDEX [" + table + "].[" + index + "]"
  {
    var quotedTable := QuoteIfNeeded(Quoting(), table);
    var quotedIndex := QuoteIfNeeded(Quoting(), index);
    assert quotedTable == "[" + table + "]";
    assert quotedIndex == "[" + index + "]";
    assert "DROP INDEX " + ("[" + table + "]") + "." + ("[" + index + "]")
        == "DROP INDEX [" + table + "].[" + index + "]";
  }
}
