/**
 * The SQL Server Compact Edition provider of the `src` tree: its overrides of the type map,
 * the operations CE does not support, the two-step default change, the index queries and the
 * DROP INDEX statement it builds through the SQL formatter.
 */
module SqlServerCe {
  import opened Wrappers
  import opened Schema
  import opened Formatter
  import opened Catalog
  import opened ProviderCalls

  /** The number of type-map overrides the constructor makes. */
  const OverrideCount := 12

  /** The `k`-th type-map override the constructor puts, in the order it puts them. */
  function Override(k: nat): TypeEntry
    requires k < OverrideCount
  {
    match k
    case 0 => TypeEntry(AnsiStringFixedLength, None, "NCHAR(255)", None)
    case 1 => TypeEntry(AnsiStringFixedLength, Some(4000), "NCHAR($l)", None)
    case 2 => TypeEntry(AnsiString, None, "VARCHAR(255)", None)
    case 3 => TypeEntry(AnsiString, Some(4000), "VARCHAR($l)", None)
    case 4 => TypeEntry(AnsiString, Some(IntMaxValue), "TEXT", None)
    case 5 => TypeEntry(String, None, "NVARCHAR(255)", None)
    case 6 => TypeEntry(String, Some(4000), "NVARCHAR($l)", None)
    case 7 => TypeEntry(String, Some(IntMaxValue), "NTEXT", None)
    case 8 => TypeEntry(Binary, Some(IntMaxValue), "IMAGE", None)
    case 9 => TypeEntry(Decimal, None, "NUMERIC(19,5)", None)
    case 10 => TypeEntry(Decimal, Some(19), "NUMERIC($l, $s)", None)
    case 11 => TypeEntry(Double, None, "FLOAT", None)
  }

  /** The first `n` overrides, in the order they are put. */
  function OverridesThrough(n: nat): (r: seq<TypeEntry>)
    requires n <= OverrideCount
    ensures |r| == n
  {
    if n == 0 then [] else OverridesThrough(n - 1) + [Override(n - 1)]
  }

  /** All the overrides the constructor puts. */
  function Overrides(): seq<TypeEntry>
  {
    OverridesThrough(OverrideCount)
  }

  /**
   * The CE type names as a table by type and size threshold, independent of the order of the
   * overrides: None for the keys CE leaves to the base provider.
   */
  function CeTypeName(t: DbType, size: Option<int>): Option<string>
  {
    match t
    case AnsiStringFixedLength =>
      if size == None then Some("NCHAR(255)") else if size == Some(4000) then Some("NCHAR($l)") else None
    case AnsiString =>
      if size == None then Some("VARCHAR(255)") else if size == Some(4000) then Some("VARCHAR($l)")
      else if size == Some(IntMaxValue) then Some("TEXT") else None
    case String =>
      if size == None then Some("NVARCHAR(255)") else if size == Some(4000) then Some("NVARCHAR($l)")
      else if size == Some(IntMaxValue) then Some("NTEXT") else None
    case Binary => if size == Some(IntMaxValue) then Some("IMAGE") else None
    case Decimal =>
      if size == None then Some("NUMERIC(19,5)") else if size == Some(19) then Some("NUMERIC($l, $s)") else None
    case Double => if size == None then Some("FLOAT") else None
    case _ => None
  }

  /** The position among the overrides of the one for a key, and -1 for a key not overridden. */
  function OverridePosition(t: DbType, size: Option<int>): int
  {
    match t
    case AnsiStringFixedLength => if size == None then 0 else if size == Some(4000) then 1 else -1
    case AnsiString =>
      if size == None then 2 else if size == Some(4000) then 3 else if size == Some(IntMaxValue) then 4 else -1
    case String =>
      if size == None then 5 else if size == Some(4000) then 6 else if size == Some(IntMaxValue) then 7 else -1
    case Binary => if size == Some(IntMaxValue) then 8 else -1
    case Decimal => if size == None then 9 else if size == Some(19) then 10 else -1
    case Double => if size == None then 11 else -1
    case _ => -1
  }

  /** The CE provider: the database it works on, its type map and the calls made on its base provider. */
  class SqlServerCeProvider {
    /** The database, as the provider's connection sees it. */
    var database: Database
    /** The type map: the base provider's registrations followed by the CE overrides. */
    var typeMap: seq<TypeEntry>
    /** The calls made on the base provider, in order. */
    var baseCalls: seq<BaseCall>
    /** The formatter `FormatSql` renders statements with. */
    const formatter: SqlFormatter

    /** Starts from the base provider's type map and puts the CE type names over it. */
    constructor (baseTypeMap: seq<TypeEntry>, db: Database, formatter: SqlFormatter)
      ensures typeMap == baseTypeMap + Overrides()
      ensures database == db && baseCalls == [] && this.formatter == formatter
    {
      database := db;
      typeMap := baseTypeMap;
      baseCalls := [];
      this.formatter := formatter;
      new;
      ghost var put := 0;
      Put(AnsiStringFixedLength, None, "NCHAR(255)");
      put := put + 1;
      assert typeMap == baseTypeMap + OverridesThrough(put) by { OverrideAppended(baseTypeMap, put - 1); }
      Put(AnsiStringFixedLength, Some(4000), "NCHAR($l)");
      put := put + 1;
      assert typeMap == baseTypeMap + OverridesThrough(put) by { OverrideAppended(baseTypeMap, put - 1); }
      Put(AnsiString, None, "VARCHAR(255)");
      put := put + 1;
      assert typeMap == baseTypeMap + OverridesThrough(put) by { OverrideAppended(baseTypeMap, put - 1); }
      Put(AnsiString, Some(4000), "VARCHAR($l)");
      put := put + 1;
      assert typeMap == baseTypeMap + OverridesThrough(put) by { OverrideAppended(baseTypeMap, put - 1); }
      Put(AnsiString, Some(IntMaxValue), "TEXT");
      put := put + 1;
      assert typeMap == baseTypeMap + OverridesThrough(put) by { OverrideAppended(baseTypeMap, put - 1); }

      Put(String, None, "NVARCHAR(255)");
      put := put + 1;
      assert typeMap == baseTypeMap + OverridesThrough(put) by { OverrideAppended(baseTypeMap, put - 1); }
      Put(String, Some(4000), "NVARCHAR($l)");
      put := put + 1;
      assert typeMap == baseTypeMap + OverridesThrough(put) by { OverrideAppended(baseTypeMap, put - 1); }
      Put(String, Some(IntMaxValue), "NTEXT");
      put := put + 1;
      assert typeMap == baseTypeMap + OverridesThrough(put) by { OverrideAppended(baseTypeMap, put - 1); }

      Put(Binary, Some(IntMaxValue), "IMAGE");
      put := put + 1;
      assert typeMap == baseTypeMap + OverridesThrough(put) by { OverrideAppended(baseTypeMap, put - 1); }

      Put(Decimal, None, "NUMERIC(19,5)");
      put := put + 1;
      assert typeMap == baseTypeMap + OverridesThrough(put) by { OverrideAppended(baseTypeMap, put - 1); }
      Put(Decimal, Some(19), "NUMERIC($l, $s)");
      put := put + 1;
      assert typeMap == baseTypeMap + OverridesThrough(put) by { OverrideAppended(baseTypeMap, put - 1); }
      Put(Double, None, "FLOAT");
      put := put + 1;
      assert typeMap == baseTypeMap + OverridesThrough(put) by { OverrideAppended(baseTypeMap, put - 1); }
    }

    /** Puts a type name for a key, replacing the one in force for that key. */
    method Put(t: DbType, size: Option<int>, template: string)
      modifies this`typeMap
      ensures typeMap == old(typeMap) + [TypeEntry(t, size, template, None)]
      ensures database == old(database) && baseCalls == old(baseCalls)
    {
      typeMap := typeMap + [TypeEntry(t, size, template, None)];
    }

    /** CE cannot rename a column: the operation always fails and changes nothing. */
    method RenameColumn(table: string, source: string, target: string) returns (r: Outcome<ProviderError>)
      ensures r.Fail? && r.error == NotSupported("SqlServerCe doesn't support column renaming")
    {
      r := Fail(NotSupported("SqlServerCe doesn't support column renaming"));
    }

    /** CE has no check constraints: the operation always fails and changes nothing. */
    method AddCheckConstraint(name: string, table: string, checkSql: string) returns (r: Outcome<ProviderError>)
      ensures r.Fail? && r.error == NotSupported("SqlServerCe doesn't support check constraints")
    {
      r := Fail(NotSupported("SqlServerCe doesn't support check constraints"));
    }

    /**
     * Changes a column's default. A non-null default is set only after the old one has been
     * cleared; the database ends with the new default in either case.
     */
    method ChangeDefaultValue(table: string, column: string, value: Value)
      modifies this`database, this`baseCalls
      ensures baseCalls == old(baseCalls)
                + (if value.NullValue? then [] else [ChangeDefaultCall(table, column, NullValue)])
                + [ChangeDefaultCall(table, column, value)]
      ensures database == SetDefault(old(database), table, column, value)
    {
      if !value.NullValue? {
        BaseChangeDefaultValue(table, column, NullValue);
      }
      BaseChangeDefaultValue(table, column, value);
      SetDefaultTwice(old(database), table, column, NullValue, value);
    }

    /** The base provider's default change, recorded and applied to the database. */
    method BaseChangeDefaultValue(table: string, column: string, value: Value)
      modifies this`database, this`baseCalls
      ensures baseCalls == old(baseCalls) + [ChangeDefaultCall(table, column, value)]
      ensures database == SetDefault(old(database), table, column, value)
    {
      baseCalls := baseCalls + [ChangeDefaultCall(table, column, value)];
      database := SetDefault(database, table, column, value);
    }

    /** `DROP INDEX {0:NAME}.{1:NAME}` rendered through the formatter, with the table and the index as arguments. */
    function GetSqlRemoveIndex(index: string, table: string): (r: Result<string, FormatError>)
      ensures r == Success("DROP INDEX " + formatter.converter(Obj(table)) + "." + formatter.converter(Obj(index)))
    {
      RemoveIndexSpliced(formatter, table, index);
      RenderNameItems(formatter, RemoveIndexTemplate(), [Obj(table), Obj(index)]);
      RenderTemplate(formatter, RemoveIndexTemplate(), [Obj(table), Obj(index)])
    }
  }

  /** The format string "DROP INDEX {0:NAME}.{1:NAME}", split into its literal text and items. */
  function RemoveIndexTemplate(): seq<TemplatePart>
  {
    [Literal("DROP INDEX "), Hole(0, Some("NAME")), Literal("."), Hole(1, Some("NAME"))]
  }

  /** The DROP INDEX template with its items replaced by the converted table and index names. */
  lemma RemoveIndexSpliced(f: SqlFormatter, table: string, index: string)
    ensures Spliced(f, RemoveIndexTemplate(), [Obj(table), Obj(index)])
              == "DROP INDEX " + f.converter(Obj(table)) + "." + f.converter(Obj(index))
  {
    var parts := RemoveIndexTemplate();
    var args := [Obj(table), Obj(index)];
    assert Spliced(f, parts[3..], args) == f.converter(Obj(index)) + Spliced(f, parts[4..], args);
    assert Spliced(f, parts[2..], args) == "." + Spliced(f, parts[3..], args) by { assert parts[2..][1..] == parts[3..]; }
    assert Spliced(f, parts[1..], args) == f.converter(Obj(table)) + Spliced(f, parts[2..], args) by { assert parts[1..][1..] == parts[2..]; }
    assert Spliced(f, parts, args) == "DROP INDEX " + Spliced(f, parts[1..], args);
  }

  /** Putting the next override extends the type map by that override. */
  lemma OverrideAppended(baseTypeMap: seq<TypeEntry>, k: nat)
    requires k < OverrideCount
    ensures baseTypeMap + OverridesThrough(k + 1) == baseTypeMap + OverridesThrough(k) + [Override(k)]
  {
  }

  /** The `k`-th override, read from any prefix of the overrides that holds it. */
  lemma {:induction false} OverrideAt(n: nat, k: nat)
    requires k < n <= OverrideCount
    ensures OverridesThrough(n)[k] == Override(k)
  {
    if k < n - 1 {
      OverrideAt(n - 1, k);
    }
  }

  /** Each override carries the name the table gives its key, and sits at that key's position. */
  lemma OverrideFacts(k: nat)
    requires k < OverrideCount
    ensures CeTypeName(Override(k).dbType, Override(k).size) == Some(Override(k).template)
    ensures OverridePosition(Override(k).dbType, Override(k).size) == k
  {
  }

  /** Every key the table names is overridden, at the position `OverridePosition` gives. */
  lemma CeTypeNamePut(t: DbType, size: Option<int>)
    requires CeTypeName(t, size).Some?
    ensures 0 <= OverridePosition(t, size) < OverrideCount
    ensures Keys(Override(OverridePosition(t, size)), t, size)
  {
  }

  /** The overrides have exactly the names of the table in force. */
  lemma OverridesInForce(t: DbType, size: Option<int>)
    ensures TemplateFor(Overrides(), t, size) == CeTypeName(t, size)
  {
    var log := Overrides();
    forall k | 0 <= k < |log|
      ensures CeTypeName(log[k].dbType, log[k].size) == Some(log[k].template)
      ensures OverridePosition(log[k].dbType, log[k].size) == k
    {
      OverrideAt(OverrideCount, k);
      OverrideFacts(k);
    }
    KeysDistinctByPosition(log, OverridePosition);
    if CeTypeName(t, size).Some? {
      CeTypeNamePut(t, size);
      OverrideAt(OverrideCount, OverridePosition(t, size));
    }
    TableInForce(log, CeTypeName, t, size);
  }

  /**
   * After construction the type map gives the CE name for every key CE overrides, and the
   * base provider's name, if any, for every other key.
   */
  lemma CeTypeNames(baseTypeMap: seq<TypeEntry>, t: DbType, size: Option<int>)
    ensures TemplateFor(baseTypeMap + Overrides(), t, size)
              == if CeTypeName(t, size).Some? then CeTypeName(t, size) else TemplateFor(baseTypeMap, t, size)
  {
    OverridesInForce(t, size);
    if CeTypeName(t, size).Some? {
      LaterRegistrationWins(baseTypeMap, Overrides(), t, size);
    } else {
      EarlierRegistrationsKept(baseTypeMap, Overrides(), t, size);
    }
  }

  /** Text columns of CE: NVARCHAR up to 4000 characters, NTEXT up to `int.MaxValue`, whatever the base provider registered. */
  lemma CeUnicodeText(baseTypeMap: seq<TypeEntry>)
    ensures TemplateFor(baseTypeMap + Overrides(), String, None) == Some("NVARCHAR(255)")
    ensures TemplateFor(baseTypeMap + Overrides(), String, Some(4000)) == Some("NVARCHAR($l)")
    ensures TemplateFor(baseTypeMap + Overrides(), String, Some(IntMaxValue)) == Some("NTEXT")
  {
    CeTypeNames(baseTypeMap, String, None);
    CeTypeNames(baseTypeMap, String, Some(4000));
    CeTypeNames(baseTypeMap, String, Some(IntMaxValue));
  }

  /** With a converter that brackets names, the index `ix` of table `t` is dropped by `DROP INDEX [t].[ix]`. */
  lemma BracketedRemoveIndex(p: SqlServerCeProvider, index: string, table: string)
    requires forall name :: p.formatter.converter(Obj(name)) == "[" + name + "]"
    ensures p.GetSqlRemoveIndex(index, table) == Success("DROP INDEX [" + table + "].[" + index + "]")
  {
    assert "DROP INDEX " + ("[" + table + "]") + "." + ("[" + index + "]")
        == "DROP INDEX [" + table + "].[" + index + "]";
  }
}
