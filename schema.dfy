/**
 * Schema descriptors shared by the dialect and the providers: abstract column types,
 * values, column descriptors and the type-name registrations of a type map.
 */
module Schema {
  import opened Wrappers
  import opened Text

  /** `int.MaxValue` of the source's 32-bit integers. */
  const IntMaxValue: int := 2147483647

  /** The abstract column types (`System.Data.DbType`). */
  datatype DbType =
    | AnsiString | Binary | Byte | Boolean | Currency | Date | DateTime | Decimal | Double
    | Guid | Int16 | Int32 | Int64 | Object | SByte | Single | String | Time | UInt16
    | UInt32 | UInt64 | VarNumeric | AnsiStringFixedLength | StringFixedLength | Xml
    | DateTime2 | DateTimeOffset

  /** A value stored in a row or used as a column default; `NullValue` is the SQL NULL and a C# null. */
  datatype Value =
    | NullValue
    | BoolValue(b: bool)
    | IntValue(i: int)
    | OtherValue(text: string)  // any other object, by its `ToString()` text

  /** The string form of a value (`Object.ToString()`); booleans print as "True" and "False". */
  function ValueText(v: Value): string
  {
    match v
    case NullValue => ""
    case BoolValue(b) => if b then "True" else "False"
    case IntValue(i) => IntText(i)
    case OtherValue(text) => text
  }

  /** The flags of a column (`ColumnProperty`); `PrimaryKeyWithIdentity` is {PrimaryKey, Identity}. */
  datatype ColumnProperty = Null | NotNull | Identity | Unique | Indexed | Unsigned | ForeignKey | PrimaryKey

  /** An abstract column type with optional length and scale. */
  datatype ColumnType = ColumnType(dbType: DbType, length: Option<int>, scale: Option<int>)

  /** A column descriptor: name, type, property flags and default value (`NullValue` for none). */
  datatype Column = Column(name: string, columnType: ColumnType, properties: set<ColumnProperty>, defaultValue: Value)

  /**
   * One type-name registration: an abstract type, an optional size threshold (None for the
   * unsized entry), the SQL template (`$l` length, `$s` scale) and an optional default scale.
   */
  datatype TypeEntry = TypeEntry(dbType: DbType, size: Option<int>, template: string, scale: Option<int>)

  /** The registration an entry keys on: its type and its size threshold. */
  predicate Keys(e: TypeEntry, t: DbType, size: Option<int>)
  {
    e.dbType == t && e.size == size
  }

  /**
   * The registration in force for a type and size threshold: the last one made for that key,
   * since a later registration replaces an earlier one.
   */
  function LastEntry(log: seq<TypeEntry>, t: DbType, size: Option<int>): (r: Option<TypeEntry>)
    ensures r.Some? <==> exists k :: 0 <= k < |log| && Keys(log[k], t, size)
    ensures r.Some? ==> Keys(r.value, t, size)
  {
    if log == [] then None
    else if Keys(log[|log| - 1], t, size) then Some(log[|log| - 1])
    else LastEntry(log[..|log| - 1], t, size)
  }

  /** The template in force for a type and size threshold. */
  function TemplateFor(log: seq<TypeEntry>, t: DbType, size: Option<int>): Option<string>
  {
    match LastEntry(log, t, size)
    case Some(e) => Some(e.template)
    case None => None
  }

  /** Registrations made later override those made before them, whatever came before. */
  lemma {:induction false} LaterRegistrationWins(earlier: seq<TypeEntry>, later: seq<TypeEntry>, t: DbType, size: Option<int>)
    requires LastEntry(later, t, size).Some?
    ensures LastEntry(earlier + later, t, size) == LastEntry(later, t, size)
    decreases |later|
  {
    var whole := earlier + later;
    assert whole[|whole| - 1] == later[|later| - 1];
    if !Keys(later[|later| - 1], t, size) {
      assert whole[..|whole| - 1] == earlier + later[..|later| - 1];
      LaterRegistrationWins(earlier, later[..|later| - 1], t, size);
    }
  }

  /** Registrations made later that do not touch a key leave the one in force for it as it was. */
  lemma {:induction false} EarlierRegistrationsKept(earlier: seq<TypeEntry>, later: seq<TypeEntry>, t: DbType, size: Option<int>)
    requires LastEntry(later, t, size).None?
    ensures LastEntry(earlier + later, t, size) == LastEntry(earlier, t, size)
    decreases |later|
  {
    if later != [] {
      var whole := earlier + later;
      assert whole[|whole| - 1] == later[|later| - 1];
      assert whole[..|whole| - 1] == earlier + later[..|later| - 1];
      EarlierRegistrationsKept(earlier, later[..|later| - 1], t, size);
    } else {
      assert earlier + later == earlier;
    }
  }

  /**
   * A log with no key registered twice, whose every entry carries the name `name` gives its key,
   * and which registers every key `name` lists, has exactly the names of `name` in force.
   */
  lemma TableInForce(log: seq<TypeEntry>, name: (DbType, Option<int>) -> Option<string>, t: DbType, size: Option<int>)
    requires DistinctKeys(log)
    requires forall k :: 0 <= k < |log| ==> name(log[k].dbType, log[k].size) == Some(log[k].template)
    requires name(t, size).Some? ==> exists k :: 0 <= k < |log| && Keys(log[k], t, size)
    ensures TemplateFor(log, t, size) == name(t, size)
  {
    if LastEntry(log, t, size).Some? {
      var k :| 0 <= k < |log| && Keys(log[k], t, size);
      LastEntryAt(log, k, t, size);
    }
  }

  /** Keys that each determine the position of their registration are never registered twice. */
  lemma KeysDistinctByPosition(log: seq<TypeEntry>, position: (DbType, Option<int>) -> int)
    requires forall k :: 0 <= k < |log| ==> position(log[k].dbType, log[k].size) == k
    ensures DistinctKeys(log)
  {
    forall i, j | 0 <= i < j < |log|
      ensures !Keys(log[j], log[i].dbType, log[i].size)
    {
      assert position(log[i].dbType, log[i].size) == i;
      assert position(log[j].dbType, log[j].size) == j;
    }
  }

  /** The number of unsized registrations of a type. */
  function UnsizedCount(log: seq<TypeEntry>, t: DbType): nat
  {
    if log == [] then 0
    else (if Keys(log[0], t, None) then 1 else 0) + UnsizedCount(log[1..], t)
  }

  /** Every type that appears in the log has exactly one unsized registration. */
  predicate OneUnsizedPerType(log: seq<TypeEntry>)
  {
    forall k :: 0 <= k < |log| ==> UnsizedCount(log, log[k].dbType) == 1
  }

  /** The size thresholds registered for one type strictly increase in registration order. */
  predicate ThresholdsIncrease(log: seq<TypeEntry>)
  {
    forall i, j ::
      0 <= i < j < |log| && log[i].dbType == log[j].dbType && log[i].size.Some? && log[j].size.Some? ==>
        log[i].size.value < log[j].size.value
  }

  /** No type and size threshold is registered twice. */
  predicate DistinctKeys(log: seq<TypeEntry>)
  {
    forall i, j :: 0 <= i < j < |log| ==> !Keys(log[j], log[i].dbType, log[i].size)
  }

  /** One unsized registration of a type counts as at least one. */
  lemma {:induction false} UnsizedCountPositive(log: seq<TypeEntry>, k: nat, t: DbType)
    requires k < |log| && Keys(log[k], t, None)
    ensures UnsizedCount(log, t) >= 1
  {
    if k > 0 {
      UnsizedCountPositive(log[1..], k - 1, t);
    }
  }
  /** The registration in force for a key is the one at position `k` when no later registration has that key. */
  lemma {:induction false} LastEntryAt(log: seq<TypeEntry>, k: nat, t: DbType, size: Option<int>)
    requires k < |log| && Keys(log[k], t, size)
    requires forall j :: k < j < |log| ==> !Keys(log[j], t, size)
    ensures LastEntry(log, t, size) == Some(log[k])
    decreases |log|
  {
    if k < |log| - 1 {
      LastEntryAt(log[..|log| - 1], k, t, size);
    }
  }

  /** Size thresholds in registration order: the unsized entry first, then increasing thresholds. */
  predicate SizeBefore(a: Option<int>, b: Option<int>)
  {
    b.Some? && (a.Some? ==> a.value < b.value)
  }

  /**
   * Registration `b` may follow registration `a` in a table grouped by type, the groups in
   * the order `rank`: `b` continues `a`'s type with a larger threshold, or `b` opens a later
   * type with its unsized entry.
   */
  predicate Continues(rank: DbType -> nat, a: TypeEntry, b: TypeEntry)
  {
    || (a.dbType == b.dbType && SizeBefore(a.size, b.size))
    || (rank(a.dbType) < rank(b.dbType) && b.size.None?)
  }

  /** A table made of one group per type, in the order `rank`, each opened by its unsized entry. */
  predicate GroupedBy(rank: DbType -> nat, log: seq<TypeEntry>)
  {
    && (log != [] ==> log[0].size.None?)
    && forall k :: 0 < k < |log| ==> Continues(rank, log[k - 1], log[k])
  }

  /** In a grouped table, an earlier entry never belongs to a later group, and within a group the thresholds increase. */
  lemma {:induction false} GroupedOrder(rank: DbType -> nat, log: seq<TypeEntry>, i: nat, j: nat)
    requires GroupedBy(rank, log) && i < j < |log|
    ensures rank(log[i].dbType) <= rank(log[j].dbType)
    ensures rank(log[i].dbType) == rank(log[j].dbType) ==>
              log[i].dbType == log[j].dbType && SizeBefore(log[i].size, log[j].size)
    decreases j - i
  {
    assert Continues(rank, log[j - 1], log[j]);
    if i < j - 1 {
      GroupedOrder(rank, log, i, j - 1);
    }
  }

  /** In a grouped table, every entry's group is opened by an unsized entry of its type. */
  lemma {:induction false} GroupOpensUnsized(rank: DbType -> nat, log: seq<TypeEntry>, k: nat)
    requires GroupedBy(rank, log) && k < |log|
    ensures exists m :: 0 <= m <= k && Keys(log[m], log[k].dbType, None)
    decreases k
  {
    if log[k].size.Some? {
      assert Continues(rank, log[k - 1], log[k]);
      GroupOpensUnsized(rank, log, k - 1);
    }
  }

  /** A type without unsized registrations counts none. */
  lemma {:induction false} UnsizedCountZero(log: seq<TypeEntry>, t: DbType)
    requires forall k :: 0 <= k < |log| ==> !Keys(log[k], t, None)
    ensures UnsizedCount(log, t) == 0
  {
    if log != [] {
      UnsizedCountZero(log[1..], t);
    }
  }

  /** With no key registered twice, a type counts at most one unsized registration. */
  lemma {:induction false} UnsizedCountAtMostOne(log: seq<TypeEntry>, t: DbType)
    requires DistinctKeys(log)
    ensures UnsizedCount(log, t) <= 1
  {
    if log != [] {
      if Keys(log[0], t, None) {
        UnsizedCountZero(log[1..], t);
      } else {
        UnsizedCountAtMostOne(log[1..], t);
      }
    }
  }

  /** A table grouped by type has one unsized entry per type, increasing thresholds and no key registered twice. */
  lemma GroupedIsWellFormed(rank: DbType -> nat, log: seq<TypeEntry>)
    requires GroupedBy(rank, log)
    ensures ThresholdsIncrease(log)
    ensures DistinctKeys(log)
    ensures OneUnsizedPerType(log)
  {
    forall i, j | 0 <= i < j < |log| && log[i].dbType == log[j].dbType
      ensures SizeBefore(log[i].size, log[j].size)
    {
      GroupedOrder(rank, log, i, j);
    }
    forall k | 0 <= k < |log|
      ensures UnsizedCount(log, log[k].dbType) == 1
    {
      GroupOpensUnsized(rank, log, k);
      var m :| 0 <= m <= k && Keys(log[m], log[k].dbType, None);
      UnsizedCountPositive(log, m, log[k].dbType);
      UnsizedCountAtMostOne(log, log[k].dbType);
    }
  }
}
