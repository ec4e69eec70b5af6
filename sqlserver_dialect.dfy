/**
 * The SQL Server dialect: its type-name registrations, its identifier quoting,
 * its rendering of DEFAULT clauses and its feature flags.
 */
module SqlServerDialect {
  import opened Wrappers
  import opened Text
  import opened Schema

  /** The number of type-name registrations the dialect's constructor makes. */
  const RegistrationCount := 27

  /** The `k`-th type-name registration the dialect's constructor makes. */
  function Registration(k: nat): TypeEntry
    requires k < RegistrationCount
  {
    match k
    case 0 => TypeEntry(AnsiStringFixedLength, None, "CHAR(255)", None)
    case 1 => TypeEntry(AnsiStringFixedLength, Some(8000), "CHAR($l)", None)
    case 2 => TypeEntry(AnsiString, None, "VARCHAR(255)", None)
    case 3 => TypeEntry(AnsiString, Some(8000), "VARCHAR($l)", None)
    case 4 => TypeEntry(AnsiString, Some(IntMaxValue), "TEXT", None)
    case 5 => TypeEntry(Binary, None, "VARBINARY(8000)", None)
    case 6 => TypeEntry(Binary, Some(8000), "VARBINARY($l)", None)
    case 7 => TypeEntry(Binary, Some(2147483647), "IMAGE", None)
    case 8 => TypeEntry(Boolean, None, "BIT", None)
    case 9 => TypeEntry(Byte, None, "TINYINT", None)
    case 10 => TypeEntry(Currency, None, "MONEY", None)
    case 11 => TypeEntry(Date, None, "DATETIME", None)
    case 12 => TypeEntry(DateTime, None, "DATETIME", None)
    case 13 => TypeEntry(Decimal, None, "DECIMAL", None)
    case 14 => TypeEntry(Decimal, Some(38), "DECIMAL($l, $s)", Some(2))
    case 15 => TypeEntry(Double, None, "DOUBLE PRECISION", None)
    case 16 => TypeEntry(Guid, None, "UNIQUEIDENTIFIER", None)
    case 17 => TypeEntry(Int16, None, "SMALLINT", None)
    case 18 => TypeEntry(Int32, None, "INT", None)
    case 19 => TypeEntry(Int64, None, "BIGINT", None)
    case 20 => TypeEntry(Single, None, "REAL", None)
    case 21 => TypeEntry(StringFixedLength, None, "NCHAR(255)", None)
    case 22 => TypeEntry(StringFixedLength, Some(4000), "NCHAR($l)", None)
    case 23 => TypeEntry(String, None, "NVARCHAR(255)", None)
    case 24 => TypeEntry(String, Some(4000), "NVARCHAR($l)", None)
    case 25 => TypeEntry(String, Some(1073741823), "NTEXT", None)
    case 26 => TypeEntry(Time, None, "DATETIME", None)
  }
  /** The first `n` registrations, in the order they are made. */
  function RegistrationsThrough(n: nat): (r: seq<TypeEntry>)
    requires n <= RegistrationCount
    ensures |r| == n
  {
    if n == 0 then [] else RegistrationsThrough(n - 1) + [Registration(n - 1)]
  }
  /** All the type-name registrations the dialect's constructor makes. */
  function Registrations(): seq<TypeEntry>
  {
    RegistrationsThrough(RegistrationCount)
  }

  /** The dialect's type-name and property tables, filled in by its constructor. */
  class SqlServerDialect {
    /** The type-name registrations, in the order they were made. */
    var columnTypes: seq<TypeEntry>
    /** The SQL text registered for column properties, in the order registered. */
    var properties: seq<(ColumnProperty, string)>

    constructor ()
      ensures columnTypes == Registrations()
      ensures properties == [(Identity, "IDENTITY")]
    {
      columnTypes := [];
      properties := [];
      new;
      ghost var done := 0;
      RegisterColumnType(AnsiStringFixedLength, None, "CHAR(255)", None);
      done := done + 1;
      assert columnTypes == RegistrationsThrough(done) by { RegistrationAppended(done - 1); }
      RegisterColumnType(AnsiStringFixedLength, Some(8000), "CHAR($l)", None);
      done := done + 1;
      assert columnTypes == RegistrationsThrough(done) by { RegistrationAppended(done - 1); }
      RegisterColumnType(AnsiString, None, "VARCHAR(255)", None);
      done := done + 1;
      assert columnTypes == RegistrationsThrough(done) by { RegistrationAppended(done - 1); }
      RegisterColumnType(AnsiString, Some(8000), "VARCHAR($l)", None);
      done := done + 1;
      assert columnTypes == RegistrationsThrough(done) by { RegistrationAppended(done - 1); }
      RegisterColumnType(AnsiString, Some(IntMaxValue), "TEXT", None);
      done := done + 1;
      assert columnTypes == RegistrationsThrough(done) by { RegistrationAppended(done - 1); }
      RegisterColumnType(Binary, None, "VARBINARY(8000)", None);
      done := done + 1;
      assert columnTypes == RegistrationsThrough(done) by { RegistrationAppended(done - 1); }
      RegisterColumnType(Binary, Some(8000), "VARBINARY($l)", None);
      done := done + 1;
      assert columnTypes == RegistrationsThrough(done) by { RegistrationAppended(done - 1); }
      RegisterColumnType(Binary, Some(2147483647), "IMAGE", None);
      done := done + 1;
      assert columnTypes == RegistrationsThrough(done) by { RegistrationAppended(done - 1); }
      RegisterColumnType(Boolean, None, "BIT", None);
      done := done + 1;
      assert columnTypes == RegistrationsThrough(done) by { RegistrationAppended(done - 1); }
      RegisterColumnType(Byte, None, "TINYINT", None);
      done := done + 1;
      assert columnTypes == RegistrationsThrough(done) by { RegistrationAppended(done - 1); }
      RegisterColumnType(Currency, None, "MONEY", None);
      done := done + 1;
      assert columnTypes == RegistrationsThrough(done) by { RegistrationAppended(done - 1); }
      RegisterColumnType(Date, None, "DATETIME", None);
      done := done + 1;
      assert columnTypes == RegistrationsThrough(done) by { RegistrationAppended(done - 1); }
      RegisterColumnType(DateTime, None, "DATETIME", None);
      done := done + 1;
      assert columnTypes == RegistrationsThrough(done) by { RegistrationAppended(done - 1); }
      RegisterColumnType(Decimal, None, "DECIMAL", None);
      done := done + 1;
      assert columnTypes == RegistrationsThrough(done) by { RegistrationAppended(done - 1); }
      RegisterColumnType(Decimal, Some(38), "DECIMAL($l, $s)", Some(2));
      done := done + 1;
      assert columnTypes == RegistrationsThrough(done) by { RegistrationAppended(done - 1); }
      RegisterColumnType(Double, None, "DOUBLE PRECISION", None);
      done := done + 1;
      assert columnTypes == RegistrationsThrough(done) by { RegistrationAppended(done - 1); }
      RegisterColumnType(Guid, None, "UNIQUEIDENTIFIER", None);
      done := done + 1;
      assert columnTypes == RegistrationsThrough(done) by { RegistrationAppended(done - 1); }
      RegisterColumnType(Int16, None, "SMALLINT", None);
      done := done + 1;
      assert columnTypes == RegistrationsThrough(done) by { RegistrationAppended(done - 1); }
      RegisterColumnType(Int32, None, "INT", None);
      done := done + 1;
      assert columnTypes == RegistrationsThrough(done) by { RegistrationAppended(done - 1); }
      RegisterColumnType(Int64, None, "BIGINT", None);
      done := done + 1;
      assert columnTypes == RegistrationsThrough(done) by { RegistrationAppended(done - 1); }
      RegisterColumnType(Single, None, "REAL", None);
      done := done + 1;
      assert columnTypes == RegistrationsThrough(done) by { RegistrationAppended(done - 1); }
      RegisterColumnType(StringFixedLength, None, "NCHAR(255)", None);
      done := done + 1;
      assert columnTypes == RegistrationsThrough(done) by { RegistrationAppended(done - 1); }
      RegisterColumnType(StringFixedLength, Some(4000), "NCHAR($l)", None);
      done := done + 1;
      assert columnTypes == RegistrationsThrough(done) by { RegistrationAppended(done - 1); }
      RegisterColumnType(String, None, "NVARCHAR(255)", None);
      done := done + 1;
      assert columnTypes == RegistrationsThrough(done) by { RegistrationAppended(done - 1); }
      RegisterColumnType(String, Some(4000), "NVARCHAR($l)", None);
      done := done + 1;
      assert columnTypes == RegistrationsThrough(done) by { RegistrationAppended(done - 1); }
      RegisterColumnType(String, Some(1073741823), "NTEXT", None);
      done := done + 1;
      assert columnTypes == RegistrationsThrough(done) by { RegistrationAppended(done - 1); }
      RegisterColumnType(Time, None, "DATETIME", None);
      done := done + 1;
      assert columnTypes == RegistrationsThrough(done) by { RegistrationAppended(done - 1); }

      RegisterProperty(Identity, "IDENTITY");
    }

    /** Records one type-name registration after those already made. */
    method RegisterColumnType(t: DbType, size: Option<int>, template: string, scale: Option<int>)
      modifies this`columnTypes
      ensures columnTypes == old(columnTypes) + [TypeEntry(t, size, template, scale)]
      ensures properties == old(properties)
    {
      columnTypes := columnTypes + [TypeEntry(t, size, template, scale)];
    }

    /** Records the SQL text of one column property. */
    method RegisterProperty(p: ColumnProperty, sql: string)
      modifies this`properties
      ensures properties == old(properties) + [(p, sql)]
      ensures columnTypes == old(columnTypes)
    {
      properties := properties + [(p, sql)];
    }
  }

  /** The position of each type's group in the registration table. */
  function GroupOrder(t: DbType): nat
  {
    match t
    case AnsiStringFixedLength => 0
    case AnsiString => 1
    case Binary => 2
    case Boolean => 3
    case Byte => 4
    case Currency => 5
    case Date => 6
    case DateTime => 7
    case Decimal => 8
    case Double => 9
    case Guid => 10
    case Int16 => 11
    case Int32 => 12
    case Int64 => 13
    case Single => 14
    case StringFixedLength => 15
    case String => 16
    case Time => 17
    case _ => 18
  }

  /** One more registration extends the prefix made so far by `Registration(k)`. */
  lemma RegistrationAppended(k: nat)
    requires k < RegistrationCount
    ensures RegistrationsThrough(k + 1) == RegistrationsThrough(k) + [Registration(k)]
  {
  }

  /** The `k`-th registration of the table is `Registration(k)`. */
  lemma {:induction false} RegistrationAt(n: nat, k: nat)
    requires k < n <= RegistrationCount
    ensures RegistrationsThrough(n)[k] == Registration(k)
  {
    if k < n - 1 {
      RegistrationAt(n - 1, k);
    }
  }

  /**
   * The SQL type name in force for each type, without a size (the type's own name) and at
   * each size threshold (the name used up to that size).
   */
  function TypeName(t: DbType, size: Option<int>): Option<string>
  {
    match size
    case None =>
      (match t
       case AnsiStringFixedLength => Some("CHAR(255)")
       case AnsiString => Some("VARCHAR(255)")
       case Binary => Some("VARBINARY(8000)")
       case Boolean => Some("BIT")
       case Byte => Some("TINYINT")
       case Currency => Some("MONEY")
       case Date => Some("DATETIME")
       case DateTime => Some("DATETIME")
       case Decimal => Some("DECIMAL")
       case Double => Some("DOUBLE PRECISION")
       case Guid => Some("UNIQUEIDENTIFIER")
       case Int16 => Some("SMALLINT")
       case Int32 => Some("INT")
       case Int64 => Some("BIGINT")
       case Single => Some("REAL")
       case StringFixedLength => Some("NCHAR(255)")
       case String => Some("NVARCHAR(255)")
       case Time => Some("DATETIME")
       case _ => None)
    case Some(n) =>
      (match t
       case AnsiStringFixedLength => if n == 8000 then Some("CHAR($l)") else None
       case AnsiString =>
         if n == 8000 then Some("VARCHAR($l)") else if n == IntMaxValue then Some("TEXT") else None
       case Binary =>
         if n == 8000 then Some("VARBINARY($l)") else if n == 2147483647 then Some("IMAGE") else None
       case Decimal => if n == 38 then Some("DECIMAL($l, $s)") else None
       case StringFixedLength => if n == 4000 then Some("NCHAR($l)") else None
       case String =>
         if n == 4000 then Some("NVARCHAR($l)") else if n == 1073741823 then Some("NTEXT") else None
       case _ => None)
  }

  /**
   * Each registration follows the one before it in a table grouped by `GroupOrder`, and
   * agrees with `TypeName`.
   */
  lemma RegistrationFacts(k: nat)
    requires k < RegistrationCount
    ensures k > 0 ==> Continues(GroupOrder, Registration(k - 1), Registration(k))
    ensures TypeName(Registration(k).dbType, Registration(k).size) == Some(Registration(k).template)
  {
    if k < 8 {
      AnsiAndBinaryRegistrations(k);
    } else if k < 15 {
      ScalarRegistrations(k);
    } else if k < 21 {
      NumericRegistrations(k);
    } else {
      UnicodeRegistrations(k);
    }
  }

  /** `RegistrationFacts` for the ANSI text and binary registrations. */
  lemma AnsiAndBinaryRegistrations(k: nat)
    requires 0 <= k < 8
    ensures k > 0 ==> Continues(GroupOrder, Registration(k - 1), Registration(k))
    ensures TypeName(Registration(k).dbType, Registration(k).size) == Some(Registration(k).template)
  {
    match k
    case 0 =>
    case 1 =>
    case 2 =>
    case 3 =>
    case 4 =>
    case 5 =>
    case 6 =>
    case 7 =>
  }

  /** `RegistrationFacts` for the boolean, byte, money, date and decimal registrations. */
  lemma ScalarRegistrations(k: nat)
    requires 8 <= k < 15
    ensures k > 0 ==> Continues(GroupOrder, Registration(k - 1), Registration(k))
    ensures TypeName(Registration(k).dbType, Registration(k).size) == Some(Registration(k).template)
  {
    match k
    case 8 =>
    case 9 =>
    case 10 =>
    case 11 =>
    case 12 =>
    case 13 =>
    case 14 =>
  }

  /** `RegistrationFacts` for the floating-point, guid and integer registrations. */
  lemma NumericRegistrations(k: nat)
    requires 15 <= k < 21
    ensures k > 0 ==> Continues(GroupOrder, Registration(k - 1), Registration(k))
    ensures TypeName(Registration(k).dbType, Registration(k).size) == Some(Registration(k).template)
  {
    match k
    case 15 =>
    case 16 =>
    case 17 =>
    case 18 =>
    case 19 =>
    case 20 =>
  }

  /** `RegistrationFacts` for the Unicode text and time registrations. */
  lemma UnicodeRegistrations(k: nat)
    requires 21 <= k < RegistrationCount
    ensures k > 0 ==> Continues(GroupOrder, Registration(k - 1), Registration(k))
    ensures TypeName(Registration(k).dbType, Registration(k).size) == Some(Registration(k).template)
  {
    match k
    case 21 =>
    case 22 =>
    case 23 =>
    case 24 =>
    case 25 =>
    case 26 =>
  }

  /** Every key `TypeName` names is registered by the constructor. */
  lemma TypeNameRegistered(t: DbType, size: Option<int>)
    requires TypeName(t, size).Some?
    ensures exists k :: 0 <= k < RegistrationCount && Keys(Registration(k), t, size)
  {
    var k: int :=
      match t
      case AnsiStringFixedLength => if size.None? then 0 else 1
      case AnsiString => if size.None? then 2 else if size.value == 8000 then 3 else 4
      case Binary => if size.None? then 5 else if size.value == 8000 then 6 else 7
      case Boolean => 8
      case Byte => 9
      case Currency => 10
      case Date => 11
      case DateTime => 12
      case Decimal => if size.None? then 13 else 14
      case Double => 15
      case Guid => 16
      case Int16 => 17
      case Int32 => 18
      case Int64 => 19
      case Single => 20
      case StringFixedLength => if size.None? then 21 else 22
      case String => if size.None? then 23 else if size.value == 4000 then 24 else 25
      case Time => 26
      case _ => -1;
    assert Keys(Registration(k), t, size);
  }

  /** The table is one group per type, each opened by its unsized entry and followed by increasing thresholds. */
  lemma RegistrationsGrouped()
    ensures GroupedBy(GroupOrder, Registrations())
  {
    var log := Registrations();
    RegistrationAt(RegistrationCount, 0);
    RegistrationFacts(0);
    forall k | 0 < k < |log|
      ensures Continues(GroupOrder, log[k - 1], log[k])
    {
      RegistrationAt(RegistrationCount, k - 1);
      RegistrationAt(RegistrationCount, k);
      RegistrationFacts(k);
    }
  }

  /** Every registered type has exactly one unsized entry, and each type's size thresholds strictly increase in registration order. */
  lemma RegistrationsWellFormed()
    ensures OneUnsizedPerType(Registrations())
    ensures ThresholdsIncrease(Registrations())
    ensures DistinctKeys(Registrations())
  {
    RegistrationsGrouped();
    GroupedIsWellFormed(GroupOrder, Registrations());
  }

  /** Every registration of the table, `e` made as the `k`-th, is the one in force for its type and size threshold. */
  lemma RegistrationInForce(k: nat, e: TypeEntry)
    requires k < RegistrationCount && Registration(k) == e
    ensures LastEntry(Registrations(), e.dbType, e.size) == Some(e)
  {
    var log := Registrations();
    RegistrationAt(RegistrationCount, k);
    RegistrationsWellFormed();
    LastEntryAt(log, k, log[k].dbType, log[k].size);
  }

  /**
   * The names in force after the constructor are exactly `TypeName`: every type and threshold
   * it lists maps to its name, and every other type or threshold has no entry.
   */
  lemma TypeNames(t: DbType, size: Option<int>)
    ensures TemplateFor(Registrations(), t, size) == TypeName(t, size)
  {
    var log := Registrations();
    RegistrationsWellFormed();
    forall k | 0 <= k < |log|
      ensures TypeName(log[k].dbType, log[k].size) == Some(log[k].template)
    {
      RegistrationAt(RegistrationCount, k);
      RegistrationFacts(k);
    }
    if TypeName(t, size).Some? {
      TypeNameRegistered(t, size);
      var k :| 0 <= k < RegistrationCount && Keys(Registration(k), t, size);
      RegistrationAt(RegistrationCount, k);
    }
    TableInForce(log, TypeName, t, size);
  }

  /** DECIMAL up to 38 digits is written with its precision and a scale of 2. */
  lemma DecimalScale()
    ensures LastEntry(Registrations(), Decimal, Some(38)) == Some(TypeEntry(Decimal, Some(38), "DECIMAL($l, $s)", Some(2)))
  {
    RegistrationInForce(14, TypeEntry(Decimal, Some(38), "DECIMAL($l, $s)", Some(2)));
  }

  // The overridden members of SqlServerDialect: SupportsIndex, NamesNeedsQuote and
  // NamesQuoteTemplate here, Default at the end of the module. They read no state of the
  // dialect, so they are written as functions beside the class.

  /** The dialect cannot create indexes through its own syntax. */
  function SupportsIndex(): (r: bool)
    ensures !r
  {
    false
  }

  /** Identifiers are always quoted. */
  function NamesNeedsQuote(): (r: bool)
    ensures r
  {
    true
  }

  /** The quoting template: the name between square brackets. */
  function NamesQuoteTemplate(): string
  {
    "[{0}]"
  }

  /** Substituting a name into the quoting template wraps it in square brackets. */
  lemma QuoteTemplateBrackets(name: string)
    ensures Substitute(NamesQuoteTemplate(), name) == "[" + name + "]"
  {
    var t := NamesQuoteTemplate();
    assert t[..3][0] != "{0}"[0];
    assert t[1..] == "{0}]";
    assert t[1..][..3] == "{0}";
    assert t[1..][3..] == "]";
    assert "]"[1..] == "";
  }

  // Stand-ins for the base Dialect, which is not part of this model: its quoting settings and
  // its QuoteName and QuoteIfNeeded, which substitute a name into the quoting template.

  /** A dialect's identifier-quoting settings: whether names need quoting and the template that quotes them. */
  datatype NameQuoting = NameQuoting(needsQuote: bool, template: string)

  /** The SQL Server quoting settings. */
  function Quoting(): NameQuoting
  {
    NameQuoting(NamesNeedsQuote(), NamesQuoteTemplate())
  }

  /** A one-argument composite format: every "{0}" in the template replaced by the argument. */
  function Substitute(template: string, arg: string): string
    decreases |template|
  {
    if |template| >= 3 && template[..3] == "{0}" then arg + Substitute(template[3..], arg)
    else if template == [] then ""
    else [template[0]] + Substitute(template[1..], arg)
  }

  /** A name quoted with the dialect's template; SQL Server's wraps it in square brackets. */
  function QuoteName(q: NameQuoting, name: string): (r: string)
    ensures q == Quoting() ==> r == "[" + name + "]"
  {
    QuoteTemplateBrackets(name);
    Substitute(q.template, name)
  }

  /** A name quoted when the dialect needs quoting, and left as it is otherwise. */
  function QuoteIfNeeded(q: NameQuoting, name: string): (r: string)
    ensures !q.needsQuote ==> r == name
    ensures q == Quoting() ==> r == "[" + name + "]"
  {
    if q.needsQuote then QuoteName(q, name) else name
  }

  // Properties of SQL Server's quoting and flags.

  /** SQL Server quotes every name by wrapping it in square brackets: "foo" becomes "[foo]". */
  lemma BracketQuoting(name: string)
    ensures QuoteName(Quoting(), name) == "[" + name + "]"
    ensures QuoteIfNeeded(Quoting(), name) == "[" + name + "]"
    ensures QuoteName(Quoting(), "foo") == "[foo]"
  {
  }

  /** The dialect's flags: no index support, every name quoted, and the identity property rendered as IDENTITY. */
  lemma DialectFlags()
    ensures !SupportsIndex() && NamesNeedsQuote() && NamesQuoteTemplate() == "[{0}]"
    ensures Quoting() == NameQuoting(true, "[{0}]")
  {
  }

  /** The failure of `Default` on a null value: asking null for its type raises a `NullReferenceException`. */
  datatype DialectError = NullReference

  /** A DEFAULT clause; booleans are written as the bits 1 and 0. A null default fails. */
  function Default(v: Value): (r: Result<string, DialectError>)
    ensures r.Failure? <==> v.NullValue?
    ensures r.Failure? ==> r.error == NullReference
    ensures r.Success? ==> |r.value| >= 8 && r.value[..8] == "DEFAULT "
  {
    if v.NullValue? then Failure(NullReference)
    else
      var shown := if v.BoolValue? then IntValue(if v.b then 1 else 0) else v;
      Success("DEFAULT " + ValueText(shown))
  }

  /** `Default(true)` is "DEFAULT 1" and `Default(false)` is "DEFAULT 0". */
  lemma DefaultOfBooleans()
    ensures Default(BoolValue(true)) == Success("DEFAULT 1")
    ensures Default(BoolValue(false)) == Success("DEFAULT 0")
  {
    assert ValueText(IntValue(1)) == "1";
    assert ValueText(IntValue(0)) == "0";
    assert "DEFAULT " + "1" == "DEFAULT 1";
    assert "DEFAULT " + "0" == "DEFAULT 0";
  }

  /** A boolean default renders as its bit and never as the boolean's own text. */
  lemma BooleanDefaultIsBit(b: bool)
    ensures Default(BoolValue(b)) == Default(IntValue(if b then 1 else 0))
    ensures Default(BoolValue(b)) != Success("DEFAULT " + ValueText(BoolValue(b)))
  {
    var bit := if b then "1" else "0";
    assert Default(BoolValue(b)) == Success("DEFAULT " + bit);
    assert ("DEFAULT " + bit)[8] != ("DEFAULT " + ValueText(BoolValue(b)))[8];
  }

  /** Any other value renders as "DEFAULT " followed by its string form, unchanged. */
  lemma DefaultOfOtherValues(v: Value)
    requires !v.NullValue? && !v.BoolValue?
    ensures Default(v) == Success("DEFAULT " + ValueText(v))
  {
  }
}
