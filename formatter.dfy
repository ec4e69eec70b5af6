/**
 * The SQL formatter: a custom formatter for composite format strings that resolves the
 * format code `NAME` to one quoted identifier, `COLS` to a comma-joined list of quoted
 * identifiers, and renders every other item the way the framework would.
 */
module Formatter {
  import opened Wrappers
  import opened Text

  /** The separator placed between list elements when a collection is joined. */
  const CommaSeparator: string := ", "

  /**
   * A format argument, classified the way `Format` inspects it.
   * `Obj` is a non-null object that is neither `IFormattable` nor an `IEnumerable<object>`
   * (a string is one), with its `ToString()` text. `Formattable` carries the object's
   * `ToString(format, CurrentCulture)`, which yields None where it raises `FormatException`.
   * `Items` is an `IEnumerable<object>` with its elements and its `ToString()` text.
   */
  datatype Arg =
    | NullArg
    | Obj(text: string)
    | Formattable(toString: Option<string> -> Option<string>)
    | Items(elements: seq<Arg>, text: string)

  /** A `FormatException` and its message. */
  datatype FormatError = InvalidFormat(message: string)

  /** The type asked of `GetFormat`. */
  datatype ServiceType = CustomFormatterService | OtherService(name: string)

  /** The failure raised when a formatter is built without a converter. */
  datatype ConstructionError = MissingConverter

  /** The format string with a null format read as the empty string. */
  function FormatText(format: Option<string>): string
  {
    if format.Some? then format.value else ""
  }

  /** The format code compared against "NAME" and "COLS": the format text upper-cased. */
  function FormatCode(format: Option<string>): string
  {
    Upper(FormatText(format))
  }

  /** The format spells `word` with letters in any case (null reads as ""). */
  predicate IsCode(format: Option<string>, word: string)
  {
    SpellsIgnoringCase(FormatText(format), word)
  }

  /** The message of the `FormatException` raised for an invalid format. */
  function InvalidFormatMessage(format: Option<string>): string
  {
    "The format of '" + FormatText(format) + "' is invalid."
  }

  /**
   * Rendering without the converter: a formattable argument with the format as given
   * (original case, null kept), any other non-null argument by its `ToString()`, null as "".
   * None stands for a `FormatException`.
   */
  function HandleOtherFormats(format: Option<string>, arg: Arg): (r: Option<string>)
    ensures r.None? ==> arg.Formattable?
    ensures arg.NullArg? ==> r == Some("")
  {
    match arg
    case Formattable(toString) => toString(format)
    case Obj(text) => Some(text)
    case Items(_, text) => Some(text)
    case NullArg => Some("")
  }

  /** Default rendering with a `FormatException` rewrapped into one that names the format. */
  function DefaultRendering(format: Option<string>, arg: Arg): (r: Result<string, FormatError>)
    ensures r.Failure? <==> arg.Formattable? && arg.toString(format).None?
    ensures r.Failure? ==> r.error.message == "The format of '" + FormatText(format) + "' is invalid."
  {
    match HandleOtherFormats(format, arg)
    case Some(s) => Success(s)
    case None => Failure(InvalidFormat(InvalidFormatMessage(format)))
  }

  /** A formatter built around the identifier-quoting converter. */
  datatype SqlFormatter = SqlFormatter(converter: Arg -> string)
  {
    /** The formatter offers itself as the custom formatter and nothing else. */
    function GetFormat(formatType: ServiceType): (r: Option<SqlFormatter>)
      ensures r.Some? <==> formatType == CustomFormatterService
      ensures r.Some? ==> r.value == this
    {
      if formatType == CustomFormatterService then Some(this) else None
    }

    /** The converter applied to every element, in input order. */
    function ConvertAll(elements: seq<Arg>): (r: seq<string>)
      ensures |r| == |elements|
      ensures forall i :: 0 <= i < |elements| ==> r[i] == converter(elements[i])
    {
      if elements == [] then [] else [converter(elements[0])] + ConvertAll(elements[1..])
    }

    /**
     * Renders one format item: NAME in any case through the converter, COLS in any case on a
     * collection as its converted elements joined by commas, anything else by default rendering.
     */
    function Format(format: Option<string>, arg: Arg): (r: Result<string, FormatError>)
      ensures IsCode(format, "NAME") ==> r == Success(converter(arg))
      ensures arg.Items? && IsCode(format, "COLS") ==> r == Success(Join(ConvertAll(arg.elements), CommaSeparator))
      ensures !IsCode(format, "NAME") && !(arg.Items? && IsCode(format, "COLS")) ==> r == DefaultRendering(format, arg)
    {
      UpperEqualsWord(FormatText(format), "NAME");
      UpperEqualsWord(FormatText(format), "COLS");
      var code := FormatCode(format);
      if arg.Items? && code == "COLS" then
        Success(Join(ConvertAll(arg.elements), CommaSeparator))
      else if code == "NAME" then
        Success(converter(arg))
      else
        DefaultRendering(format, arg)
    }
  }

  /** Construction demands a converter; a null one is refused. */
  function NewSqlFormatter(converter: Option<Arg -> string>): (r: Result<SqlFormatter, ConstructionError>)
    ensures r.Success? <==> converter.Some?
    ensures r.Success? ==> r.value.converter == converter.value
    ensures r.Failure? ==> r.error == MissingConverter
  {
    if converter.Some? then Success(SqlFormatter(converter.value)) else Failure(MissingConverter)
  }

  /** The code "NAME" in any case sends the argument through the converter, whatever it is. */
  lemma NameFormatConverts(f: SqlFormatter, format: Option<string>, arg: Arg)
    requires IsCode(format, "NAME")
    ensures f.Format(format, arg) == Success(f.converter(arg))
  {
    UpperEqualsWord(FormatText(format), "NAME");
  }

  /** "name", "Name" and "NAME" all quote the argument. */
  lemma NameFormatSpellings(f: SqlFormatter, arg: Arg)
    ensures f.Format(Some("name"), arg) == Success(f.converter(arg))
    ensures f.Format(Some("Name"), arg) == Success(f.converter(arg))
    ensures f.Format(Some("NAME"), arg) == Success(f.converter(arg))
  {
    NameFormatConverts(f, Some("name"), arg);
    NameFormatConverts(f, Some("Name"), arg);
    NameFormatConverts(f, Some("NAME"), arg);
  }

  /**
   * The code "COLS" in any case, applied to a collection, quotes every element in input
   * order and joins the results with the comma separator.
   */
  lemma ColsFormatJoins(f: SqlFormatter, format: Option<string>, arg: Arg)
    requires arg.Items? && IsCode(format, "COLS")
    ensures f.Format(format, arg).Success?
    ensures exists parts: seq<string> ::
              && |parts| == |arg.elements|
              && (forall i :: 0 <= i < |parts| ==> parts[i] == f.converter(arg.elements[i]))
              && f.Format(format, arg).value == Join(parts, CommaSeparator)
  {
    UpperEqualsWord(FormatText(format), "COLS");
    var parts := f.ConvertAll(arg.elements);
    assert f.Format(format, arg).value == Join(parts, CommaSeparator);
  }

  /** Two columns come out quoted, in order, with the separator between them. */
  lemma ColsFormatTwoColumns(f: SqlFormatter, a: Arg, b: Arg, text: string)
    ensures f.Format(Some("cols"), Items([a, b], text)) == Success(f.converter(a) + ", " + f.converter(b))
  {
    var format := Some("cols");
    UpperEqualsWord(FormatText(format), "COLS");
    var parts := f.ConvertAll([a, b]);
    assert parts == [f.converter(a)] + [f.converter(b)];
    JoinAppend([f.converter(a)], f.converter(b), CommaSeparator);
  }

  /** "COLS" on an argument that is not a collection is not a list: it renders by default, without the converter. */
  lemma ColsOnNonCollectionRendersByDefault(f: SqlFormatter, format: Option<string>, arg: Arg)
    requires !arg.Items? && IsCode(format, "COLS")
    ensures f.Format(format, arg) == DefaultRendering(format, arg)
  {
    UpperEqualsWord(FormatText(format), "COLS");
    UpperEqualsWord(FormatText(format), "NAME");
  }

  /** Every format other than NAME, and other than COLS on a collection, renders by default, without the converter. */
  lemma OtherFormatsRenderByDefault(f: SqlFormatter, format: Option<string>, arg: Arg)
    requires !IsCode(format, "NAME")
    requires !(arg.Items? && IsCode(format, "COLS"))
    ensures f.Format(format, arg) == DefaultRendering(format, arg)
  {
    UpperEqualsWord(FormatText(format), "COLS");
    UpperEqualsWord(FormatText(format), "NAME");
  }

  /**
   * Default rendering: a formattable argument sees the format exactly as given (original
   * case), any other object renders as its text, and null renders as the empty string.
   */
  lemma DefaultRenderingCases(format: Option<string>, arg: Arg)
    ensures arg.NullArg? ==> DefaultRendering(format, arg) == Success("")
    ensures arg.Obj? ==> DefaultRendering(format, arg) == Success(arg.text)
    ensures arg.Items? ==> DefaultRendering(format, arg) == Success(arg.text)
    ensures arg.Formattable? && arg.toString(format).Some? ==>
              DefaultRendering(format, arg) == Success(arg.toString(format).value)
  {
  }

  /**
   * Format fails only where a formattable argument rejects the format, and the failure is
   * a format error whose message names the offending format.
   */
  lemma FormatErrorNamesFormat(f: SqlFormatter, format: Option<string>, arg: Arg)
    ensures f.Format(format, arg).Failure? <==>
              && arg.Formattable? && arg.toString(format).None?
              && !IsCode(format, "NAME")
    ensures f.Format(format, arg).Failure? ==>
              f.Format(format, arg).error.message == "The format of '" + FormatText(format) + "' is invalid."
  {
    UpperEqualsWord(FormatText(format), "COLS");
    UpperEqualsWord(FormatText(format), "NAME");
  }

  /** A null format matches like the empty string: for an argument that does not read the format, the two render alike. */
  lemma NullFormatMatchesEmpty(f: SqlFormatter, arg: Arg)
    requires !arg.Formattable?
    ensures f.Format(None, arg) == f.Format(Some(""), arg)
  {
    assert FormatCode(None) == FormatCode(Some("")) == "";
  }

  /** A null format is neither NAME nor COLS: every argument, formattable or not, renders by default. */
  lemma NullFormatRendersByDefault(f: SqlFormatter, arg: Arg)
    ensures f.Format(None, arg) == DefaultRendering(None, arg)
  {
    assert FormatCode(None) == "";
  }

  /** A composite format string, already split into literal text and format items. */
  datatype TemplatePart = Literal(text: string) | Hole(index: nat, format: Option<string>)

  /** The message of the `FormatException` for a format item whose index has no argument. */
  const IndexOutOfRangeMessage: string :=
    "Index (zero based) must be greater than or equal to zero and less than the size of the argument list."

  /**
   * Composite formatting through this formatter (what `string.Format` does with it):
   * literal text is copied, each format item is rendered by `Format`, left to right,
   * and the first failure ends the rendering.
   */
  function RenderTemplate(f: SqlFormatter, parts: seq<TemplatePart>, args: seq<Arg>): (r: Result<string, FormatError>)
    decreases |parts|
  {
    if parts == [] then Success("")
    else
      var head :=
        match parts[0]
        case Literal(text) => Success(text)
        case Hole(index, format) =>
          if index < |args| then f.Format(format, args[index]) else Failure(InvalidFormat(IndexOutOfRangeMessage));
      if head.Failure? then Failure(head.error)
      else
        var rest := RenderTemplate(f, parts[1..], args);
        if rest.Failure? then rest else Success(head.value + rest.value)
  }

  /** A template whose items are all "NAME" items over existing arguments renders each argument through the converter. */
  lemma {:induction false} RenderNameItems(f: SqlFormatter, parts: seq<TemplatePart>, args: seq<Arg>)
    requires forall k :: 0 <= k < |parts| && parts[k].Hole? ==> parts[k].index < |args| && parts[k].format == Some("NAME")
    ensures RenderTemplate(f, parts, args) == Success(Spliced(f, parts, args))
    decreases |parts|
  {
    if parts != [] {
      if parts[0].Hole? {
        NameFormatConverts(f, parts[0].format, args[parts[0].index]);
      }
      RenderNameItems(f, parts[1..], args);
    }
  }

  /** The text of a template with each item replaced by its converted argument. */
  function Spliced(f: SqlFormatter, parts: seq<TemplatePart>, args: seq<Arg>): string
    requires forall k :: 0 <= k < |parts| && parts[k].Hole? ==> parts[k].index < |args|
    decreases |parts|
  {
    if parts == [] then ""
    else
      (match parts[0]
       case Literal(text) => text
       case Hole(index, _) => f.converter(args[index]))
      + Spliced(f, parts[1..], args)
  }
}
