/** Character and string helpers shared by the formatter, the dialect and the catalog queries. */
module Text {

  /** Upper-case mapping of one character, as the invariant culture maps ASCII letters. */
  function UpperChar(c: char): char
  {
    if 'a' <= c <= 'z' then (c as int - 32) as char else c
  }

  /** Lower-case mapping of one character, as SQL `lower()` maps ASCII letters. */
  function LowerChar(c: char): char
  {
    if 'A' <= c <= 'Z' then (c as int + 32) as char else c
  }

  /** `ToUpper(CultureInfo.InvariantCulture)` on ASCII letters: every character mapped in place. */
  function Upper(s: string): (r: string)
    ensures |r| == |s|
    ensures forall i :: 0 <= i < |s| ==> r[i] == UpperChar(s[i])
  {
    if s == [] then [] else [UpperChar(s[0])] + Upper(s[1..])
  }

  /** SQL `lower()` on ASCII letters: every character mapped in place. */
  function Lower(s: string): (r: string)
    ensures |r| == |s|
    ensures forall i :: 0 <= i < |s| ==> r[i] == LowerChar(s[i])
  {
    if s == [] then [] else [LowerChar(s[0])] + Lower(s[1..])
  }

  /** `word` consists of upper-case ASCII letters only, as the format codes "NAME" and "COLS" do. */
  predicate IsUpperWord(word: string)
  {
    forall i :: 0 <= i < |word| ==> 'A' <= word[i] <= 'Z'
  }

  /** `s` spells `word` letter by letter, each letter in either case. */
  predicate SpellsIgnoringCase(s: string, word: string)
  {
    |s| == |word| && forall i :: 0 <= i < |s| ==> s[i] == word[i] || s[i] == LowerChar(word[i])
  }

  /** Upper-casing a string yields an upper-case word exactly when the string spells that word in any mix of cases. */
  lemma UpperEqualsWord(s: string, word: string)
    requires IsUpperWord(word)
    ensures Upper(s) == word <==> SpellsIgnoringCase(s, word)
  {
    if Upper(s) == word {
      forall i | 0 <= i < |s|
        ensures s[i] == word[i] || s[i] == LowerChar(word[i])
      {
        assert UpperChar(s[i]) == word[i];
      }
    }
    if SpellsIgnoringCase(s, word) {
      forall i | 0 <= i < |s|
        ensures Upper(s)[i] == word[i]
      {
        assert s[i] == word[i] || s[i] == LowerChar(word[i]);
      }
    }
  }

  /** Equality of two names under a case-insensitive collation (SQL Server Compact's default). */
  predicate SameName(a: string, b: string)
  {
    Lower(a) == Lower(b)
  }

  /** Lower-casing twice is lower-casing once, so `lower(x) = y` and `x = y` agree under the collation. */
  lemma LowerIdempotent(s: string)
    ensures Lower(Lower(s)) == Lower(s)
  {
    forall i | 0 <= i < |s|
      ensures Lower(Lower(s))[i] == Lower(s)[i]
    {
      assert LowerChar(LowerChar(s[i])) == LowerChar(s[i]);
    }
  }

  /** `parts` joined with `separator` between neighbours. */
  function Join(parts: seq<string>, separator: string): (r: string)
  {
    if parts == [] then ""
    else if |parts| == 1 then parts[0]
    else parts[0] + separator + Join(parts[1..], separator)
  }

  /** Joining keeps the parts in order: a part appended at the end follows one separator. */
  lemma {:induction false} JoinAppend(parts: seq<string>, last: string, separator: string)
    requires parts != []
    ensures Join(parts + [last], separator) == Join(parts, separator) + separator + last
  {
    if |parts| == 1 {
      assert parts + [last] == [parts[0], last];
    } else {
      assert (parts + [last])[1..] == parts[1..] + [last];
      JoinAppend(parts[1..], last, separator);
    }
  }

  /** The decimal digit character for `d`. */
  function DigitChar(d: nat): char
    requires d < 10
  {
    ['0', '1', '2', '3', '4', '5', '6', '7', '8', '9'][d]
  }

  /** Decimal text of a natural number, most significant digit first, without leading zeros. */
  function NatText(n: nat): (r: string)
    ensures |r| >= 1
    ensures n >= 10 ==> r[0] != '0'
    decreases n
  {
    if n < 10 then [DigitChar(n)] else NatText(n / 10) + [DigitChar(n % 10)]
  }

  /** Decimal text of an integer, with a leading minus sign when negative (`Int32.ToString()`). */
  function IntText(i: int): string
  {
    if i < 0 then "-" + NatText(-i) else NatText(i)
  }
}
