/**
 * Quoting of attribute values: `quote` encloses a string value that holds
 * whitespace in the first delimiter it does not contain, and `unquote`
 * removes one enclosing pair of single or triple quotes.
 */
module Quoting {
  import opened Base
  import opened Strs

  /** The value holds a blank or splits into more than one word. */
  predicate NeedsQuotes(s: string) {
    Contains(s, " ") || |Words(s)| > 1
  }

  /** The value already starts and ends with the same quote character. */
  predicate Enclosed(s: string) {
    |s| > 0 && s[0] == s[|s| - 1] && IsQuoteChar(s[0])
  }

  /** quote(s) on a string. */
  function QuoteStr(s: string): string {
    if NeedsQuotes(s) && |s| > 0 && !Enclosed(s) then
      if !Contains(s, "\"") then "\"" + s + "\""
      else if !Contains(s, "'") then "'" + s + "'"
      else if !Contains(s, "\"\"\"") then "\"\"\"" + s + "\"\"\""
      else if !Contains(s, "'''") then "'''" + s + "'''"
      else s
    else s
  }

  /** quote(v): only strings are touched. */
  function Quote(v: Value): Value {
    match v
    case VStr(s) => VStr(QuoteStr(s))
    case _ => v
  }

  /** unquote(s) on a string. */
  function UnquoteStr(s: string): string {
    if |s| > 1 && IsQuoteChar(s[0]) && s[|s| - 1] == s[0] then
      var q := s[0];
      if |s| >= 6 && s[1] == q && s[2] == q && s[|s| - 3] == q && s[|s| - 2] == q then
        s[3..|s| - 3]
      else s[1..|s| - 1]
    else s
  }

  /** unquote(v): only strings are touched. */
  function Unquote(v: Value): Value {
    match v
    case VStr(s) => VStr(UnquoteStr(s))
    case _ => v
  }

  // ---------------------------------------------------------------------
  // Lemmas

  lemma {:induction false} ContainsChar(s: string, c: char)
    ensures Contains(s, [c]) <==> c in s
    decreases |s|
  {
    if |s| > 0 {
      ContainsChar(s[1..], c);
      assert s == [s[0]] + s[1..];
    }
  }

  /** What quote leaves alone: values that are not strings, strings without
      blanks that are one word at most, and strings already enclosed in a
      pair of equal quote characters. */
  lemma {:induction false} QuoteUnchanged(v: Value)
    requires !v.VStr? || !NeedsQuotes(v.s) || Enclosed(v.s)
    ensures Quote(v) == v
  {
  }

  /** A value without whitespace is never quoted. */
  lemma {:induction false} WordNoQuotes(s: string)
    requires s != [] && NoSpace(s)
    ensures !NeedsQuotes(s)
  {
    ContainsChar(s, ' ');
    assert ' ' !in s;
    assert SpaceRun(s) == 0;
    assert LStrip(s) == s;
    WordRunAppend(s, []);
    assert s + [] == s;
    assert s[|s|..] == [];
    assert Words(s) == [s[..|s|]] + Words([]);
  }

  /** A single pair of quote characters that the value does not hold
      comes off again. */
  lemma {:induction false} UnquoteSingle(q: char, s: string)
    requires IsQuoteChar(q) && !Contains(s, [q])
    ensures UnquoteStr([q] + s + [q]) == s
  {
    var t := [q] + s + [q];
    ContainsChar(s, q);
    if |t| >= 6 {
      assert t[1] == s[0] && s[0] in s;
    }
    assert t[1..|t| - 1] == s;
  }

  /** A triple pair comes off whole. */
  lemma {:induction false} UnquoteTriple(q: char, s: string)
    requires IsQuoteChar(q)
    ensures UnquoteStr([q, q, q] + s + [q, q, q]) == s
  {
    var t := [q, q, q] + s + [q, q, q];
    assert t[3..|t| - 3] == s;
  }

  /** Whatever quote changes, unquote restores. */
  lemma {:induction false} QuoteRoundTrip(v: Value)
    requires Quote(v) != v
    ensures Unquote(Quote(v)) == v
  {
    var s := v.s;
    if !Contains(s, "\"") {
      UnquoteSingle('"', s);
    } else if !Contains(s, "'") {
      UnquoteSingle('\'', s);
    } else if !Contains(s, "\"\"\"") {
      UnquoteTriple('"', s);
    } else {
      UnquoteTriple('\'', s);
    }
  }

  /** quote is idempotent: a value it has quoted is enclosed, so quoting
      it again changes nothing. */
  lemma {:induction false} QuoteIdempotent(v: Value)
    ensures Quote(Quote(v)) == Quote(v)
  {
    if Quote(v) != v {
      var t := QuoteStr(v.s);
      assert Enclosed(t);
    }
  }

  /** What unquote leaves alone: values that are not strings and strings
      that are not enclosed in a pair of equal quote characters. */
  lemma {:induction false} UnquoteUnchanged(v: Value)
    requires !v.VStr? || |v.s| < 2 || !Enclosed(v.s)
    ensures Unquote(v) == v
  {
  }
}
