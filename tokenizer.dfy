/**
 * split_attrs: the tokenizer of an attribute string.  Blanks around `=` are
 * removed, the string is split into alternating words and whitespace runs,
 * and a loop walks the pieces from the LAST to the first.  A piece ending in
 * a quote character while no quote is open opens one; pieces are then
 * collected until one holding that quote character closes the group, which
 * becomes one field.  Outside quotes, whitespace pieces are dropped and every
 * other piece (the empty one included) is a field.
 *
 * A piece that both opens and closes its quote (`bold="1"`) is taken as an
 * opener only: it is merged with earlier pieces, or the call fails.
 */
module Tokenizer {
  import opened Base
  import opened Strs

  /** re.sub(r"\s*=\s*", "=", s): every whitespace run right before or
      right after an `=` is removed. */
  function NormalizeEquals(s: string): string
    decreases |s|
  {
    if s == [] then []
    else if s[0] == '=' then "=" + NormalizeEquals(LStrip(s[1..]))
    else if IsSpace(s[0]) && SpaceRun(s) < |s| && s[SpaceRun(s)] == '=' then
      NormalizeEquals(s[SpaceRun(s)..])
    else [s[0]] + NormalizeEquals(s[1..])
  }

  /** re.split(r"(\s+)", s): words (the first and last may be empty) at the
      even positions, the whitespace runs between them at the odd ones. */
  function SplitOnSpace(s: string): (ps: seq<string>)
    decreases |s|
  {
    var n := WordRun(s);
    if n == |s| then [s]
    else
      var m := SpaceRun(s[n..]);
      [s[..n], s[n..n + m]] + SplitOnSpace(s[n + m..])
  }

  /** The loop state: `outfields` (in reverse order), `quoted_b` and
      `partial`. */
  datatype Scan = Scan(out: seq<string>, quote: Option<char>, partial: seq<string>)

  const Start := Scan([], None, [])

  /** One turn of the loop on piece f. */
  function ScanStep(st: Scan, f: string): Scan {
    if st.quote.None? && |f| > 0 && IsQuoteChar(f[|f| - 1]) then
      Scan(st.out, Some(f[|f| - 1]), st.partial + [f])
    else if st.quote.None? then
      if IsSpaceStr(f) then st else Scan(st.out + [f], None, st.partial)
    else if st.quote.value in f then
      Scan(st.out + [Concat(Reverse(st.partial + [f]))], None, [])
    else Scan(st.out, st.quote, st.partial + [f])
  }

  /** The loop over ps, from its last piece to its first. */
  function ScanPieces(st: Scan, ps: seq<string>): Scan {
    if ps == [] then st else ScanStep(ScanPieces(st, ps[1..]), ps[0])
  }

  /** What split_attrs(s) returns or raises. */
  function AttrFields(s: string): Result<seq<string>> {
    var st := ScanPieces(Start, SplitOnSpace(NormalizeEquals(s)));
    if st.quote.Some? then Err(ImbalancedQuotes) else Ok(Reverse(st.out))
  }

  /** split_attrs(s) */
  method SplitAttrs(s: string) returns (r: Result<seq<string>>)
    ensures r == AttrFields(s)
  {
    var ps := SplitOnSpace(NormalizeEquals(s));
    var outfields: seq<string> := [];
    var quoted: Option<char> := None;
    var partial: seq<string> := [];
    var i := |ps|;
    while i > 0
      invariant 0 <= i <= |ps|
      invariant Scan(outfields, quoted, partial) == ScanPieces(Start, ps[i..])
    {
      i := i - 1;
      var f := ps[i];
      assert ps[i..][1..] == ps[i + 1..];
      if quoted.None? && |f| > 0 && IsQuoteChar(f[|f| - 1]) {
        quoted := Some(f[|f| - 1]);
        partial := partial + [f];
      } else if quoted.None? {
        if !IsSpaceStr(f) {
          outfields := outfields + [f];
        }
      } else {
        partial := partial + [f];
        if quoted.value in f {
          outfields := outfields + [Concat(Reverse(partial))];
          partial := [];
          quoted := None;
        }
      }
    }
    assert ps[0..] == ps;
    if quoted.Some? {
      r := Err(ImbalancedQuotes);
    } else {
      r := Ok(Reverse(outfields));
    }
  }

  // ---------------------------------------------------------------------
  // NormalizeEquals

  /** A word that does not end in `=` passes through unchanged. */
  lemma {:induction false} NormWordPrefix(a: string, b: string)
    requires NoSpace(a)
    requires a == [] || a[|a| - 1] != '='
    ensures NormalizeEquals(a + b) == a + NormalizeEquals(b)
    decreases |a|
  {
    if a == [] {
      assert a + b == b;
    } else {
      var s := a + b;
      assert s[0] == a[0] && s[1..] == a[1..] + b;
      NormWordPrefix(a[1..], b);
      if a[0] == '=' {
        assert |a| > 1 && !IsSpace(s[1..][0]);
        assert LStrip(s[1..]) == s[1..];
        assert NormalizeEquals(s) == "=" + NormalizeEquals(s[1..]);
      } else {
        assert NormalizeEquals(s) == [a[0]] + NormalizeEquals(s[1..]);
      }
      assert a == [a[0]] + a[1..];
    }
  }

  /** Whitespace that is not followed by `=` passes through unchanged. */
  lemma {:induction false} NormSpacePrefix(a: string, b: string)
    requires forall i :: 0 <= i < |a| ==> IsSpace(a[i])
    requires |b| > 0 && !IsSpace(b[0]) && b[0] != '='
    ensures NormalizeEquals(a + b) == a + NormalizeEquals(b)
    decreases |a|
  {
    if a == [] {
      assert a + b == b;
    } else {
      var s := a + b;
      SpaceRunAppend(a, b);
      assert s[SpaceRun(s)] == b[0] != '=';
      assert s[1..] == a[1..] + b;
      assert forall i :: 0 <= i < |a[1..]| ==> IsSpace(a[1..][i]) by {
        forall i | 0 <= i < |a[1..]| ensures IsSpace(a[1..][i]) {
          assert a[1..][i] == a[i + 1];
        }
      }
      NormSpacePrefix(a[1..], b);
      assert s[0] != '=';
      assert NormalizeEquals(s) == [s[0]] + NormalizeEquals(s[1..]);
      assert a == [a[0]] + a[1..];
    }
  }

  /** Whitespace right before `=` is dropped. */
  lemma {:induction false} NormSpaceBeforeEquals(w: string, t: string)
    requires forall i :: 0 <= i < |w| ==> IsSpace(w[i])
    requires |t| > 0 && t[0] == '='
    ensures NormalizeEquals(w + t) == NormalizeEquals(t)
  {
    if w == [] {
      assert w + t == t;
    } else {
      var s := w + t;
      SpaceRunAppend(w, t);
      assert s[0] == w[0] && s[|w|] == '=' && s[|w|..] == t;
    }
  }

  /** Whitespace right after `=` is dropped. */
  lemma {:induction false} NormSpaceAfterEquals(w: string, b: string)
    requires forall i :: 0 <= i < |w| ==> IsSpace(w[i])
    requires b == [] || !IsSpace(b[0])
    ensures NormalizeEquals("=" + w + b) == "=" + NormalizeEquals(b)
  {
    var s := "=" + (w + b);
    assert s == "=" + w + b;
    assert s[0] == '=' && s[1..] == w + b;
    SpaceRunAppend(w, b);
    assert LStrip(w + b) == b;
  }

  /** `key = value` becomes `key=value`, whatever blanks surround the `=`. */
  lemma {:induction false} NormAroundEquals(a: string, w1: string, w2: string, b: string)
    requires NoSpace(a) && (a == [] || a[|a| - 1] != '=')
    requires forall i :: 0 <= i < |w1| ==> IsSpace(w1[i])
    requires forall i :: 0 <= i < |w2| ==> IsSpace(w2[i])
    requires b == [] || !IsSpace(b[0])
    ensures NormalizeEquals(a + w1 + "=" + w2 + b) == a + "=" + NormalizeEquals(b)
  {
    var t := "=" + w2 + b;
    assert a + w1 + "=" + w2 + b == a + (w1 + t);
    NormWordPrefix(a, w1 + t);
    assert NormalizeEquals(a + (w1 + t)) == a + NormalizeEquals(w1 + t);
    NormSpaceBeforeEquals(w1, t);
    assert NormalizeEquals(w1 + t) == NormalizeEquals(t);
    NormSpaceAfterEquals(w2, b);
    assert NormalizeEquals(t) == "=" + NormalizeEquals(b);
  }

  /** Normalising keeps every non-whitespace character, in order. */
  lemma {:induction false} NormKeepsText(s: string)
    ensures RemoveSpace(NormalizeEquals(s)) == RemoveSpace(s)
    decreases |s|
  {
    if s == [] {
    } else if s[0] == '=' {
      var t := s[1..];
      NormKeepsText(LStrip(t));
      SpaceRunIsSpace(t);
      RemoveSpaceSpacePrefix(t, SpaceRun(t));
      RemoveSpaceAppend("=", NormalizeEquals(LStrip(t)));
    } else if IsSpace(s[0]) && SpaceRun(s) < |s| && s[SpaceRun(s)] == '=' {
      NormKeepsText(s[SpaceRun(s)..]);
      SpaceRunIsSpace(s);
      RemoveSpaceSpacePrefix(s, SpaceRun(s));
    } else {
      NormKeepsText(s[1..]);
      RemoveSpaceAppend([s[0]], NormalizeEquals(s[1..]));
    }
  }

  /** Normalising adds no quote character. */
  lemma {:induction false} NormNoQuote(s: string)
    requires NoQuote(s)
    ensures NoQuote(NormalizeEquals(s))
    decreases |s|
  {
    if s == [] {
    } else if s[0] == '=' {
      NormNoQuote(LStrip(s[1..]));
    } else if IsSpace(s[0]) && SpaceRun(s) < |s| && s[SpaceRun(s)] == '=' {
      NormNoQuote(s[SpaceRun(s)..]);
    } else {
      NormNoQuote(s[1..]);
    }
  }

  // ---------------------------------------------------------------------
  // SplitOnSpace

  lemma {:induction false} ConcatSplitOnSpace(s: string)
    ensures Concat(SplitOnSpace(s)) == s
    decreases |s|
  {
    var n := WordRun(s);
    if n == |s| {
      ConcatOne(s);
    } else {
      var m := SpaceRun(s[n..]);
      var rest := SplitOnSpace(s[n + m..]);
      assert SplitOnSpace(s) == [s[..n], s[n..n + m]] + rest;
      ConcatSplitOnSpace(s[n + m..]);
      ConcatTwo(s[..n], s[n..n + m], rest);
      ThreeParts(s, n, n + m);
    }
  }

  lemma {:induction false} ThreeParts(s: string, i: nat, j: nat)
    requires i <= j <= |s|
    ensures s == s[..i] + (s[i..j] + s[j..])
  {
  }

  /** Every piece is a word or a whitespace run, and a piece holds no quote
      character that the string does not. */
  lemma {:induction false} SplitOnSpacePieces(s: string)
    ensures forall p :: p in SplitOnSpace(s) ==> NoSpace(p) || IsSpaceStr(p)
    ensures NoQuote(s) ==> forall p :: p in SplitOnSpace(s) ==> NoQuote(p)
    decreases |s|
  {
    var n := WordRun(s);
    WordRunNoSpace(s);
    if n == |s| {
      assert s[..n] == s;
    } else {
      var m := SpaceRun(s[n..]);
      var rest := SplitOnSpace(s[n + m..]);
      SplitOnSpacePieces(s[n + m..]);
      SpaceRunIsSpace(s[n..]);
      assert IsSpaceStr(s[n..n + m]) by {
        assert forall i :: 0 <= i < m ==> s[n..n + m][i] == s[n..][i];
      }
      assert SplitOnSpace(s) == [s[..n], s[n..n + m]] + rest;
      if NoQuote(s) {
        assert NoQuote(s[..n]) && NoQuote(s[n..n + m]) && NoQuote(s[n + m..]);
      }
    }
  }

  /** The pieces of a string made of alternating plain words and whitespace
      runs. */
  predicate PlainWord(w: string) {
    |w| > 0 && NoSpace(w) && w[0] != '=' && w[|w| - 1] != '='
  }

  predicate Spaced(ps: seq<string>)
    decreases |ps|
  {
    && |ps| > 0
    && PlainWord(ps[0])
    && (|ps| == 1 || (|ps| > 2 && IsSpaceStr(ps[1]) && Spaced(ps[2..])))
  }

  lemma {:induction false} SpacedAppend(a: seq<string>, sp: string, b: seq<string>)
    requires Spaced(a) && IsSpaceStr(sp) && Spaced(b)
    ensures Spaced(a + [sp] + b)
    decreases |a|
  {
    if |a| == 1 {
      assert (a + [sp] + b)[2..] == b;
    } else {
      assert (a + [sp] + b)[2..] == a[2..] + [sp] + b;
      SpacedAppend(a[2..], sp, b);
    }
  }

  lemma {:induction false} SpacedLast(ps: seq<string>, y: string)
    requires Spaced(ps) && PlainWord(y)
    ensures Spaced(ps[..|ps| - 1] + [y])
    decreases |ps|
  {
    if |ps| > 1 {
      var t := ps[2..];
      SpacedLast(t, y);
      assert (ps[..|ps| - 1] + [y])[2..] == t[..|t| - 1] + [y];
    }
  }

  /** Splitting a spaced string gives back its pieces. */
  /** A word, a whitespace run, then the rest: the first two pieces. */
  lemma {:induction false} SplitOnSpaceStep(w: string, sp: string, r: string)
    requires NoSpace(w) && IsSpaceStr(sp)
    requires r == [] || !IsSpace(r[0])
    ensures SplitOnSpace(w + (sp + r)) == [w, sp] + SplitOnSpace(r)
  {
    var s := w + (sp + r);
    WordRunAppend(w, sp + r);
    SpaceRunAppend(sp, r);
    assert s[|w|..] == sp + r;
    assert s[..|w|] == w;
    assert s[|w|..|w| + |sp|] == sp;
    assert s[|w| + |sp|..] == r;
  }

  lemma {:induction false} SplitOnSpaceOfSpaced(ps: seq<string>)
    requires Spaced(ps)
    ensures SplitOnSpace(Concat(ps)) == ps
    decreases |ps|
  {
    if |ps| == 1 {
      ConcatOne(ps[0]);
      WordRunAppend(ps[0], []);
      assert ps[0] + [] == ps[0];
    } else {
      var w, sp, rest := ps[0], ps[1], ps[2..];
      assert ps == [w, sp] + rest;
      ConcatTwo(w, sp, rest);
      ConcatCons(rest[0], rest[1..]);
      assert rest == [rest[0]] + rest[1..];
      SplitOnSpaceStep(w, sp, Concat(rest));
      SplitOnSpaceOfSpaced(rest);
    }
  }

  /** Normalising a spaced string changes nothing. */
  lemma {:induction false} NormOfSpaced(ps: seq<string>)
    requires Spaced(ps)
    ensures NormalizeEquals(Concat(ps)) == Concat(ps)
    decreases |ps|
  {
    if |ps| == 1 {
      assert Concat(ps) == ps[0] + [];
      NormWordPrefix(ps[0], []);
    } else {
      var w, sp, rest := ps[0], ps[1], ps[2..];
      var r := Concat(rest);
      assert ps[1..][1..] == rest;
      assert Concat(ps) == w + (sp + r);
      assert r == rest[0] + Concat(rest[1..]);
      NormWordPrefix(w, sp + r);
      NormSpacePrefix(sp, r);
      NormOfSpaced(rest);
    }
  }

  // ---------------------------------------------------------------------
  // The scan

  lemma {:induction false} ScanAppend(st: Scan, a: seq<string>, b: seq<string>)
    ensures ScanPieces(st, a + b) == ScanPieces(ScanPieces(st, b), a)
  {
    if a == [] {
      assert a + b == b;
    } else {
      assert (a + b)[1..] == a[1..] + b;
      ScanAppend(st, a[1..], b);
    }
  }

  /** Inside an open quote, pieces without the quote character are
      collected. */
  lemma {:induction false} ScanInsideQuote(out: seq<string>, q: char, partial: seq<string>, mid: seq<string>)
    requires forall m :: m in mid ==> q !in m
    ensures ScanPieces(Scan(out, Some(q), partial), mid) == Scan(out, Some(q), partial + Reverse(mid))
  {
    if mid != [] {
      ScanInsideQuote(out, q, partial, mid[1..]);
    }
  }

  /** A group whose last piece opens quote q, whose first piece holds q and
      whose other pieces do not, becomes one field: the group joined. */
  lemma {:induction false} ScanQuotedGroup(out: seq<string>, first: string, mid: seq<string>, last: string)
    requires |last| > 0 && IsQuoteChar(last[|last| - 1])
    requires last[|last| - 1] in first
    requires forall m :: m in mid ==> last[|last| - 1] !in m
    ensures ScanPieces(Scan(out, None, []), [first] + mid + [last])
         == Scan(out + [first + Concat(mid) + last], None, [])
  {
    var q := last[|last| - 1];
    var closed := Scan(out, None, []);
    var quoting := Scan(out, Some(q), [last]);
    var partial := [last] + Reverse(mid);
    ScanAppend(closed, [first] + mid, [last]);
    OpenQuote(out, last);
    ScanAppend(quoting, [first], mid);
    ScanInsideQuote(out, q, [last], mid);
    CloseQuote(out, q, partial, first);
    GroupText(first, mid, last);
  }

  /** A piece ending in a quote character opens a group. */
  lemma {:induction false} OpenQuote(out: seq<string>, last: string)
    requires |last| > 0 && IsQuoteChar(last[|last| - 1])
    ensures ScanPieces(Scan(out, None, []), [last]) == Scan(out, Some(last[|last| - 1]), [last])
  {
    assert [last][1..] == [];
  }

  /** A piece holding the open quote character closes the group. */
  lemma {:induction false} CloseQuote(out: seq<string>, q: char, partial: seq<string>, first: string)
    requires q in first
    ensures ScanPieces(Scan(out, Some(q), partial), [first])
         == Scan(out + [Concat(Reverse(partial + [first]))], None, [])
  {
    assert [first][1..] == [];
  }

  /** The group collected from its last piece back to its first, read in
      input order. */
  lemma {:induction false} GroupText(first: string, mid: seq<string>, last: string)
    ensures Concat(Reverse([last] + Reverse(mid) + [first])) == first + Concat(mid) + last
  {
    var partial := [last] + Reverse(mid);
    assert Reverse([first]) == [first] && Reverse([last]) == [last];
    ReverseAppend(partial, [first]);
    ReverseAppend([last], Reverse(mid));
    ReverseReverse(mid);
    assert Reverse(partial + [first]) == [first] + (mid + [last]);
    ConcatCons(first, mid + [last]);
    ConcatAppend(mid, [last]);
    ConcatOne(last);
  }

  /** The text a loop state holds: its open group, then its fields, both
      in input order. */
  function Held(st: Scan): string {
    Concat(Reverse(st.partial)) + Concat(Reverse(st.out))
  }

  /** No group is pending while no quote is open. */
  predicate Tidy(st: Scan) {
    st.quote.None? ==> st.partial == []
  }

  lemma {:induction false} ConcatReverseSnoc(s: seq<string>, x: string)
    ensures Concat(Reverse(s + [x])) == x + Concat(Reverse(s))
  {
    ReverseAppend(s, [x]);
    assert Reverse([x]) == [x];
    ConcatCons(x, Reverse(s));
  }

  /** A piece put in front of the held text. */
  lemma {:induction false} HeldFront(st: Scan, st': Scan, f: string)
    requires Held(st') == f + Held(st)
    ensures RemoveSpace(Held(st')) == RemoveSpace(f) + RemoveSpace(Held(st))
  {
    RemoveSpaceAppend(f, Held(st));
  }

  lemma {:induction false} HeldOpen(st: Scan, f: string, c: char)
    requires st.partial == []
    ensures Held(Scan(st.out, Some(c), st.partial + [f])) == f + Held(st)
  {
    ConcatReverseSnoc(st.partial, f);
    assert st.partial + [f] == [f];
    assert Concat(Reverse(st.partial)) == [];
  }

  lemma {:induction false} HeldKeep(st: Scan, f: string)
    requires st.partial == []
    ensures Held(Scan(st.out + [f], None, st.partial)) == f + Held(st)
  {
    ConcatReverseSnoc(st.out, f);
    assert Concat(Reverse(st.partial)) == [];
  }

  lemma {:induction false} HeldCollect(st: Scan, f: string, c: Option<char>)
    ensures Held(Scan(st.out, c, st.partial + [f])) == f + Held(st)
  {
    ConcatReverseSnoc(st.partial, f);
  }

  lemma {:induction false} HeldClose(st: Scan, f: string)
    ensures Held(Scan(st.out + [Concat(Reverse(st.partial + [f]))], None, [])) == f + Held(st)
  {
    var g := Concat(Reverse(st.partial + [f]));
    ConcatReverseSnoc(st.partial, f);
    ConcatReverseSnoc(st.out, g);
    var none: seq<string> := [];
    assert Concat(Reverse(none)) == [];
  }

  /** One turn of the loop puts the piece's non-whitespace text in front of
      what the state held. */
  lemma {:induction false} StepKeepsText(st: Scan, f: string)
    requires Tidy(st)
    ensures Tidy(ScanStep(st, f))
    ensures RemoveSpace(Held(ScanStep(st, f))) == RemoveSpace(f) + RemoveSpace(Held(st))
  {
    if st.quote.None? && |f| > 0 && IsQuoteChar(f[|f| - 1]) {
      HeldOpen(st, f, f[|f| - 1]);
      HeldFront(st, ScanStep(st, f), f);
    } else if st.quote.None? {
      if IsSpaceStr(f) {
        RemoveSpaceOfSpace(f);
      } else {
        HeldKeep(st, f);
        HeldFront(st, ScanStep(st, f), f);
      }
    } else if st.quote.value in f {
      HeldClose(st, f);
      HeldFront(st, ScanStep(st, f), f);
    } else {
      HeldCollect(st, f, st.quote);
      HeldFront(st, ScanStep(st, f), f);
    }
  }

  /** Every loop state holds exactly the non-whitespace text of the pieces
      scanned so far, and no pending group while no quote is open. */
  lemma {:induction false} ScanKeepsText(ps: seq<string>)
    ensures Tidy(ScanPieces(Start, ps))
    ensures RemoveSpace(Held(ScanPieces(Start, ps))) == RemoveSpace(Concat(ps))
  {
    if ps != [] {
      ScanKeepsText(ps[1..]);
      StepKeepsText(ScanPieces(Start, ps[1..]), ps[0]);
      ConcatCons(ps[0], ps[1..]);
      assert ps == [ps[0]] + ps[1..];
      RemoveSpaceAppend(ps[0], Concat(ps[1..]));
    }
  }

  /** Without quote characters the scan never opens a quote, and every
      field is a piece that is not whitespace. */
  lemma {:induction false} ScanNoQuote(ps: seq<string>)
    requires forall p :: p in ps ==> NoQuote(p)
    ensures ScanPieces(Start, ps).quote.None?
    ensures ScanPieces(Start, ps).partial == []
    ensures forall f :: f in ScanPieces(Start, ps).out ==> f in ps && !IsSpaceStr(f)
  {
    if ps != [] {
      ScanNoQuote(ps[1..]);
      var st := ScanPieces(Start, ps[1..]);
      var f := ps[0];
      assert f in ps;
      assert !(|f| > 0 && IsQuoteChar(f[|f| - 1]));
      assert forall x :: x in ps[1..] ==> x in ps;
      assert forall x :: x in st.out + [f] ==> x in st.out || x == f;
    }
  }

  // ---------------------------------------------------------------------
  // Properties of split_attrs

  /** The fields hold exactly the non-whitespace characters of the input,
      in input order. */
  lemma {:induction false} FieldsKeepText(s: string)
    requires AttrFields(s).Ok?
    ensures RemoveSpace(Concat(AttrFields(s).value)) == RemoveSpace(s)
  {
    var ps := SplitOnSpace(NormalizeEquals(s));
    ScanKeepsText(ps);
    ConcatSplitOnSpace(NormalizeEquals(s));
    NormKeepsText(s);
    var st := ScanPieces(Start, ps);
    assert Concat(Reverse(st.partial)) == [];
    assert [] + Concat(Reverse(st.out)) == Concat(Reverse(st.out));
  }

  /** Without quote characters split_attrs never fails, and no field holds
      whitespace. */
  lemma {:induction false} FieldsWithoutQuotes(s: string)
    requires NoQuote(s)
    ensures AttrFields(s).Ok?
    ensures forall f :: f in AttrFields(s).value ==> NoSpace(f)
  {
    var ps := SplitOnSpace(NormalizeEquals(s));
    NormNoQuote(s);
    SplitOnSpacePieces(NormalizeEquals(s));
    ScanNoQuote(ps);
    var out := ScanPieces(Start, ps).out;
    assert AttrFields(s).value == Reverse(out);
    forall f | f in Reverse(out) ensures NoSpace(f) {
      ReverseHas(out, f);
      assert f in ps && !IsSpaceStr(f);
    }
  }

  /** split_attrs("") == [""]: the one piece is kept, though empty. */
  lemma {:induction false} FieldsOfEmpty()
    ensures AttrFields("") == Ok([""])
  {
    assert WordRun("") == 0;
    assert SplitOnSpace(NormalizeEquals("")) == [""];
    assert [""][1..] == [];
    assert ScanPieces(Start, [""]) == ScanStep(Start, "");
    assert Reverse([""]) == [""];
  }

  /** A single word ending in a quote character opens a quote that nothing
      closes: `split_attrs('bold="1"')` raises Imbalanced Quotes. */
  lemma {:induction false} SelfQuotedWordFails(w: string)
    requires |w| > 0 && NoSpace(w) && IsQuoteChar(w[|w| - 1])
    ensures AttrFields(w) == Err(ImbalancedQuotes)
  {
    NormWordPrefix(w, []);
    assert w + [] == w;
    WordRunAppend(w, []);
    assert SplitOnSpace(w) == [w];
    assert [w][1..] == [];
    assert ScanPieces(Start, [w]) == ScanStep(Start, w);
  }

  /** After a piece that both opens and closes its quote, an earlier piece
      holding the quote character closes the group: the two words and the
      whitespace between them come back as ONE field. */
  lemma {:induction false} SelfQuotedWordMerges(w1: string, sp: string, w2: string)
    requires PlainWord(w1) && IsSpaceStr(sp) && PlainWord(w2)
    requires IsQuoteChar(w2[|w2| - 1]) && w2[|w2| - 1] in w1
    ensures AttrFields(w1 + sp + w2) == Ok([w1 + sp + w2])
  {
    var ps := [w1, sp, w2];
    ThreePieces(w1, sp, w2);
    NormOfSpaced(ps);
    SplitOnSpaceOfSpaced(ps);
    ScanQuotedGroup([], w1, [sp], w2);
    ConcatOne(sp);
    assert [w1] + [sp] + [w2] == ps;
    assert Reverse([w1 + sp + w2]) == [w1 + sp + w2];
  }

  lemma {:induction false} ThreePieces(w1: string, sp: string, w2: string)
    requires PlainWord(w1) && IsSpaceStr(sp) && PlainWord(w2)
    ensures Spaced([w1, sp, w2])
    ensures Concat([w1, sp, w2]) == w1 + sp + w2
  {
    var ps := [w1, sp, w2];
    assert ps[2..] == [w2];
    ConcatTwo(w1, sp, [w2]);
    ConcatOne(w2);
  }

  // ---------------------------------------------------------------------
  // Joined tokens come back as they were

  /** A field as the encoder writes it: a plain word, or `key` followed by a
      value that holds whitespace, in quote characters q. */
  datatype AttrToken = Bare(word: string) | Quoted(key: string, q: char, value: seq<string>)

  function TokenText(t: AttrToken): string {
    match t
    case Bare(w) => w
    case Quoted(k, q, v) => k + [q] + Concat(v) + [q]
  }

  predicate ValidToken(t: AttrToken) {
    match t
    case Bare(w) => PlainWord(w) && NoQuote(w)
    case Quoted(k, q, v) =>
      && IsQuoteChar(q) && NoSpace(k) && NoQuote(k) && (k == [] || k[0] != '=')
      && |v| >= 3 && Spaced(v) && (forall p :: p in v ==> NoQuote(p))
  }

  function TokenTexts(toks: seq<AttrToken>): (r: seq<string>)
    ensures |r| == |toks|
  {
    if toks == [] then [] else [TokenText(toks[0])] + TokenTexts(toks[1..])
  }

  /** The tokens separated by single blanks. */
  function Join(toks: seq<AttrToken>): string
    requires |toks| > 0
  {
    if |toks| == 1 then TokenText(toks[0]) else TokenText(toks[0]) + " " + Join(toks[1..])
  }

  function TokenPieces(t: AttrToken): seq<string>
    requires ValidToken(t)
  {
    match t
    case Bare(w) => [w]
    case Quoted(k, q, v) => [k + [q] + v[0]] + v[1..|v| - 1] + [v[|v| - 1] + [q]]
  }

  function JoinedPieces(toks: seq<AttrToken>): seq<string>
    requires |toks| > 0 && forall t :: t in toks ==> ValidToken(t)
  {
    if |toks| == 1 then TokenPieces(toks[0])
    else TokenPieces(toks[0]) + [" "] + JoinedPieces(toks[1..])
  }

  lemma {:induction false} SpacedEndWord(ps: seq<string>)
    requires Spaced(ps)
    ensures PlainWord(ps[|ps| - 1])
    decreases |ps|
  {
    if |ps| > 1 {
      SpacedEndWord(ps[2..]);
    }
  }

  lemma {:induction false} OpeningWord(k: string, q: char, w: string)
    requires NoSpace(k) && (k == [] || k[0] != '=') && IsQuoteChar(q) && PlainWord(w)
    ensures PlainWord(k + [q] + w)
  {
    var x := k + [q] + w;
    assert x[|x| - 1] == w[|w| - 1];
    assert x[0] == if k == [] then q else k[0];
    forall i | 0 <= i < |x| ensures !IsSpace(x[i]) {
      if i < |k| {
        assert x[i] == k[i];
      } else if i > |k| {
        assert x[i] == w[i - |k| - 1];
      }
    }
  }

  lemma {:induction false} ClosingWord(w: string, q: char)
    requires IsQuoteChar(q) && PlainWord(w)
    ensures PlainWord(w + [q])
  {
  }

  /** The pieces of a quoted token: the key and the opening quote joined to
      the first word, the closing quote to the last. */
  lemma {:induction false} QuotedPieces(k: string, q: char, v: seq<string>)
    requires ValidToken(Quoted(k, q, v))
    ensures Spaced(TokenPieces(Quoted(k, q, v)))
  {
    var x, y := k + [q] + v[0], v[|v| - 1] + [q];
    SpacedEndWord(v);
    OpeningWord(k, q, v[0]);
    ClosingWord(v[|v| - 1], q);
    var u := [x] + v[1..];
    assert u[1] == v[1] && u[2..] == v[2..];
    SpacedLast(u, y);
    assert u[..|u| - 1] + [y] == TokenPieces(Quoted(k, q, v));
  }

  lemma {:induction false} TokenPiecesShape(t: AttrToken)
    requires ValidToken(t)
    ensures Spaced(TokenPieces(t))
    ensures Concat(TokenPieces(t)) == TokenText(t)
  {
    match t
    case Bare(w) =>
      ConcatOne(w);
    case Quoted(k, q, v) =>
      QuotedPieces(k, q, v);
      var mid := v[1..|v| - 1];
      assert v == [v[0]] + mid + [v[|v| - 1]];
      ConcatEnds(v[0], mid, v[|v| - 1]);
      ConcatEnds(k + [q] + v[0], mid, v[|v| - 1] + [q]);
  }

  lemma {:induction false} JoinedPiecesShape(toks: seq<AttrToken>)
    requires |toks| > 0 && forall t :: t in toks ==> ValidToken(t)
    ensures Spaced(JoinedPieces(toks))
    ensures Concat(JoinedPieces(toks)) == Join(toks)
  {
    TokenPiecesShape(toks[0]);
    if |toks| > 1 {
      ValidTail(toks);
      JoinedPiecesShape(toks[1..]);
      var a, b := TokenPieces(toks[0]), JoinedPieces(toks[1..]);
      assert JoinedPieces(toks) == a + [" "] + b;
      assert Join(toks) == TokenText(toks[0]) + " " + Join(toks[1..]);
      SpacedAppend(a, " ", b);
      ConcatSpaced(a, b);
    }
  }

  lemma {:induction false} ConcatSpaced(a: seq<string>, b: seq<string>)
    ensures Concat(a + [" "] + b) == Concat(a) + " " + Concat(b)
  {
    ConcatAppend(a + [" "], b);
    ConcatAppend(a, [" "]);
    ConcatOne(" ");
  }

  lemma {:induction false} InnerNoQuote(v: seq<string>, q: char)
    requires |v| >= 2 && IsQuoteChar(q) && forall p :: p in v ==> NoQuote(p)
    ensures forall m :: m in v[1..|v| - 1] ==> q !in m
  {
    forall m | m in v[1..|v| - 1] ensures q !in m {
      var i :| 0 <= i < |v| - 2 && v[1..|v| - 1][i] == m;
      assert m == v[i + 1];
      assert NoQuote(m);
    }
  }

  lemma {:induction false} QuotedText(k: string, q: char, v: seq<string>)
    requires |v| >= 2
    ensures TokenText(Quoted(k, q, v)) == (k + [q] + v[0]) + Concat(v[1..|v| - 1]) + (v[|v| - 1] + [q])
  {
    var mid := v[1..|v| - 1];
    assert v == [v[0]] + mid + [v[|v| - 1]];
    ConcatEnds(v[0], mid, v[|v| - 1]);
  }

  lemma {:induction false} ScanQuotedToken(out: seq<string>, k: string, q: char, v: seq<string>)
    requires ValidToken(Quoted(k, q, v))
    ensures ScanPieces(Scan(out, None, []), TokenPieces(Quoted(k, q, v)))
         == Scan(out + [TokenText(Quoted(k, q, v))], None, [])
  {
    var x, mid, y := k + [q] + v[0], v[1..|v| - 1], v[|v| - 1] + [q];
    assert TokenPieces(Quoted(k, q, v)) == [x] + mid + [y];
    assert ScanPieces(Scan(out, None, []), [x] + mid + [y]) == Scan(out + [x + Concat(mid) + y], None, []) by {
      assert x[|k|] == q && y[|y| - 1] == q;
      InnerNoQuote(v, q);
      ScanQuotedGroup(out, x, mid, y);
    }
    assert TokenText(Quoted(k, q, v)) == x + Concat(mid) + y by {
      QuotedText(k, q, v);
    }
  }

  lemma {:induction false} ScanToken(out: seq<string>, t: AttrToken)
    requires ValidToken(t)
    ensures ScanPieces(Scan(out, None, []), TokenPieces(t)) == Scan(out + [TokenText(t)], None, [])
  {
    match t
    case Bare(w) =>
      assert [w][1..] == [];
    case Quoted(k, q, v) =>
      ScanQuotedToken(out, k, q, v);
  }

  /** A blank between closed fields is dropped. */
  lemma {:induction false} ScanBlank(out: seq<string>, b: seq<string>)
    requires ScanPieces(Scan([], None, []), b) == Scan(out, None, [])
    ensures ScanPieces(Scan([], None, []), [" "] + b) == Scan(out, None, [])
  {
    assert ([" "] + b)[1..] == b;
    assert IsSpaceStr(" ");
  }

  lemma {:induction false} TokenTextsRev(toks: seq<AttrToken>)
    requires |toks| > 0
    ensures Reverse(TokenTexts(toks)) == Reverse(TokenTexts(toks[1..])) + [TokenText(toks[0])]
  {
    assert TokenTexts(toks) == [TokenText(toks[0])] + TokenTexts(toks[1..]);
  }

  lemma {:induction false} ValidTail(toks: seq<AttrToken>)
    requires |toks| > 0 && forall t :: t in toks ==> ValidToken(t)
    ensures ValidToken(toks[0]) && forall t :: t in toks[1..] ==> ValidToken(t)
  {
    forall t | t in toks[1..] ensures ValidToken(t) {
      assert t in toks;
    }
  }

  lemma {:induction false} ScanTokenBlank(t: AttrToken, b: seq<string>, out: seq<string>)
    requires ValidToken(t)
    requires ScanPieces(Scan([], None, []), b) == Scan(out, None, [])
    ensures ScanPieces(Scan([], None, []), TokenPieces(t) + [" "] + b) == Scan(out + [TokenText(t)], None, [])
  {
    var a := TokenPieces(t);
    assert a + [" "] + b == a + ([" "] + b);
    ScanAppend(Scan([], None, []), a, [" "] + b);
    ScanBlank(out, b);
    ScanToken(out, t);
  }

  lemma {:induction false} ScanJoined(toks: seq<AttrToken>)
    requires |toks| > 0 && forall t :: t in toks ==> ValidToken(t)
    ensures ScanPieces(Scan([], None, []), JoinedPieces(toks))
         == Scan(Reverse(TokenTexts(toks)), None, [])
    decreases |toks|
  {
    ValidTail(toks);
    TokenTextsRev(toks);
    if |toks| == 1 {
      ScanToken([], toks[0]);
    } else {
      ScanJoined(toks[1..]);
      ScanTokenBlank(toks[0], JoinedPieces(toks[1..]), Reverse(TokenTexts(toks[1..])));
    }
  }

  /** split_attrs undoes joining: plain words and quoted values that hold
      whitespace, joined by blanks, come back one field per token, with
      the whitespace inside the quotes intact. */
  lemma {:induction false} SplitAttrsOfJoin(toks: seq<AttrToken>)
    requires |toks| > 0 && forall t :: t in toks ==> ValidToken(t)
    ensures AttrFields(Join(toks)) == Ok(TokenTexts(toks))
  {
    var ps := JoinedPieces(toks);
    JoinedPiecesShape(toks);
    NormOfSpaced(ps);
    SplitOnSpaceOfSpaced(ps);
    ScanJoined(toks);
    ReverseReverse(TokenTexts(toks));
  }

  /** The tokens of the split_attrs docstring example. */
  const ExampleTokens: seq<AttrToken> :=
    [Quoted("family=", '"', ["Courier", " ", "New"]), Bare("size=16"), Bare("bold")]

  lemma {:induction false} ExampleQuotedValid()
    ensures ValidToken(ExampleTokens[0])
  {
    var v := ["Courier", " ", "New"];
    assert PlainWord(v[0]) && PlainWord(v[2]) && IsSpaceStr(v[1]);
    assert Spaced(v) by {
      assert v[2..] == ["New"];
    }
    assert forall p :: p in v ==> NoQuote(p);
  }

  lemma {:induction false} ExampleTokensValid()
    ensures forall t :: t in ExampleTokens ==> ValidToken(t)
  {
    ExampleQuotedValid();
    assert ValidToken(Bare("size=16"));
    assert ValidToken(Bare("bold"));
  }

  lemma {:induction false} ExampleQuotedText()
    ensures TokenText(ExampleTokens[0]) == "family=\"Courier New\""
  {
    var v := ["Courier", " ", "New"];
    assert Concat(v) == "Courier New" by {
      assert v[1..][1..] == ["New"];
      assert Concat(["New"]) == "New" + Concat([]);
    }
  }

  lemma {:induction false} ExampleTokensText()
    ensures Join(ExampleTokens) == "family=\"Courier New\" size=16 bold"
    ensures TokenTexts(ExampleTokens) == ["family=\"Courier New\"", "size=16", "bold"]
  {
    var toks := ExampleTokens;
    ExampleQuotedText();
    assert toks[1..][1..] == [Bare("bold")];
    assert TokenTexts(toks[1..][1..]) == ["bold"];
    assert Join(toks[1..]) == "size=16 bold";
  }

  /** The example of the split_attrs docstring. */
  lemma {:induction false} SplitAttrsExample()
    ensures AttrFields("family=\"Courier New\" size=16 bold")
         == Ok(["family=\"Courier New\"", "size=16", "bold"])
  {
    ExampleTokensValid();
    ExampleTokensText();
    SplitAttrsOfJoin(ExampleTokens);
  }
}
