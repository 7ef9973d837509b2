/**
 * wrap_tagged_text over a tagged text that starts with an empty pair:
 * `<t b></t>a b` at width 1, where textwrap.fill breaks `a b` at its blank.
 * The walk as written counts the `a` against the empty pair, so the
 * newline replaces the `a` rather than the blank; the walk over the divs
 * that have text puts it in place of the blank.
 *
 * The strings are parameters equal to the literals, so that the verifier
 * reasons about them step by step instead of evaluating every function
 * on the literals.
 */
module ReflowExamples {
  import opened Base
  import opened Strs
  import opened Chunks
  import opened Reflow

  /** The empty pair and the plain text are the two chunks. */
  lemma {:induction false} EmptyPairChunks(s: string)
    requires s == "<t b></t>a b"
    ensures SplitTaggedText(s) == ["<t b></t>", "a b"]
  {
    assert LitAt(s, 2, "");
    assert LitAt(s, 1, "t");
    assert LitAt(s, 0, "<t");
    assert CloseAt(s, 2).None? && CloseAt(s, 3).None? && CloseAt(s, 4).None?;
    assert CloseAt(s, 5).None? && CloseAt(s, 6).None?;
    assert !LitAt(s, 8, "ag>");
    assert !LitAt(s, 7, "tag>");
    assert LitAt(s, 9, "") && LitAt(s, 8, ">") && LitAt(s, 7, "t>");
    RegionEndFirst(s, 2, 7);
    assert FindRegion(s, 0) == Some((0, 9));
    assert !LitAt(s, 9, "<t") && !LitAt(s, 10, "<t");
    assert FindRegion(s, 11) == None;
    assert FindRegion(s, 9) == None;
    assert s[0..9] == "<t b></t>" && s[9..] == "a b";
    assert SplitFrom(s, 9) == ["a b"];
  }

  /** A chunk that splits into a div, then the rest. */
  lemma {:induction false} DivsCons(c: string, rest: seq<string>, d: Chunk, namedFont: Value -> string)
    requires SplitChunk(c, namedFont) == Ok(Some(d)) && Divs(rest, namedFont).Ok?
    ensures Divs([c] + rest, namedFont) == Ok([d] + Divs(rest, namedFont).value)
  {
    assert ([c] + rest)[0] == c && ([c] + rest)[1..] == rest;
  }

  /** The divs: the empty pair with its attribute, then the plain text. */
  lemma {:induction false} EmptyPairDivs(c0: string, c1: string, namedFont: Value -> string)
    requires c0 == "<t b></t>" && c1 == "a b"
    ensures Divs([c0, c1], namedFont) == Ok([Chunk("t", "b", ""), Chunk("", "", c1)])
  {
    var d0, d1 := Chunk("t", "b", ""), Chunk("", "", c1);
    EmptyPairChunk(c0, namedFont);
    PlainAB(c1, namedFont);
    assert Divs([], namedFont) == Ok([]);
    DivsCons(c1, [], d1, namedFont);
    assert [c1] + [] == [c1] && [d1] + [] == [d1];
    DivsCons(c0, [c1], d0, namedFont);
    assert [c0] + [c1] == [c0, c1] && [d0] + [d1] == [d0, d1];
  }

  lemma {:induction false} EmptyPairChunk(c0: string, namedFont: Value -> string)
    requires c0 == "<t b></t>"
    ensures SplitChunk(c0, namedFont) == Ok(Some(Chunk("t", "b", "")))
  {
    assert PairText("t", "b", "", "t") == c0;
    assert PairParts("t", "b", "", "t");
    PairChunk("t", "b", "", "t", namedFont);
  }

  lemma {:induction false} PlainAB(c1: string, namedFont: Value -> string)
    requires c1 == "a b"
    ensures SplitChunk(c1, namedFont) == Ok(Some(Chunk("", "", c1)))
  {
    NoLtNoTag(c1);
    PlainChunk(c1, namedFont);
  }

  /** The plain text `a b` is one line, which fill breaks at its blank. */
  lemma {:induction false} WrappedAB(fill: (string, int) -> string)
    requires fill("a b", 1) == "a\nb"
    ensures Wrapped("a b", 1, fill) == "a\nb"
  {
    assert LineEnd("") == 0;
    assert LineEnd("b") == 1;
    assert LineEnd(" b") == 2;
    assert LineEnd("a b") == 3;
    assert SplitLines("a b") == ["a b"];
    assert FillAll(["a b"], 1, fill) == ["a\nb"];
    assert FinalNewline("a b") == "";
  }

  /** The walk as written: the `a` moves it past the empty pair, and the
      blank is recorded at offset 0 of `a b`. */
  lemma {:induction false} WalkPastEmpty(divs: seq<Chunk>)
    requires divs == [Chunk("t", "b", ""), Chunk("", "", "a b")]
    ensures InsertPoints("a b", "a\nb", divs) == Ok([Point(1, 1, 0, 0, true)])
  {
    var total, wrapped := "a b", "a\nb";
    var w0 := Start(divs);
    var w1 := Walker(1, 1, 0, 0, 3, []);
    var w2 := Walker(2, 1, 1, 0, 3, [Point(1, 1, 0, 0, true)]);
    var w3 := Walker(3, 1, 2, 0, 3, [Point(1, 1, 0, 0, true)]);
    assert Step(w0, 'a', wrapped, divs) == Ok(w1);
    assert IsSpace(' ') && wrapped[1] != ' ';
    assert w2.points == w1.points + [w2.points[0]];
    assert Step(w1, ' ', wrapped, divs) == Ok(w2);
    assert Step(w2, 'b', wrapped, divs) == Ok(w3);
    assert Walk(total, 3, w3, wrapped, divs) == Ok(w3);
    assert Walk(total, 2, w2, wrapped, divs) == Ok(w3);
    assert Walk(total, 1, w1, wrapped, divs) == Ok(w3);
  }

  /** The walk over the divs that have text records the blank at offset 1. */
  lemma {:induction false} WalkWithText(divs: seq<Chunk>)
    requires divs == [Chunk("", "", "a b")]
    ensures InsertPoints("a b", "a\nb", divs) == Ok([Point(1, 0, 1, 1, true)])
  {
    var total, wrapped := "a b", "a\nb";
    var w0 := Start(divs);
    var w1 := Walker(1, 0, 1, 0, 3, []);
    var w2 := Walker(2, 0, 2, 0, 3, [Point(1, 0, 1, 1, true)]);
    var w3 := Walker(3, 1, 0, 3, 3, [Point(1, 0, 1, 1, true)]);
    assert Step(w0, 'a', wrapped, divs) == Ok(w1);
    assert IsSpace(' ') && wrapped[1] != ' ';
    assert w2.points == w1.points + [w2.points[0]];
    assert Step(w1, ' ', wrapped, divs) == Ok(w2);
    assert Step(w2, 'b', wrapped, divs) == Ok(w3);
    assert Walk(total, 3, w3, wrapped, divs) == Ok(w3);
    assert Walk(total, 2, w2, wrapped, divs) == Ok(w3);
    assert Walk(total, 1, w1, wrapped, divs) == Ok(w3);
  }

  /** A div without text and then a plain div are written out as the
      plain div's text. */
  lemma {:induction false} EmptyThenPlain(d0: Chunk, d1: Chunk)
    requires d0.text == "" && d1.attrs == ""
    ensures Serialised([d0, d1]) == d1.text && Serialised([d1]) == d1.text
  {
    var ds := [d0, d1];
    assert ds[1..] == [d1] && [d1][1..] == [];
    assert Serialised([d1]) == d1.text + "";
  }

  /** wrap_tagged_text's steps, when each gives the named value. */
  lemma {:induction false} ReflowedVia(text: string, count: int, fill: (string, int) -> string, namedFont: Value -> string,
                                       divs: seq<Chunk>, points: seq<Point>, out: seq<Chunk>)
    requires count > 0 && Divs(SplitTaggedText(text), namedFont) == Ok(divs) && divs != []
    requires InsertPoints(Texts(divs), Wrapped(Texts(divs), count, fill), divs) == Ok(points) && points != []
    requires SpliceAll(divs, divs, points) == Ok(out)
    ensures Reflowed(text, count, fill, namedFont) == Ok(Serialised(out))
  {
  }

  /** The same for the walk over the divs that have text. */
  lemma {:induction false} ReflowedWithTextVia(text: string, count: int, fill: (string, int) -> string,
                                               namedFont: Value -> string, divs: seq<Chunk>, kept: seq<Chunk>,
                                               points: seq<Point>, out: seq<Chunk>)
    requires count > 0 && Divs(SplitTaggedText(text), namedFont) == Ok(divs) && divs != []
    requires WithText(divs) == kept && kept != []
    requires InsertPoints(Texts(kept), Wrapped(Texts(kept), count, fill), kept) == Ok(points) && points != []
    requires SpliceAll(kept, kept, points) == Ok(out)
    ensures ReflowedWithText(text, count, fill, namedFont) == Ok(Serialised(out))
  {
  }

  /** A point in the second of two divs splices that div. */
  lemma {:induction false} SpliceSecond(d0: Chunk, d1: Chunk, p: Point, t: string)
    requires p.divx == 1 && Spliced(d1.text, p) == t
    ensures SpliceAll([d0, d1], [d0, d1], [p]) == Ok([d0, d1.(text := t)])
  {
    assert [p][..0] == [];
    assert [d0, d1][1 := d1.(text := t)] == [d0, d1.(text := t)];
  }

  /** A point in the only div splices it. */
  lemma {:induction false} SpliceOnly(d: Chunk, p: Point, t: string)
    requires p.divx == 0 && Spliced(d.text, p) == t
    ensures SpliceAll([d], [d], [p]) == Ok([d.(text := t)])
  {
    assert [p][..0] == [];
    assert [d][0 := d.(text := t)] == [d.(text := t)];
  }

  /** A blank recorded at offset 0 of `a b` replaces the `a`. */
  lemma {:induction false} SplicedPast(s: string)
    requires s == "a b"
    ensures Spliced(s, Point(1, 1, 0, 0, true)) == "\n b"
  {
    assert Take(s, 0) == "" && Drop(s, 1) == " b";
  }

  /** A blank recorded at offset 1 of `a b` replaces the blank. */
  lemma {:induction false} SplicedAt(s: string)
    requires s == "a b"
    ensures Spliced(s, Point(1, 0, 1, 1, true)) == "a\nb"
  {
    assert Take(s, 1) == "a" && Drop(s, 2) == "b";
  }

  /** The texts of the two divs. */
  lemma {:induction false} EmptyPairTexts(d0: Chunk, d1: Chunk)
    requires d0.text == ""
    ensures Texts([d0, d1]) == d1.text && Texts([d1]) == d1.text && WithText([d0, d1]) == (if d1.text == "" then [] else [d1])
  {
    var ds := [d0, d1];
    assert ds[1..] == [d1] && [d1][1..] == [];
    assert Texts([d1]) == d1.text + "";
  }

  /** wrap_tagged_text('<t b></t>a b', 1) with fill('a b', 1) == 'a\nb'
      returns '\n b': the `a` is lost and the blank stays. */
  lemma {:induction false} EmptyDivDropsChar(text: string, fill: (string, int) -> string, namedFont: Value -> string)
    requires text == "<t b></t>a b" && fill("a b", 1) == "a\nb"
    ensures Reflowed(text, 1, fill, namedFont) == Ok("\n b")
  {
    var d0, d1 := Chunk("t", "b", ""), Chunk("", "", "a b");
    var p := Point(1, 1, 0, 0, true);
    EmptyPairChunks(text);
    EmptyPairDivs("<t b></t>", "a b", namedFont);
    EmptyPairTexts(d0, d1);
    WrappedAB(fill);
    WalkPastEmpty([d0, d1]);
    SplicedPast("a b");
    SpliceSecond(d0, d1, p, "\n b");
    ReflowedVia(text, 1, fill, namedFont, [d0, d1], [p], [d0, d1.(text := "\n b")]);
    EmptyThenPlain(d0, d1.(text := "\n b"));
  }

  /** The same call with the walk over the divs that have text returns
      'a\nb': the blank becomes the newline. */
  lemma {:induction false} EmptyDivKeepsChar(text: string, fill: (string, int) -> string, namedFont: Value -> string)
    requires text == "<t b></t>a b" && fill("a b", 1) == "a\nb"
    ensures ReflowedWithText(text, 1, fill, namedFont) == Ok("a\nb")
  {
    var d0, d1 := Chunk("t", "b", ""), Chunk("", "", "a b");
    var p := Point(1, 0, 1, 1, true);
    EmptyPairChunks(text);
    EmptyPairDivs("<t b></t>", "a b", namedFont);
    EmptyPairTexts(d0, d1);
    WrappedAB(fill);
    WalkWithText([d1]);
    SplicedAt("a b");
    SpliceOnly(d1, p, "a\nb");
    ReflowedWithTextVia(text, 1, fill, namedFont, [d0, d1], [d1], [p], [d1.(text := "a\nb")]);
    EmptyThenPlain(d0, d1.(text := "a\nb"));
  }
}
