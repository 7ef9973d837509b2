/**
 * wrap_tagged_text: the plain text of a tagged text is wrapped line by
 * line with textwrap.fill, and the newlines the wrapping introduced are
 * carried back into the chunks the text came from, which are then written
 * out again.
 *
 * textwrap.fill is the parameter `fill`: the model says where its output
 * is used, not how it breaks a line.
 */
module Reflow {
  import opened Base
  import opened Strs
  import opened Chunks

  // ---------------------------------------------------------------------
  // str.splitlines() and the wrapped string

  /** The characters str.splitlines() breaks at. */
  predicate IsLineBreak(c: char) {
    || c == '\n' || c == '\r' || c == '\U{0b}' || c == '\U{0c}'
    || ('\U{1c}' <= c <= '\U{1e}')
    || c == '\U{85}' || c == '\U{2028}' || c == '\U{2029}'
  }

  /** Index of the first line break in s, or |s|. */
  function LineEnd(s: string): (n: nat)
    ensures n <= |s|
    ensures n < |s| ==> IsLineBreak(s[n])
  {
    if s == [] || IsLineBreak(s[0]) then 0 else 1 + LineEnd(s[1..])
  }

  /** A "\r\n" pair is one break. */
  function BreakWidth(s: string, n: nat): nat
    requires n < |s|
  {
    if s[n] == '\r' && n + 1 < |s| && s[n + 1] == '\n' then 2 else 1
  }

  /** s.splitlines(): the lines without their breaks; a break at the very
      end does not start another line. */
  function SplitLines(s: string): seq<string>
    decreases |s|
  {
    if s == [] then []
    else
      var n := LineEnd(s);
      if n == |s| then [s]
      else [s[..n]] + SplitLines(s[n + BreakWidth(s, n)..])
  }

  /** "\n".join(ls) */
  function JoinLines(ls: seq<string>): string
    decreases |ls|
  {
    if ls == [] then ""
    else if |ls| == 1 then ls[0]
    else ls[0] + "\n" + JoinLines(ls[1..])
  }

  /** [textwrap.fill(s, count) for s in ls] */
  function FillAll(ls: seq<string>, count: int, fill: (string, int) -> string): (r: seq<string>)
    ensures |r| == |ls|
    decreases |ls|
  {
    if ls == [] then [] else [fill(ls[0], count)] + FillAll(ls[1..], count, fill)
  }

  /** wrapped_s: every line filled, joined by newlines, with the final
      newline of the text put back. */
  function Wrapped(total: string, count: int, fill: (string, int) -> string): string {
    JoinLines(FillAll(SplitLines(total), count, fill)) + FinalNewline(total)
  }

  /** `"\n" if final_nl_b else ""` */
  function FinalNewline(s: string): string {
    if EndsWith(s, "\n") then "\n" else ""
  }

  // ---------------------------------------------------------------------
  // The divs

  /** [split_chunk(chunk) for chunk in chunks], then the texts: every
      split_chunk runs before the text of an empty tuple is asked for. */
  function Divs(chunks: seq<string>, namedFont: Value -> string): Result<seq<Chunk>>
    decreases |chunks|
  {
    if chunks == [] then Ok([])
    else
      var c :- SplitChunk(chunks[0], namedFont);
      var rest :- Divs(chunks[1..], namedFont);
      if c.None? then Err(NoText) else Ok([c.value] + rest)
  }

  /** "".join(div.text for div in divs) */
  function Texts(divs: seq<Chunk>): string
    decreases |divs|
  {
    if divs == [] then "" else divs[0].text + Texts(divs[1..])
  }

  // ---------------------------------------------------------------------
  // The walk over the plain text

  /** An insert point: the index in the wrapped string, the div, the index
      in the div's text, the index in the plain text, and whether the
      plain text has a blank there. */
  datatype Point = Point(wi: nat, divx: nat, x: nat, pos: nat, space: bool)

  /** The loop variables of the walk and the insert points so far. */
  datatype Walker = Walker(wi: nat, divx: nat, x: nat, tl: nat, dl: nat, points: seq<Point>)

  /** Before the first character: the first div, whose text length is dl. */
  function Start(divs: seq<Chunk>): Walker
    requires divs != []
  {
    Walker(0, 0, 0, 0, |divs[0].text|, [])
  }

  /** One pass of the loop for the plain-text character c.  Where the
      wrapped string differs, a point is recorded, and a non-blank there
      means the wrapping added a character, which is skipped.  When the
      div's text is used up the walk moves to the next div; past the last
      div the length dl stays as it was. */
  function Step(w: Walker, c: char, wrapped: string, divs: seq<Chunk>): Result<Walker> {
    if w.wi >= |wrapped| then Err(IndexOutOfRange)
    else
      var differs := wrapped[w.wi] != c;
      var points := if differs then w.points + [Point(w.wi, w.divx, w.x, w.tl + w.x, IsSpace(c))] else w.points;
      var wi := w.wi + (if differs && !IsSpace(c) then 2 else 1);
      if w.x + 1 >= w.dl then
        var divx := w.divx + 1;
        Ok(Walker(wi, divx, 0, w.tl + w.dl, if divx < |divs| then |divs[divx].text| else w.dl, points))
      else Ok(Walker(wi, w.divx, w.x + 1, w.tl, w.dl, points))
  }

  /** The walk over the first n characters of the plain text. */
  function WalkTo(total: string, n: nat, wrapped: string, divs: seq<Chunk>): Result<Walker>
    requires n <= |total| && divs != []
  {
    if n == 0 then Ok(Start(divs))
    else
      var w :- WalkTo(total, n - 1, wrapped, divs);
      Step(w, total[n - 1], wrapped, divs)
  }

  /** The walk from the i-th character of the plain text on. */
  function Walk(total: string, i: nat, w: Walker, wrapped: string, divs: seq<Chunk>): Result<Walker>
    requires i <= |total|
    decreases |total| - i
  {
    if i == |total| then Ok(w)
    else
      var w' :- Step(w, total[i], wrapped, divs);
      Walk(total, i + 1, w', wrapped, divs)
  }

  // ---------------------------------------------------------------------
  // Putting the newlines into the divs

  /** The div's text with a newline at x, in place of the character there
      when the point is a blank. */
  function Spliced(orig: string, p: Point): string {
    Take(orig, p.x) + "\n" + Drop(orig, if p.space then p.x + 1 else p.x)
  }

  /** The points from the last to the first, each writing into `cur` the
      original text of its div with the newline put in. */
  function SpliceAll(divs: seq<Chunk>, cur: seq<Chunk>, points: seq<Point>): (r: Result<seq<Chunk>>)
    requires |cur| == |divs|
    ensures r.Ok? ==> |r.value| == |divs|
    decreases |points|
  {
    if points == [] then Ok(cur)
    else
      var p := points[|points| - 1];
      if p.divx >= |divs| then Err(IndexOutOfRange)
      else SpliceAll(divs, cur[p.divx := cur[p.divx].(text := Spliced(divs[p.divx].text, p))], points[..|points| - 1])
  }

  /** One div written out: in a `t` tag when it has attributes. */
  function DivText(d: Chunk): string {
    if d.text == "" then ""
    else if d.attrs != "" then "<t " + d.attrs + ">" + d.text + "</t>"
    else d.text
  }

  /** The divs written out and joined; divs without text are dropped. */
  function Serialised(divs: seq<Chunk>): string
    decreases |divs|
  {
    if divs == [] then "" else DivText(divs[0]) + Serialised(divs[1..])
  }

  lemma {:induction false} WalkOnce(total: string, i: nat, w: Walker, wrapped: string, divs: seq<Chunk>)
    requires i < |total| && w.wi < |wrapped|
    ensures Step(w, total[i], wrapped, divs).Ok?
    ensures Walk(total, i, w, wrapped, divs) == Walk(total, i + 1, Step(w, total[i], wrapped, divs).value, wrapped, divs)
  {
  }

  /** The walk from the start is the walk to n followed by the walk
      from n on. */
  lemma {:induction false} WalkSplit(total: string, n: nat, wrapped: string, divs: seq<Chunk>)
    requires n <= |total| && divs != []
    ensures Walk(total, 0, Start(divs), wrapped, divs)
         == if WalkTo(total, n, wrapped, divs).Ok? then Walk(total, n, WalkTo(total, n, wrapped, divs).value, wrapped, divs)
            else WalkTo(total, n, wrapped, divs)
  {
    if n > 0 {
      WalkSplit(total, n - 1, wrapped, divs);
    }
  }

  /** A walk to n that failed is the whole walk's failure. */
  lemma {:induction false} WalkToStops(total: string, n: nat, wrapped: string, divs: seq<Chunk>)
    requires n <= |total| && divs != [] && WalkTo(total, n, wrapped, divs).Err?
    ensures Walk(total, 0, Start(divs), wrapped, divs) == WalkTo(total, n, wrapped, divs)
  {
    WalkSplit(total, n, wrapped, divs);
  }

  /** The walk to the end is the whole walk. */
  lemma {:induction false} WalkToWhole(total: string, wrapped: string, divs: seq<Chunk>)
    requires divs != []
    ensures Walk(total, 0, Start(divs), wrapped, divs) == WalkTo(total, |total|, wrapped, divs)
  {
    WalkSplit(total, |total|, wrapped, divs);
  }

  /** The insert points of the walk over the whole plain text. */
  function InsertPoints(total: string, wrapped: string, divs: seq<Chunk>): Result<seq<Point>>
    requires divs != []
  {
    var w :- Walk(total, 0, Start(divs), wrapped, divs);
    Ok(w.points)
  }

  /** What wrap_tagged_text(text, count) returns or raises. */
  function Reflowed(text: string, count: int, fill: (string, int) -> string, namedFont: Value -> string): Result<string> {
    if count <= 0 then Ok(text)
    else
      var divs :- Divs(SplitTaggedText(text), namedFont);
      var total := Texts(divs);
      if divs == [] then Err(IndexOutOfRange)
      else
        var points :- InsertPoints(total, Wrapped(total, count, fill), divs);
        if points == [] then Ok(text)
        else
          var out :- SpliceAll(divs, divs, points);
          Ok(Serialised(out))
  }

  /** The `for tsc in total_string` loop of wrap_tagged_text. */
  method FindInsertPoints(total: string, wrapped: string, divs: seq<Chunk>) returns (r: Result<seq<Point>>)
    requires divs != []
    ensures r == InsertPoints(total, wrapped, divs)
  {
    var points: seq<Point> := [];
    var divx: nat, x: nat, tl: nat, wi: nat := 0, 0, 0, 0;
    var dl: nat := |divs[0].text|;
    var i := 0;
    while i < |total|
      invariant i <= |total|
      invariant WalkTo(total, i, wrapped, divs) == Ok(Walker(wi, divx, x, tl, dl, points))
    {
      var tsc := total[i];
      if wi >= |wrapped| {
        WalkToStops(total, i + 1, wrapped, divs);
        return Err(IndexOutOfRange);
      }
      ghost var next := Step(Walker(wi, divx, x, tl, dl, points), tsc, wrapped, divs).value;
      if wrapped[wi] != tsc {
        points := points + [Point(wi, divx, x, tl + x, IsSpace(tsc))];
        if !IsSpace(tsc) {
          wi := wi + 1;
        }
      }
      wi := wi + 1;
      assert wi == next.wi && points == next.points;
      x := x + 1;
      if x >= dl {
        tl := tl + dl;
        x := 0;
        divx := divx + 1;
        if divx < |divs| {
          dl := |divs[divx].text|;
        }
      }
      assert Walker(wi, divx, x, tl, dl, points) == next;
      i := i + 1;
    }
    WalkToWhole(total, wrapped, divs);
    return Ok(points);
  }

  /** The `for ipt in insert_pts[::-1]` loop: the divs with the newlines put in. */
  method InsertNewlines(divs: seq<Chunk>, points: seq<Point>) returns (r: Result<seq<Chunk>>)
    ensures r == SpliceAll(divs, divs, points)
  {
    var out := divs;
    var k := |points|;
    assert points[..k] == points;
    while k > 0
      invariant k <= |points| && |out| == |divs|
      invariant SpliceAll(divs, divs, points) == SpliceAll(divs, out, points[..k])
    {
      var p := points[k - 1];
      if p.divx >= |divs| {
        return Err(IndexOutOfRange);
      }
      out := out[p.divx := out[p.divx].(text := Spliced(divs[p.divx].text, p))];
      assert points[..k][..k - 1] == points[..k - 1];
      k := k - 1;
    }
    return Ok(out);
  }

  /** wrap_tagged_text */
  method WrapTaggedText(text: string, count: int, fill: (string, int) -> string, namedFont: Value -> string)
    returns (r: Result<string>)
    ensures r == Reflowed(text, count, fill, namedFont)
  {
    if count <= 0 {
      return Ok(text);
    }
    var divsOr := Divs(SplitTaggedText(text), namedFont);
    if divsOr.Err? {
      return Err(divsOr.error);
    }
    var divs := divsOr.value;
    var total := Texts(divs);
    var wrapped := Wrapped(total, count, fill);
    if divs == [] {
      return Err(IndexOutOfRange);
    }
    var points := FindInsertPoints(total, wrapped, divs);
    if points.Err? {
      return Err(points.error);
    }
    if points.value == [] {
      return Ok(text);
    }
    var out := InsertNewlines(divs, points.value);
    if out.Err? {
      return Err(out.error);
    }
    return Ok(Serialised(out.value));
  }

  // ---------------------------------------------------------------------
  // Properties of the wrapped string

  /** The only line breaks in s are newlines. */
  predicate OnlyNewlines(s: string) {
    forall i :: 0 <= i < |s| ==> IsLineBreak(s[i]) ==> s[i] == '\n'
  }

  lemma {:induction false} LineEndNoBreak(s: string)
    ensures forall i :: 0 <= i < LineEnd(s) ==> !IsLineBreak(s[i])
    decreases |s|
  {
    if s != [] && !IsLineBreak(s[0]) {
      LineEndNoBreak(s[1..]);
      assert forall i :: 0 < i < LineEnd(s) ==> s[i] == s[1..][i - 1];
    }
  }

  lemma {:induction false} OnlyNewlinesSuffix(s: string, k: nat)
    requires OnlyNewlines(s) && k <= |s|
    ensures OnlyNewlines(s[k..])
  {
    assert forall i :: 0 <= i < |s[k..]| ==> s[k..][i] == s[k + i];
  }

  lemma {:induction false} JoinLinesCons(a: string, ls: seq<string>)
    requires ls != []
    ensures JoinLines([a] + ls) == a + "\n" + JoinLines(ls)
  {
    assert ([a] + ls)[1..] == ls;
  }

  /** The text up to its first newline, that newline, and the rest. */
  lemma {:induction false} FirstLine(s: string)
    requires OnlyNewlines(s) && LineEnd(s) < |s|
    ensures var n := LineEnd(s);
      s[n] == '\n' && SplitLines(s) == [s[..n]] + SplitLines(s[n + 1..])
      && s == s[..n] + "\n" + s[n + 1..] && OnlyNewlines(s[n + 1..])
  {
    var n := LineEnd(s);
    assert IsLineBreak(s[n]);
    assert s[n] == '\n';
    assert BreakWidth(s, n) == 1;
    assert SplitLines(s) == [s[..n]] + SplitLines(s[n + 1..]);
    assert s == s[..n] + [s[n]] + s[n + 1..];
    OnlyNewlinesSuffix(s, n + 1);
  }

  lemma {:induction false} SplitLinesNonEmpty(s: string)
    requires s != []
    ensures SplitLines(s) != []
  {
  }

  /** A text without a newline is one line, not ending in a newline. */
  lemma {:induction false} LastLine(s: string)
    requires s != [] && LineEnd(s) == |s|
    ensures SplitLines(s) == [s] && JoinLines(SplitLines(s)) == s && !EndsWith(s, "\n")
  {
    LineEndNoBreak(s);
    assert !IsLineBreak(s[|s| - 1]);
  }

  /** A line and a newline in front of a non-empty rest that rejoins. */
  lemma {:induction false} RejoinFirstLine(a: string, rest: string, ls: seq<string>)
    requires rest != [] && ls != [] && JoinLines(ls) + FinalNewline(rest) == rest
    ensures JoinLines([a] + ls) + FinalNewline(a + "\n" + rest) == a + "\n" + rest
  {
    JoinLinesCons(a, ls);
    var s := a + "\n" + rest;
    assert FinalNewline(s) == FinalNewline(rest) by {
      assert s[|s| - 1..] == rest[|rest| - 1..];
    }
    calc {
      JoinLines([a] + ls) + FinalNewline(s);
      (a + "\n" + JoinLines(ls)) + FinalNewline(rest);
      a + "\n" + (JoinLines(ls) + FinalNewline(rest));
    }
  }

  /** Splitting at the newlines and joining again gives the text back,
      the final newline included. */
  lemma {:induction false} JoinSplitLines(s: string)
    requires OnlyNewlines(s)
    ensures JoinLines(SplitLines(s)) + FinalNewline(s) == s
    decreases |s|
  {
    if s != [] {
      var n := LineEnd(s);
      if n == |s| {
        LastLine(s);
      } else if n + 1 == |s| {
        FirstLine(s);
        assert SplitLines(s) == [s[..n]];
        assert EndsWith(s, "\n");
      } else {
        FirstLine(s);
        var rest := s[n + 1..];
        JoinSplitLines(rest);
        SplitLinesNonEmpty(rest);
        RejoinFirstLine(s[..n], rest, SplitLines(rest));
      }
    }
  }

  /** Every line already fits: fill gives it back as it is. */
  predicate Fits(lines: seq<string>, count: int, fill: (string, int) -> string) {
    forall k :: 0 <= k < |lines| ==> fill(lines[k], count) == lines[k]
  }

  lemma {:induction false} FillAllFits(ls: seq<string>, count: int, fill: (string, int) -> string)
    requires Fits(ls, count, fill)
    ensures FillAll(ls, count, fill) == ls
    decreases |ls|
  {
    if ls != [] {
      assert Fits(ls[1..], count, fill) by {
        assert forall k :: 0 <= k < |ls[1..]| ==> ls[1..][k] == ls[k + 1];
      }
      FillAllFits(ls[1..], count, fill);
    }
  }

  /** A text whose lines all fit is its own wrapped string. */
  lemma {:induction false} WrappedUnchanged(total: string, count: int, fill: (string, int) -> string)
    requires OnlyNewlines(total) && Fits(SplitLines(total), count, fill)
    ensures Wrapped(total, count, fill) == total
  {
    FillAllFits(SplitLines(total), count, fill);
    JoinSplitLines(total);
  }

  // ---------------------------------------------------------------------
  // Properties of the walk

  /** Against a wrapped string equal to the text, the walk keeps wi equal
      to the character index and records no point. */
  lemma {:induction false} WalkInStep(total: string, i: nat, w: Walker, divs: seq<Chunk>)
    requires i <= |total| && w.wi == i && w.points == []
    ensures Walk(total, i, w, total, divs).Ok?
    ensures Walk(total, i, w, total, divs).value.points == []
    decreases |total| - i
  {
    if i < |total| {
      var w' := Step(w, total[i], total, divs).value;
      assert w'.wi == i + 1 && w'.points == [];
      WalkInStep(total, i + 1, w', divs);
    }
  }

  /** The indices j >= i at which u differs from t. */
  function Diffs(t: string, u: string, i: nat): seq<nat>
    requires |t| <= |u|
    decreases |t| - i
  {
    if i >= |t| then []
    else (if t[i] != u[i] then [i] else []) + Diffs(t, u, i + 1)
  }

  /** The wrapped-string indices of the points. */
  function Positions(points: seq<Point>): seq<nat>
    decreases |points|
  {
    if points == [] then [] else Positions(points[..|points| - 1]) + [points[|points| - 1].wi]
  }

  /** Every point is at a blank of the text. */
  predicate AllBlanks(points: seq<Point>) {
    forall j :: 0 <= j < |points| ==> points[j].space
  }

  /** The wrapped string replaces some blanks of the text (by newlines,
      say) and changes nothing else. */
  predicate BlanksReplaced(total: string, wrapped: string) {
    |wrapped| == |total| && forall j :: 0 <= j < |total| ==> wrapped[j] != total[j] ==> IsSpace(total[j])
  }

  /** What one step does to wi and to the points. */
  lemma {:induction false} StepPoints(w: Walker, c: char, wrapped: string, divs: seq<Chunk>)
    requires w.wi < |wrapped|
    ensures Step(w, c, wrapped, divs).Ok?
    ensures wrapped[w.wi] == c ==>
      Step(w, c, wrapped, divs).value.points == w.points && Step(w, c, wrapped, divs).value.wi == w.wi + 1
    ensures wrapped[w.wi] != c ==>
      Step(w, c, wrapped, divs).value.points == w.points + [Point(w.wi, w.divx, w.x, w.tl + w.x, IsSpace(c))]
      && Step(w, c, wrapped, divs).value.wi == w.wi + (if IsSpace(c) then 1 else 2)
  {
  }

  lemma {:induction false} PositionsAppend(points: seq<Point>, p: Point)
    ensures Positions(points + [p]) == Positions(points) + [p.wi]
  {
    assert (points + [p])[..|points|] == points;
  }

  /** One step against a wrapped string that only replaces blanks: wi
      moves on by one, and a point is added exactly where the two differ. */
  lemma {:induction false} BlankStep(total: string, wrapped: string, i: nat, w: Walker, divs: seq<Chunk>)
    requires BlanksReplaced(total, wrapped) && i < |total| && w.wi == i
    ensures Step(w, total[i], wrapped, divs).Ok?
    ensures Step(w, total[i], wrapped, divs).value.wi == i + 1
    ensures Positions(Step(w, total[i], wrapped, divs).value.points)
         == Positions(w.points) + (if total[i] != wrapped[i] then [i] else [])
  {
    StepPoints(w, total[i], wrapped, divs);
    if total[i] != wrapped[i] {
      assert IsSpace(total[i]);
      PositionsAppend(w.points, Point(w.wi, w.divx, w.x, w.tl + w.x, true));
    } else {
      assert Positions(w.points) + [] == Positions(w.points);
    }
  }

  lemma {:induction false} AppendAssoc(a: seq<nat>, b: seq<nat>, c: seq<nat>)
    ensures a + b + c == a + (b + c)
  {
  }

  /** When the wrapping only turned blanks into other characters, the
      points are exactly the changed positions. */
  lemma {:induction false} WalkBlanks(total: string, wrapped: string, i: nat, w: Walker, divs: seq<Chunk>)
    requires BlanksReplaced(total, wrapped)
    requires i <= |total| && w.wi == i
    ensures Walk(total, i, w, wrapped, divs).Ok?
    ensures Positions(Walk(total, i, w, wrapped, divs).value.points) == Positions(w.points) + Diffs(total, wrapped, i)
    decreases |total| - i
  {
    if i == |total| {
      assert Positions(w.points) + [] == Positions(w.points);
    } else {
      var here: seq<nat> := if total[i] != wrapped[i] then [i] else [];
      BlankStep(total, wrapped, i, w, divs);
      var w' := Step(w, total[i], wrapped, divs).value;
      assert Walk(total, i, w, wrapped, divs) == Walk(total, i + 1, w', wrapped, divs) by {
        WalkOnce(total, i, w, wrapped, divs);
      }
      WalkBlanks(total, wrapped, i + 1, w', divs);
      assert Diffs(total, wrapped, i) == here + Diffs(total, wrapped, i + 1);
      AppendAssoc(Positions(w.points), here, Diffs(total, wrapped, i + 1));
    }
  }

  /** ... and each of them is at a blank, so the newline replaces it. */
  lemma {:induction false} WalkBlankPoints(total: string, wrapped: string, i: nat, w: Walker, divs: seq<Chunk>)
    requires BlanksReplaced(total, wrapped) && AllBlanks(w.points)
    requires i <= |total| && w.wi == i
    ensures Walk(total, i, w, wrapped, divs).Ok?
    ensures AllBlanks(Walk(total, i, w, wrapped, divs).value.points)
    decreases |total| - i
  {
    if i < |total| {
      StepPoints(w, total[i], wrapped, divs);
      var w' := Step(w, total[i], wrapped, divs).value;
      WalkOnce(total, i, w, wrapped, divs);
      if total[i] != wrapped[i] {
        assert IsSpace(total[i]);
        assert AllBlanks(w'.points) by {
          assert forall j :: 0 <= j < |w.points| ==> w'.points[j] == w.points[j];
        }
      }
      WalkBlankPoints(total, wrapped, i + 1, w', divs);
    }
  }

  /** No div has an empty text (a pair such as `<t fg=red></t>` has one). */
  predicate NoEmptyText(divs: seq<Chunk>) {
    forall d :: 0 <= d < |divs| ==> divs[d].text != ""
  }

  lemma {:induction false} TextsAppend(a: seq<Chunk>, b: seq<Chunk>)
    ensures Texts(a + b) == Texts(a) + Texts(b)
    decreases |a|
  {
    if a == [] {
      assert a + b == b;
    } else {
      assert (a + b)[1..] == a[1..] + b;
      TextsAppend(a[1..], b);
    }
  }

  /** The text of div d sits in the plain text right after the texts of
      the divs before it. */
  lemma {:induction false} TextsAt(divs: seq<Chunk>, d: nat)
    requires d < |divs|
    ensures |Texts(divs[..d + 1])| == |Texts(divs[..d])| + |divs[d].text|
    ensures |Texts(divs[..d + 1])| <= |Texts(divs)|
    ensures divs[d].text == Texts(divs)[|Texts(divs[..d])|..|Texts(divs[..d + 1])|]
  {
    assert divs[..d + 1] == divs[..d] + [divs[d]];
    TextsAppend(divs[..d], [divs[d]]);
    assert Texts([divs[d]]) == divs[d].text + "";
    assert divs == divs[..d + 1] + divs[d + 1..];
    TextsAppend(divs[..d + 1], divs[d + 1..]);
  }

  /** The walk before the i-th character: in div divx, after the texts of
      the divs before it, at offset x of its text. */
  predicate Located(w: Walker, i: nat, divs: seq<Chunk>) {
    w.divx < |divs| && w.tl == |Texts(divs[..w.divx])| && w.dl == |divs[w.divx].text|
    && w.x < w.dl && w.tl + w.x == i
  }

  /** Point p names the div and the offset of the plain-text character it
      was recorded at. */
  predicate PointAt(p: Point, total: string, divs: seq<Chunk>) {
    p.divx < |divs| && p.x < |divs[p.divx].text| && p.pos < |total|
    && divs[p.divx].text[p.x] == total[p.pos]
  }

  predicate AllAt(points: seq<Point>, total: string, divs: seq<Chunk>) {
    forall k :: 0 <= k < |points| ==> PointAt(points[k], total, divs)
  }

  lemma {:induction false} AllAtAppend(points: seq<Point>, p: Point, total: string, divs: seq<Chunk>)
    requires AllAt(points, total, divs) && PointAt(p, total, divs)
    ensures AllAt(points + [p], total, divs)
  {
    assert forall k :: 0 <= k < |points| ==> (points + [p])[k] == points[k];
  }

  /** What one step does to the position in the divs. */
  lemma {:induction false} StepCursor(w: Walker, c: char, wrapped: string, divs: seq<Chunk>)
    requires w.wi < |wrapped|
    ensures var w' := Step(w, c, wrapped, divs).value;
      && (w.x + 1 < w.dl ==> w'.divx == w.divx && w'.x == w.x + 1 && w'.tl == w.tl && w'.dl == w.dl)
      && (w.x + 1 >= w.dl ==> w'.divx == w.divx + 1 && w'.x == 0 && w'.tl == w.tl + w.dl)
      && (w.x + 1 >= w.dl && w.divx + 1 < |divs| ==> w'.dl == |divs[w.divx + 1].text|)
  {
  }

  /** Moving on by one character keeps the walk located, while characters
      remain. */
  lemma {:induction false} NextLocated(total: string, i: nat, w: Walker, w': Walker, divs: seq<Chunk>)
    requires total == Texts(divs) && NoEmptyText(divs) && i + 1 < |total| && Located(w, i, divs)
    requires w.x + 1 < w.dl ==> w'.divx == w.divx && w'.x == w.x + 1 && w'.tl == w.tl && w'.dl == w.dl
    requires w.x + 1 >= w.dl ==> w'.divx == w.divx + 1 && w'.x == 0 && w'.tl == w.tl + w.dl
    requires w.x + 1 >= w.dl && w.divx + 1 < |divs| ==> w'.dl == |divs[w.divx + 1].text|
    ensures Located(w', i + 1, divs)
  {
    TextsAt(divs, w.divx);
    if w.x + 1 >= w.dl {
      assert divs[..|divs|] == divs;
      assert w'.divx < |divs|;
      assert divs[w'.divx].text != "";
    }
  }

  /** One step keeps the walk located, while characters remain. */
  lemma {:induction false} StepLocated(total: string, i: nat, w: Walker, wrapped: string, divs: seq<Chunk>)
    requires total == Texts(divs) && NoEmptyText(divs) && i < |total| && Located(w, i, divs)
    requires w.wi < |wrapped|
    ensures i + 1 < |total| ==> Located(Step(w, total[i], wrapped, divs).value, i + 1, divs)
  {
    StepCursor(w, total[i], wrapped, divs);
    if i + 1 < |total| {
      NextLocated(total, i, w, Step(w, total[i], wrapped, divs).value, divs);
    }
  }

  /** The point a step records is at its character. */
  lemma {:induction false} StepPointAt(total: string, i: nat, w: Walker, wrapped: string, divs: seq<Chunk>)
    requires total == Texts(divs) && i < |total| && Located(w, i, divs) && w.wi < |wrapped|
    requires wrapped[w.wi] != total[i]
    ensures PointAt(Point(w.wi, w.divx, w.x, w.tl + w.x, IsSpace(total[i])), total, divs)
  {
    TextsAt(divs, w.divx);
  }

  /** The points after one step are still all at their characters. */
  lemma {:induction false} StepAllAt(total: string, i: nat, w: Walker, wrapped: string, divs: seq<Chunk>)
    requires total == Texts(divs) && i < |total| && Located(w, i, divs) && w.wi < |wrapped|
    requires AllAt(w.points, total, divs)
    ensures AllAt(Step(w, total[i], wrapped, divs).value.points, total, divs)
  {
    StepPoints(w, total[i], wrapped, divs);
    if wrapped[w.wi] != total[i] {
      StepPointAt(total, i, w, wrapped, divs);
      AllAtAppend(w.points, Point(w.wi, w.divx, w.x, w.tl + w.x, IsSpace(total[i])), total, divs);
    }
  }

  /** The walk before the i-th character of the plain text of divs: located
      while characters remain, with every point at its character. */
  predicate WalkState(total: string, i: nat, w: Walker, divs: seq<Chunk>) {
    total == Texts(divs) && NoEmptyText(divs) && i <= |total|
    && (i < |total| ==> Located(w, i, divs)) && AllAt(w.points, total, divs)
  }

  /** One step keeps the walk state. */
  lemma {:induction false} StepState(total: string, i: nat, w: Walker, wrapped: string, divs: seq<Chunk>)
    requires WalkState(total, i, w, divs) && i < |total| && w.wi < |wrapped|
    ensures WalkState(total, i + 1, Step(w, total[i], wrapped, divs).value, divs)
  {
    StepLocated(total, i, w, wrapped, divs);
    StepAllAt(total, i, w, wrapped, divs);
  }

  /** With no empty div, the walk over each prefix of the plain text keeps
      the walk state: every insert point names the div and the offset of
      its character, so that the splicing writes where the walk saw the
      difference. */
  lemma {:induction false} WalkLocated(total: string, n: nat, wrapped: string, divs: seq<Chunk>)
    requires divs != [] && total == Texts(divs) && NoEmptyText(divs) && n <= |total|
    ensures WalkTo(total, n, wrapped, divs).Ok? ==> WalkState(total, n, WalkTo(total, n, wrapped, divs).value, divs)
  {
    if n == 0 {
      if |total| > 0 {
        assert divs[..0] == [];
        assert Located(Start(divs), 0, divs);
      }
    } else {
      WalkLocated(total, n - 1, wrapped, divs);
      var prev := WalkTo(total, n - 1, wrapped, divs);
      if prev.Ok? && prev.value.wi < |wrapped| {
        StepState(total, n - 1, prev.value, wrapped, divs);
      }
    }
  }

  /** With no empty div, the points of a successful walk are all in range,
      so the splicing cannot raise. */
  lemma {:induction false} InsertPointsAt(total: string, wrapped: string, divs: seq<Chunk>)
    requires divs != [] && total == Texts(divs) && NoEmptyText(divs)
    ensures InsertPoints(total, wrapped, divs).Ok? ==> AllAt(InsertPoints(total, wrapped, divs).value, total, divs)
    ensures InsertPoints(total, wrapped, divs).Ok? ==> InRange(InsertPoints(total, wrapped, divs).value, |divs|)
  {
    WalkToWhole(total, wrapped, divs);
    WalkLocated(total, |total|, wrapped, divs);
  }

  // ---------------------------------------------------------------------
  // Properties of the splicing

  /** The first point for div d. */
  function FirstFor(points: seq<Point>, d: nat): Option<Point>
    decreases |points|
  {
    if points == [] then None
    else if points[0].divx == d then Some(points[0])
    else FirstFor(points[1..], d)
  }

  lemma {:induction false} FirstForAppend(points: seq<Point>, p: Point, d: nat)
    ensures FirstFor(points + [p], d)
         == if FirstFor(points, d).Some? then FirstFor(points, d)
            else if p.divx == d then Some(p) else None
    decreases |points|
  {
    if points == [] {
      assert [p][1..] == [];
    } else {
      assert (points + [p])[1..] == points[1..] + [p];
      FirstForAppend(points[1..], p, d);
    }
  }

  /** Every point names a div that exists. */
  predicate InRange(points: seq<Point>, n: nat) {
    forall k :: 0 <= k < |points| ==> points[k].divx < n
  }

  /** Only the first point of a div has an effect: every later one is
      overwritten, because each splice starts from the div's original
      text.  The splicing fails exactly when a point names no div. */
  lemma {:induction false} SpliceFirstWins(divs: seq<Chunk>, cur: seq<Chunk>, points: seq<Point>, d: nat)
    requires |cur| == |divs| && d < |divs|
    ensures SpliceAll(divs, cur, points).Ok? <==> InRange(points, |divs|)
    ensures SpliceAll(divs, cur, points).Ok? ==>
      SpliceAll(divs, cur, points).value[d]
        == match FirstFor(points, d)
           case None => cur[d]
           case Some(p) => cur[d].(text := Spliced(divs[d].text, p))
    decreases |points|
  {
    if points != [] {
      var n := |points| - 1;
      var p := points[n];
      var front := points[..n];
      assert points == front + [p];
      FirstForAppend(front, p, d);
      assert InRange(points, |divs|) <==> InRange(front, |divs|) && p.divx < |divs| by {
        assert forall k :: 0 <= k < n ==> front[k] == points[k];
      }
      if p.divx < |divs| {
        var cur' := cur[p.divx := cur[p.divx].(text := Spliced(divs[p.divx].text, p))];
        SpliceFirstWins(divs, cur', front, d);
      }
    }
  }

  // ---------------------------------------------------------------------
  // Properties of the writing out

  /** No div has attributes. */
  predicate Untagged(divs: seq<Chunk>) {
    forall k :: 0 <= k < |divs| ==> divs[k].attrs == ""
  }

  /** Divs without attributes are written out as their texts alone. */
  lemma {:induction false} SerialisedUntagged(divs: seq<Chunk>)
    requires Untagged(divs)
    ensures Serialised(divs) == Texts(divs)
    decreases |divs|
  {
    if divs != [] {
      assert Untagged(divs[1..]) by {
        assert forall k :: 0 <= k < |divs[1..]| ==> divs[1..][k] == divs[k + 1];
      }
      SerialisedUntagged(divs[1..]);
    }
  }

  // ---------------------------------------------------------------------
  // Properties of wrap_tagged_text

  /** The plain text the walk runs over is strip_tags(text): the divs
      exist exactly when strip_tags succeeds, and their texts are its
      result. */
  lemma {:induction false} DivsStripped(chunks: seq<string>, namedFont: Value -> string)
    ensures Divs(chunks, namedFont).Ok? <==> ChunkTexts(chunks, namedFont).Ok?
    ensures Divs(chunks, namedFont).Ok? ==> ChunkTexts(chunks, namedFont) == Ok(Texts(Divs(chunks, namedFont).value))
    decreases |chunks|
  {
    if chunks != [] {
      DivsStripped(chunks[1..], namedFont);
    }
  }

  /** Nothing to wrap: the empty text raises the IndexError of divs[0]. */
  lemma {:induction false} ReflowEmpty(count: int, fill: (string, int) -> string, namedFont: Value -> string)
    requires count > 0
    ensures Reflowed("", count, fill, namedFont) == Err(IndexOutOfRange)
  {
    assert SplitTaggedText("") == [];
  }

  /** A text whose plain lines all fit comes back exactly as it was. */
  lemma {:induction false} ReflowFits(text: string, count: int, fill: (string, int) -> string, namedFont: Value -> string, divs: seq<Chunk>)
    requires Divs(SplitTaggedText(text), namedFont) == Ok(divs) && divs != []
    requires OnlyNewlines(Texts(divs)) && Fits(SplitLines(Texts(divs)), count, fill)
    ensures Reflowed(text, count, fill, namedFont) == Ok(text)
  {
    var total := Texts(divs);
    WrappedUnchanged(total, count, fill);
    WalkInStep(total, 0, Start(divs), divs);
  }

  /** When the wrapped string only replaces blanks and no div is empty,
      the walk succeeds, and its insert points are exactly the changed
      blanks, each named by its div and its offset there. */
  lemma {:induction false} InsertPointsAtBlanks(total: string, wrapped: string, divs: seq<Chunk>)
    requires divs != [] && total == Texts(divs) && NoEmptyText(divs) && BlanksReplaced(total, wrapped)
    ensures InsertPoints(total, wrapped, divs).Ok?
    ensures Positions(InsertPoints(total, wrapped, divs).value) == Diffs(total, wrapped, 0)
    ensures AllBlanks(InsertPoints(total, wrapped, divs).value)
    ensures AllAt(InsertPoints(total, wrapped, divs).value, total, divs)
  {
    WalkBlanks(total, wrapped, 0, Start(divs), divs);
    WalkBlankPoints(total, wrapped, 0, Start(divs), divs);
    assert Positions([]) + Diffs(total, wrapped, 0) == Diffs(total, wrapped, 0);
    InsertPointsAt(total, wrapped, divs);
  }

  /** So wrap_tagged_text succeeds when wrapping only turns blanks into
      newlines and no div is empty. */
  lemma {:induction false} ReflowAtBlanks(text: string, count: int, fill: (string, int) -> string, namedFont: Value -> string, divs: seq<Chunk>)
    requires count > 0 && Divs(SplitTaggedText(text), namedFont) == Ok(divs) && divs != [] && NoEmptyText(divs)
    requires BlanksReplaced(Texts(divs), Wrapped(Texts(divs), count, fill))
    ensures Reflowed(text, count, fill, namedFont).Ok?
  {
    var total := Texts(divs);
    var wrapped := Wrapped(total, count, fill);
    InsertPointsAtBlanks(total, wrapped, divs);
    var points := InsertPoints(total, wrapped, divs).value;
    if points != [] {
      SpliceFirstWins(divs, divs, points, 0);
    }
  }

  // ---------------------------------------------------------------------
  // The walk over the divs that have text
  //
  // The walk moves to the next div only after a character of the current
  // one, so a div with empty text takes the character after it: the point
  // of that character names the wrong div and an offset one short.  A walk
  // over the divs that have text places every point at its character; the
  // divs without text are written out as nothing either way.

  /** The divs whose text is not empty, in order. */
  function WithText(divs: seq<Chunk>): (r: seq<Chunk>)
    ensures NoEmptyText(r) && Texts(r) == Texts(divs) && Serialised(r) == Serialised(divs)
    ensures |r| <= |divs|
    decreases |divs|
  {
    if divs == [] then []
    else if divs[0].text == "" then WithText(divs[1..])
    else [divs[0]] + WithText(divs[1..])
  }

  /** wrap_tagged_text with the walk over the divs that have text. */
  function ReflowedWithText(text: string, count: int, fill: (string, int) -> string, namedFont: Value -> string): Result<string> {
    if count <= 0 then Ok(text)
    else
      var divs :- Divs(SplitTaggedText(text), namedFont);
      if divs == [] then Err(IndexOutOfRange)
      else
        var kept := WithText(divs);
        var total := Texts(kept);
        if kept == [] then Ok(text)
        else
          var points :- InsertPoints(total, Wrapped(total, count, fill), kept);
          if points == [] then Ok(text)
          else
            var out :- SpliceAll(kept, kept, points);
            Ok(Serialised(out))
  }

  /** Over the divs that have text, every insert point names the div and
      the offset of its character, whatever divs without text the tagged
      text holds, and the splicing cannot raise. */
  lemma {:induction false} WithTextPointsAt(divs: seq<Chunk>, wrapped: string)
    requires WithText(divs) != []
    ensures var kept := WithText(divs);
      InsertPoints(Texts(divs), wrapped, kept).Ok? ==>
        && AllAt(InsertPoints(Texts(divs), wrapped, kept).value, Texts(divs), kept)
        && SpliceAll(kept, kept, InsertPoints(Texts(divs), wrapped, kept).value).Ok?
  {
    var kept := WithText(divs);
    InsertPointsAt(Texts(kept), wrapped, kept);
    var r := InsertPoints(Texts(kept), wrapped, kept);
    if r.Ok? && r.value != [] {
      SpliceFirstWins(kept, kept, r.value, 0);
    }
  }

  /** So the corrected wrap succeeds whenever wrapping only turns blanks
      into newlines, empty divs or not. */
  lemma {:induction false} ReflowWithTextAtBlanks(text: string, count: int, fill: (string, int) -> string,
                                                  namedFont: Value -> string, divs: seq<Chunk>)
    requires count > 0 && Divs(SplitTaggedText(text), namedFont) == Ok(divs) && divs != []
    requires BlanksReplaced(Texts(divs), Wrapped(Texts(divs), count, fill))
    ensures ReflowedWithText(text, count, fill, namedFont).Ok?
  {
    var kept := WithText(divs);
    if kept != [] {
      var total := Texts(kept);
      var wrapped := Wrapped(total, count, fill);
      InsertPointsAtBlanks(total, wrapped, kept);
      var points := InsertPoints(total, wrapped, kept).value;
      if points != [] {
        SpliceFirstWins(kept, kept, points, 0);
      }
    }
  }
}
