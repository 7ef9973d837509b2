/**
 * Chunking of tagged text.  A tagged text such as
 *   `one <t fg=red>two</t> <tag b text="three" />`
 * is cut into the plain pieces and the tag regions between them
 * (split_tagged_text_into_chunks); each piece is then read as a
 * (tag, attrs, text) triple (split_chunk), and the plain text of the whole is
 * the concatenation of the texts (strip_tags).
 *
 * The two regular expressions of the source are replaced by scanners that
 * follow the backtracking order of Python's `re`:
 *   region   `(<t(?:ag)?.*?(?<=/)(?:t(?:ag)?)?>)`  IGNORECASE | DOTALL
 *   pair     `<(t(?:ag)?)\s*([^>]*)>([^>]*)</t(?:ag)?>`  IGNORECASE
 */
module Chunks {
  import opened Base
  import opened Strs
  import opened Dicts
  import opened Decode
  import opened Encode

  /** The namedtuple Chunk(tag, attrs, text). */
  datatype Chunk = Chunk(tag: string, attrs: string, text: string)

  /** The lower-case literal `lit` occurs at p, ignoring case. */
  predicate LitAt(s: string, p: nat, lit: string)
    decreases |lit|
  {
    |lit| == 0 || (p < |s| && Lower(s[p]) == lit[0] && LitAt(s, p + 1, lit[1..]))
  }

  lemma {:induction false} LitAtBound(s: string, p: nat, lit: string)
    requires LitAt(s, p, lit) && |lit| > 0
    ensures p + |lit| <= |s|
    decreases |lit|
  {
    if |lit| > 1 {
      LitAtBound(s, p + 1, lit[1..]);
    }
  }

  // ---------------------------------------------------------------------
  // split_tagged_text_into_chunks

  /** After the lazy `.*?` has stopped at j: the look-behind wants '/' just
      before j, then the greedy `(?:t(?:ag)?)?>` takes `tag>`, `t>` or `>`.
      The length of what it takes. */
  function CloseAt(s: string, j: nat): Option<nat> {
    if j == 0 || j > |s| || s[j - 1] != '/' then None
    else if LitAt(s, j, "tag>") then Some(4)
    else if LitAt(s, j, "t>") then Some(2)
    else if LitAt(s, j, ">") then Some(1)
    else None
  }

  /** The lazy `.*?` tries the stopping points j, j+1, ... in turn: the end
      of the region at the first one that closes. */
  function RegionEnd(s: string, j: nat): (r: Option<nat>)
    ensures r.Some? ==> j < r.value <= |s|
    decreases |s| + 1 - j
  {
    if j > |s| then None
    else match CloseAt(s, j)
      case Some(n) => Some(j + n)
      case None => RegionEnd(s, j + 1)
  }

  /** The leftmost region at or after p.  The `.*?` starts after `<t`; when
      `ag` follows, the engine first tries after `<tag`, but a close needs a
      '/' before it, so no close is lost by starting after `<t`. */
  function FindRegion(s: string, p: nat): (r: Option<(nat, nat)>)
    ensures r.Some? ==> p <= r.value.0 && r.value.0 + 2 < r.value.1 <= |s|
    decreases |s| - p
  {
    if p + 2 > |s| then None
    else if LitAt(s, p, "<t") then
      match RegionEnd(s, p + 2)
      case Some(e) => Some((p, e))
      case None => FindRegion(s, p + 1)
    else FindRegion(s, p + 1)
  }

  /** re.split from p, keeping the regions, with the empty pieces dropped. */
  function SplitFrom(s: string, p: nat): seq<string>
    requires p <= |s|
    decreases |s| - p
  {
    match FindRegion(s, p)
    case None => if p == |s| then [] else [s[p..]]
    case Some((a, e)) => (if a == p then [] else [s[p..a]]) + [s[a..e]] + SplitFrom(s, e)
  }

  /** split_tagged_text_into_chunks */
  function SplitTaggedText(text: string): seq<string> {
    SplitFrom(text, 0)
  }

  // ---------------------------------------------------------------------
  // split_chunk

  /** The index of the first '>' at or after i, or |s|. */
  function NextGt(s: string, i: nat): (r: nat)
    ensures i <= |s| ==> i <= r <= |s|
    ensures r < |s| ==> s[r] == '>'
    decreases |s| - i
  {
    if i >= |s| then |s|
    else if s[i] == '>' then i
    else NextGt(s, i + 1)
  }

  /** The index after the whitespace run that starts at i. */
  function SkipSpace(s: string, i: nat): (r: nat)
    ensures i <= |s| ==> i <= r <= |s|
    decreases |s| - i
  {
    if i < |s| && IsSpace(s[i]) then SkipSpace(s, i + 1) else i
  }

  /** The pair pattern tried at p: the groups and where the match ends.
      `t(?:ag)?` takes `tag` when it can (taking `t` instead cannot help:
      the first '>' is the same either way); `\s*` and `[^>]*` are greedy,
      so the attributes run to the first '>' and the text to the next one,
      which has to close `</t>` or `</tag>`. */
  function PairAt(s: string, p: nat): (r: Option<(Chunk, nat)>)
    ensures r.Some? ==> p < r.value.1 <= |s|
  {
    if !LitAt(s, p, "<t") then None
    else LitAtBound(s, p, "<t"); PairAfterTag(s, p, TagGroupEnd(s, p))
  }

  /** The end of the tag group of a pair starting at p. */
  function TagGroupEnd(s: string, p: nat): (q: nat)
    ensures p + 2 <= q
    ensures p + 2 <= |s| ==> q <= |s|
  {
    if LitAt(s, p + 1, "tag") then LitAtBound(s, p + 1, "tag"); p + 4 else p + 2
  }

  /** The rest of the pair once the tag group has ended at q > p. */
  function PairAfterTag(s: string, p: nat, q: nat): (r: Option<(Chunk, nat)>)
    requires p < q <= |s|
    ensures r.Some? ==> p < r.value.1 <= |s|
  {
    var a := SkipSpace(s, q);
    var g := NextGt(s, a);
    if g == |s| then None
    else PairClose(s, s[p + 1..q], s[a..g], g, NextGt(s, g + 1))
  }

  /** The text runs from after the '>' at g to the closing tag, whose '>'
      is the next one, at g2. */
  function PairClose(s: string, tag: string, attrs: string, g: nat, g2: nat): (r: Option<(Chunk, nat)>)
    ensures r.Some? ==> g < r.value.1 <= |s|
  {
    if g2 >= |s| then None
    else if g2 >= g + 4 && LitAt(s, g2 - 3, "</t>") then
      Some((Chunk(tag, attrs, s[g + 1..g2 - 3]), g2 + 1))
    else if g2 >= g + 6 && LitAt(s, g2 - 5, "</tag>") then
      Some((Chunk(tag, attrs, s[g + 1..g2 - 5]), g2 + 1))
    else None
  }

  /** findall from p: every non-overlapping match, left to right. */
  function FindAllPairs(s: string, p: nat): seq<Chunk>
    decreases |s| - p
  {
    if p >= |s| then []
    else match PairAt(s, p)
      case Some((c, e)) => [c] + FindAllPairs(s, e)
      case None => FindAllPairs(s, p + 1)
  }

  /** The form `<tag ATTRS />`. */
  predicate SelfClosing(chunk: string) {
    LitAt(chunk, 0, "<t") && EndsWith(chunk, "/>")
  }

  /** The self-closing form rewritten as a pair: the word after '<' is the
      tag and the rest without its last two characters the attributes.
      split(None, 1) yields one piece when nothing follows the tag word, and
      taking the second piece then raises. */
  function PairForm(chunk: string, namedFont: Value -> string): Result<string> {
    var w := WordRun(chunk);
    var rest := LStrip(chunk[w..]);
    if rest == [] then Err(NoAttributes(chunk))
    else
      var attrs := if |rest| >= 2 then rest[..|rest| - 2] else "";
      var (newAttrs, text) :- Reencoded(attrs, namedFont);
      var tag := Drop(chunk[..w], 1);
      Ok(PairText(tag, newAttrs, text, tag))
  }

  /** The attributes decoded, the `text` option taken out (str() of its
      value, "" when absent) and the rest encoded again with the default
      spelling and no auto-defaults. */
  function Reencoded(attrs: string, namedFont: Value -> string): Result<(string, string)> {
    var st :- TagAttrs(attrs, Attrs([], [], ""), false);
    var text := Get(st.options, "text");
    var newAttrs :- TagAttrsText(Remove(st.options, "text"), st.font, VStr(st.textCase), [],
                                 Flags("", false, false, namedFont));
    Ok((newAttrs, if text.Some? then ValueStr(text.value) else ""))
  }

  /** `<tag attrs>text</close>` */
  function PairText(tag: string, attrs: string, text: string, close: string): string {
    "<" + tag + " " + attrs + ">" + text + "</" + close + ">"
  }

  /** split_chunk: a chunk with exactly one pair gives its groups, any other
      non-empty chunk is plain text, and the empty chunk gives the empty
      tuple (None here). */
  function SplitChunk(chunk0: string, namedFont: Value -> string): Result<Option<Chunk>> {
    var chunk :- if SelfClosing(chunk0) then PairForm(chunk0, namedFont) else Ok(chunk0);
    Ok(ReadPair(chunk))
  }

  /** The findall step of split_chunk. */
  function ReadPair(chunk: string): Option<Chunk> {
    var matches := FindAllPairs(chunk, 0);
    if |matches| == 1 then Some(matches[0])
    else if chunk != "" then Some(Chunk("", "", chunk))
    else None
  }

  // ---------------------------------------------------------------------
  // strip_tags and is_tagged_text

  /** The texts of the chunks, in order; the empty tuple split_chunk
      returns for an empty chunk has no text. */
  function ChunkTexts(chunks: seq<string>, namedFont: Value -> string): Result<string>
    decreases |chunks|
  {
    if chunks == [] then Ok("")
    else
      var c :- SplitChunk(chunks[0], namedFont);
      if c.None? then Err(NoText)
      else
        var rest :- ChunkTexts(chunks[1..], namedFont);
        Ok(c.value.text + rest)
  }

  /** strip_tags */
  function StripTags(text: string, namedFont: Value -> string): Result<string> {
    ChunkTexts(SplitTaggedText(text), namedFont)
  }

  /** is_tagged_text: the text is longer than its stripped form. */
  function IsTaggedText(text: string, namedFont: Value -> string): Result<bool> {
    var plain :- StripTags(text, namedFont);
    Ok(|text| > |plain|)
  }

  // ---------------------------------------------------------------------
  // Properties of the split

  /** The pieces, joined, give back the text from p on. */
  lemma {:induction false} SplitFromConcat(s: string, p: nat)
    requires p <= |s|
    ensures Concat(SplitFrom(s, p)) == s[p..]
    decreases |s| - p
  {
    match FindRegion(s, p)
    case None =>
      if p < |s| {
        ConcatOne(s[p..]);
      }
    case Some((a, e)) =>
      SplitFromConcat(s, e);
      var pre: seq<string> := if a == p then [] else [s[p..a]];
      assert SplitFrom(s, p) == pre + ([s[a..e]] + SplitFrom(s, e));
      ConcatAppend(pre, [s[a..e]] + SplitFrom(s, e));
      ConcatCons(s[a..e], SplitFrom(s, e));
      if a != p {
        ConcatOne(s[p..a]);
      }
      assert s[p..] == s[p..a] + (s[a..e] + s[e..]);
  }

  /** Joining the chunks reproduces the text. */
  lemma {:induction false} SplitTaggedTextConcat(text: string)
    ensures Concat(SplitTaggedText(text)) == text
  {
    SplitFromConcat(text, 0);
  }

  /** No piece is empty. */
  lemma {:induction false} SplitFromNonEmpty(s: string, p: nat)
    requires p <= |s|
    ensures forall i :: 0 <= i < |SplitFrom(s, p)| ==> SplitFrom(s, p)[i] != ""
    decreases |s| - p
  {
    match FindRegion(s, p)
    case None =>
    case Some((a, e)) =>
      SplitFromNonEmpty(s, e);
      var pre: seq<string> := if a == p then [] else [s[p..a]];
      var r := SplitFrom(s, p);
      assert r == pre + [s[a..e]] + SplitFrom(s, e);
      forall i | 0 <= i < |r|
        ensures r[i] != ""
      {
        if i >= |pre| + 1 {
          assert r[i] == SplitFrom(s, e)[i - |pre| - 1];
        }
      }
  }

  /** A text with no `<t` (in any case) has no region. */
  lemma {:induction false} FindRegionNone(s: string, p: nat)
    requires forall q :: p <= q < |s| ==> !LitAt(s, q, "<t")
    ensures FindRegion(s, p) == None
    decreases |s| - p
  {
    if p + 2 <= |s| {
      FindRegionNone(s, p + 1);
    }
  }

  /** A text with no `<t` (in any case) is one chunk, or none when empty. */
  lemma {:induction false} SplitUntagged(text: string)
    requires forall q :: 0 <= q < |text| ==> !LitAt(text, q, "<t")
    ensures SplitTaggedText(text) == if text == "" then [] else [text]
  {
    FindRegionNone(text, 0);
  }

  /** The region ends at the first stopping point j that closes: given the
      first close at k, RegionEnd finds it. */
  lemma {:induction false} RegionEndFirst(s: string, j: nat, k: nat)
    requires j <= k <= |s| && CloseAt(s, k).Some?
    requires forall i :: j <= i < k ==> CloseAt(s, i).None?
    ensures RegionEnd(s, j) == Some(k + CloseAt(s, k).value)
    decreases k - j
  {
    if j < k {
      RegionEndFirst(s, j + 1, k);
    }
  }

  /** Without a close at or after j there is no region end. */
  lemma {:induction false} RegionEndNone(s: string, j: nat)
    requires forall i :: j <= i <= |s| ==> CloseAt(s, i).None?
    ensures RegionEnd(s, j) == None
    decreases |s| + 1 - j
  {
    if j <= |s| {
      RegionEndNone(s, j + 1);
    }
  }

  /** The region taken is at the leftmost `<t` that has a close after it. */
  lemma {:induction false} FindRegionFirst(s: string, p: nat, a: nat)
    requires p <= a && a + 2 <= |s| && LitAt(s, a, "<t") && RegionEnd(s, a + 2).Some?
    requires forall b :: p <= b < a ==> !LitAt(s, b, "<t") || RegionEnd(s, b + 2).None?
    ensures FindRegion(s, p) == Some((a, RegionEnd(s, a + 2).value))
    decreases a - p
  {
    if p < a {
      FindRegionFirst(s, p + 1, a);
    }
  }

  /** Every region closes with '>' after a '/' followed by nothing, `t` or
      `tag`. */
  lemma {:induction false} RegionEndCloses(s: string, j: nat)
    requires RegionEnd(s, j).Some?
    ensures var e := RegionEnd(s, j).value;
      s[e - 1] == '>' && (s[e - 2] == '/' || (e >= 3 && s[e - 3] == '/' && Lower(s[e - 2]) == 't')
                                          || (e >= 5 && s[e - 5] == '/' && LitAt(s, e - 4, "tag")))
    decreases |s| + 1 - j
  {
    match CloseAt(s, j)
    case Some(n) =>
    case None =>
      RegionEndCloses(s, j + 1);
  }

  // ---------------------------------------------------------------------
  // Properties of split_chunk

  /** A literal without capitals is matched where it occurs verbatim. */
  lemma {:induction false} LitAtSlice(s: string, p: nat, lit: string)
    requires p + |lit| <= |s| && s[p..p + |lit|] == lit && LowerStr(lit) == lit
    ensures LitAt(s, p, lit)
    decreases |lit|
  {
    if |lit| > 0 {
      assert s[p] == lit[0];
      assert LowerStr(lit)[0] == Lower(lit[0]);
      var tl := lit[1..];
      assert s[p + 1..p + 1 + |tl|] == tl;
      assert LowerStr(tl) == tl by {
        forall i | 0 <= i < |tl|
          ensures LowerStr(tl)[i] == tl[i]
        {
          assert LowerStr(lit)[i + 1] == Lower(lit[i + 1]);
        }
      }
      LitAtSlice(s, p + 1, tl);
    }
  }

  predicate NoGt(x: string) {
    forall j :: 0 <= j < |x| ==> x[j] != '>'
  }

  /** The first '>' at or after i is the one that ends a run without '>'. */
  lemma {:induction false} NextGtAfterRun(s: string, i: nat, k: nat)
    requires i <= k < |s| && s[k] == '>' && NoGt(s[i..k])
    ensures NextGt(s, i) == k
    decreases k - i
  {
    if i < k {
      assert s[i] == s[i..k][0];
      assert s[i + 1..k] == s[i..k][1..];
      NextGtAfterRun(s, i + 1, k);
    }
  }

  /** The attributes and the text of a pair, as the pattern captures them:
      no '>' and, for the attributes, no leading whitespace. */
  predicate PairParts(tag: string, attrs: string, text: string, close: string) {
    (tag == "t" || tag == "tag") && (close == "t" || close == "tag")
    && NoGt(attrs) && (attrs == "" || !IsSpace(attrs[0])) && NoGt(text)
  }

  /** Where the parts of `<tag attrs>text</close>` sit. */
  predicate Layout(s: string, tag: string, attrs: string, text: string, close: string) {
    var q := 1 + |tag|;
    var g := q + 1 + |attrs|;
    |s| == g + 4 + |text| + |close|
    && s[..q] == "<" + tag && s[q] == ' ' && s[q + 1..g] == attrs && s[g] == '>'
    && s[g + 1..|s| - 1] == text + "</" + close && s[|s| - 1] == '>'
  }

  lemma {:induction false} PairTextLayout(tag: string, attrs: string, text: string, close: string)
    ensures Layout(PairText(tag, attrs, text, close), tag, attrs, text, close)
  {
    var s := PairText(tag, attrs, text, close);
    assert s == ("<" + tag) + [' '] + attrs + ['>'] + (text + "</" + close) + ['>'];
  }

  /** The tag group: `tag` when the text has it, else `t`. */
  lemma {:induction false} TagGroup(s: string, tag: string)
    requires tag == "t" || tag == "tag"
    requires |s| > 2 + |tag| && s[..1 + |tag|] == "<" + tag && s[1 + |tag|] == ' '
    ensures LitAt(s, 0, "<t")
    ensures LitAt(s, 1, "tag") <==> tag == "tag"
    ensures TagGroupEnd(s, 0) == 1 + |tag|
  {
    assert s[..2] == "<t";
    LitAtSlice(s, 0, "<t");
    if tag == "tag" {
      assert s[1..4] == "tag";
      LitAtSlice(s, 1, "tag");
    } else {
      assert s[2] == ' ';
    }
  }

  /** `\s*` takes the one space before the attributes. */
  lemma {:induction false} SpaceGroup(s: string, q: nat, attrs: string)
    requires q + 2 + |attrs| <= |s| && s[q] == ' ' && s[q + 1..q + 1 + |attrs|] == attrs
    requires s[q + 1 + |attrs|] == '>' && (attrs == "" || !IsSpace(attrs[0]))
    ensures SkipSpace(s, q) == q + 1
  {
    if attrs != "" {
      assert s[q + 1] == s[q + 1..q + 1 + |attrs|][0];
    }
  }

  lemma {:induction false} NoGtClose(text: string, close: string)
    requires NoGt(text) && (close == "t" || close == "tag")
    ensures NoGt(text + "</" + close)
  {
    var x := text + "</" + close;
    forall j | 0 <= j < |x|
      ensures x[j] != '>'
    {
      if j < |text| {
        assert x[j] == text[j];
      }
    }
  }

  /** The closing tag is `</t>` or `</tag>`, and only the matching test
      holds. */
  lemma {:induction false} CloseGroup(s: string, t: nat, close: string)
    requires close == "t" || close == "tag"
    requires t + 3 + |close| == |s| && s[t..|s| - 1] == "</" + close && s[|s| - 1] == '>'
    ensures close == "t" ==> LitAt(s, |s| - 4, "</t>")
    ensures close == "tag" ==> !LitAt(s, |s| - 4, "</t>") && LitAt(s, |s| - 6, "</tag>")
  {
    assert s[t..] == s[t..|s| - 1] + [s[|s| - 1]];
    if close == "t" {
      ClosingAt(s, t, "</t>");
    } else {
      ClosingAt(s, t, "</tag>");
      assert s[|s| - 4] == s[t..][2];
    }
  }

  /** A closing tag without capitals at the end of s is found there. */
  lemma {:induction false} ClosingAt(s: string, t: nat, lit: string)
    requires t + |lit| == |s| && s[t..] == lit
    requires forall i :: 0 <= i < |lit| ==> !('A' <= lit[i] <= 'Z')
    ensures LitAt(s, t, lit)
  {
    LowerOfLower(lit);
    LitAtSlice(s, t, lit);
  }

  /** The closing tag follows the text. */
  lemma {:induction false} CloseAfterText(s: string, g: nat, text: string, close: string)
    requires g + 4 + |text| + |close| == |s| && s[g + 1..|s| - 1] == text + "</" + close
    ensures s[g + 1 + |text|..|s| - 1] == "</" + close
  {
    assert s[g + 1 + |text|..|s| - 1] == s[g + 1..|s| - 1][|text|..];
  }

  /** The text group ends where the closing tag starts. */
  lemma {:induction false} TextGroup(s: string, g: nat, text: string, close: string)
    requires g + 4 + |text| + |close| == |s| && s[g + 1..|s| - 1] == text + "</" + close
    ensures s[g + 1..|s| - 3 - |close|] == text
  {
    assert s[g + 1..|s| - 3 - |close|] == s[g + 1..|s| - 1][..|text|];
  }

  /** The text and the closing tag after the `>` at g. */
  lemma {:induction false} PairCloseLayout(s: string, g: nat, tag: string, attrs: string, text: string, close: string)
    requires close == "t" || close == "tag"
    requires g + 4 + |text| + |close| == |s| && s[g + 1..|s| - 1] == text + "</" + close && s[|s| - 1] == '>'
    ensures PairClose(s, tag, attrs, g, |s| - 1) == Some((Chunk(tag, attrs, text), |s|))
  {
    CloseAfterText(s, g, text, close);
    CloseGroup(s, g + 1 + |text|, close);
    TextGroup(s, g, text, close);
    if close == "t" {
      PairCloseShort(s, tag, attrs, g, |s| - 1);
    } else {
      PairCloseLong(s, tag, attrs, g, |s| - 1);
    }
  }

  lemma {:induction false} PairCloseShort(s: string, tag: string, attrs: string, g: nat, g2: nat)
    requires g + 4 <= g2 < |s| && LitAt(s, g2 - 3, "</t>")
    ensures PairClose(s, tag, attrs, g, g2) == Some((Chunk(tag, attrs, s[g + 1..g2 - 3]), g2 + 1))
  {
  }

  lemma {:induction false} PairCloseLong(s: string, tag: string, attrs: string, g: nat, g2: nat)
    requires g + 6 <= g2 < |s| && !LitAt(s, g2 - 3, "</t>") && LitAt(s, g2 - 5, "</tag>")
    ensures PairClose(s, tag, attrs, g, g2) == Some((Chunk(tag, attrs, s[g + 1..g2 - 5]), g2 + 1))
  {
  }

  lemma {:induction false} PairAtLayout(s: string, tag: string, attrs: string, text: string, close: string)
    requires PairParts(tag, attrs, text, close) && Layout(s, tag, attrs, text, close)
    ensures PairAt(s, 0) == Some((Chunk(tag, attrs, text), |s|))
  {
    var q := 1 + |tag|;
    var g := q + 1 + |attrs|;
    TagGroup(s, tag);
    SpaceGroup(s, q, attrs);
    NextGtAfterRun(s, q + 1, g);
    NoGtClose(text, close);
    NextGtAfterRun(s, g + 1, |s| - 1);
    assert s[1..q] == tag by {
      assert s[1..q] == s[..q][1..];
    }
    PairAtParts(s, q, q + 1, g, |s| - 1);
    PairCloseLayout(s, g, tag, attrs, text, close);
  }

  /** The pattern at 0 once its groups are known to end at q, a, g, g2. */
  lemma {:induction false} PairAtParts(s: string, q: nat, a: nat, g: nat, g2: nat)
    requires LitAt(s, 0, "<t") && TagGroupEnd(s, 0) == q && 0 < q <= |s|
    requires SkipSpace(s, q) == a && NextGt(s, a) == g && g < |s| && NextGt(s, g + 1) == g2
    ensures PairAt(s, 0) == PairClose(s, s[1..q], s[a..g], g, g2)
  {
  }

  /** The pair pattern at the start of `<tag attrs>text</close>` captures
      tag, attrs and text and runs to the end. */
  lemma {:induction false} PairAtWhole(tag: string, attrs: string, text: string, close: string)
    requires PairParts(tag, attrs, text, close)
    ensures PairAt(PairText(tag, attrs, text, close), 0)
         == Some((Chunk(tag, attrs, text), |PairText(tag, attrs, text, close)|))
  {
    PairTextLayout(tag, attrs, text, close);
    PairAtLayout(PairText(tag, attrs, text, close), tag, attrs, text, close);
  }

  lemma {:induction false} ReadWholePair(tag: string, attrs: string, text: string, close: string)
    requires PairParts(tag, attrs, text, close)
    ensures ReadPair(PairText(tag, attrs, text, close)) == Some(Chunk(tag, attrs, text))
  {
    var s := PairText(tag, attrs, text, close);
    PairAtWhole(tag, attrs, text, close);
    assert FindAllPairs(s, 0) == [Chunk(tag, attrs, text)];
  }

  /** A single pair `<t|tag ATTRS>TEXT</t|tag>` splits into its tag, its
      attributes and its text. */
  lemma {:induction false} PairChunk(tag: string, attrs: string, text: string, close: string, namedFont: Value -> string)
    requires PairParts(tag, attrs, text, close)
    ensures SplitChunk(PairText(tag, attrs, text, close), namedFont) == Ok(Some(Chunk(tag, attrs, text)))
  {
    var s := PairText(tag, attrs, text, close);
    assert s[|s| - 2] != '/';
    ReadWholePair(tag, attrs, text, close);
  }

  lemma {:induction false} NoPairs(s: string, p: nat)
    requires forall q :: 0 <= q < |s| ==> !LitAt(s, q, "<t")
    ensures FindAllPairs(s, p) == []
    decreases |s| - p
  {
    if p < |s| {
      NoPairs(s, p + 1);
    }
  }

  /** A non-empty chunk without `<t` in any letter case (such as `a < b`)
      is plain text with no tag or attributes; the empty chunk gives the
      empty tuple. */
  lemma {:induction false} PlainChunk(s: string, namedFont: Value -> string)
    requires forall q :: 0 <= q < |s| ==> !LitAt(s, q, "<t")
    ensures SplitChunk(s, namedFont) == Ok(if s == "" then None else Some(Chunk("", "", s)))
  {
    NoPairs(s, 0);
  }

  /** `<tag attrs/>` with a tag word and attributes that do not start
      with whitespace: split(None, 1) yields `<tag` and `attrs/>`. */
  lemma {:induction false} SelfClosingWords(tag: string, attrs: string)
    requires NoSpace(tag) && (attrs == "" || !IsSpace(attrs[0]))
    ensures var chunk := "<" + tag + " " + attrs + "/>";
      WordRun(chunk) == 1 + |tag| && chunk[..1 + |tag|] == "<" + tag
      && LStrip(chunk[1 + |tag|..]) == attrs + "/>"
  {
    var chunk := "<" + tag + " " + attrs + "/>";
    assert NoSpace("<" + tag) by {
      forall i | 0 <= i < |"<" + tag|
        ensures !IsSpace(("<" + tag)[i])
      {
        if i > 0 { assert ("<" + tag)[i] == tag[i - 1]; }
      }
    }
    assert chunk == ("<" + tag) + (" " + attrs + "/>");
    WordRunAppend("<" + tag, " " + attrs + "/>");
    var rest := attrs + "/>";
    assert chunk[1 + |tag|..] == [' '] + rest;
    SpaceRunAppend([' '], rest);
  }

  /** The pair form of `<tag attrs/>`: the pair of the re-encoded
      attributes and the text, or the failure of the re-encoding. */
  lemma {:induction false} SelfClosingForm(tag: string, attrs: string, namedFont: Value -> string)
    requires NoSpace(tag) && (attrs == "" || !IsSpace(attrs[0]))
    ensures var r := Reencoded(attrs, namedFont);
      PairForm("<" + tag + " " + attrs + "/>", namedFont)
      == if r.Err? then Err(r.error) else Ok(PairText(tag, r.value.0, r.value.1, tag))
  {
    SelfClosingWords(tag, attrs);
    var rest := attrs + "/>";
    assert rest[..|rest| - 2] == attrs;
    var chunk := "<" + tag + " " + attrs + "/>";
    assert Drop(chunk[..1 + |tag|], 1) == tag;
  }

  lemma {:induction false} SelfClosingTag(tag: string, attrs: string)
    requires tag == "t" || tag == "tag"
    ensures SelfClosing("<" + tag + " " + attrs + "/>")
  {
    var chunk := "<" + tag + " " + attrs + "/>";
    assert chunk[..2] == "<t" && chunk[|chunk| - 2..] == "/>";
    LitAtSlice(chunk, 0, "<t");
  }

  /** A self-closing chunk is decoded, its text attribute taken out, and
      encoded again as a pair: a failure of either raises, and a pair the
      pattern can read gives the tag, the new attributes and the text. */
  lemma {:induction false} SelfClosingChunk(tag: string, attrs: string, namedFont: Value -> string)
    requires (tag == "t" || tag == "tag") && (attrs == "" || !IsSpace(attrs[0]))
    ensures var r := Reencoded(attrs, namedFont);
      r.Err? ==> SplitChunk("<" + tag + " " + attrs + "/>", namedFont) == Err(r.error)
    ensures var r := Reencoded(attrs, namedFont);
      r.Ok? && PairParts(tag, r.value.0, r.value.1, tag)
      ==> SplitChunk("<" + tag + " " + attrs + "/>", namedFont) == Ok(Some(Chunk(tag, r.value.0, r.value.1)))
  {
    SelfClosingTag(tag, attrs);
    SelfClosingForm(tag, attrs, namedFont);
    var r := Reencoded(attrs, namedFont);
    if r.Ok? && PairParts(tag, r.value.0, r.value.1, tag) {
      ReadWholePair(tag, r.value.0, r.value.1, tag);
    }
  }

  /** A self-closing chunk with nothing after the tag word raises. */
  lemma {:induction false} SelfClosingBare(chunk: string, namedFont: Value -> string)
    requires SelfClosing(chunk) && NoSpace(chunk)
    ensures SplitChunk(chunk, namedFont) == Err(NoAttributes(chunk))
  {
    WordRunAppend(chunk, []);
    assert chunk + [] == chunk;
  }

  /** A non-empty chunk always gives a triple, never the empty tuple. */
  lemma {:induction false} SplitChunkTriple(chunk: string, namedFont: Value -> string)
    requires chunk != "" && SplitChunk(chunk, namedFont).Ok?
    ensures SplitChunk(chunk, namedFont).value.Some?
  {
  }

  // ---------------------------------------------------------------------
  // Properties of strip_tags and is_tagged_text

  lemma {:induction false} NoLtNoTag(s: string)
    requires forall i :: 0 <= i < |s| ==> s[i] != '<'
    ensures forall q :: 0 <= q < |s| ==> !LitAt(s, q, "<t")
  {
  }

  /** Text without `<t` in any letter case is its own plain text, and is
      not tagged. */
  lemma {:induction false} StripPlain(text: string, namedFont: Value -> string)
    requires forall q :: 0 <= q < |text| ==> !LitAt(text, q, "<t")
    ensures StripTags(text, namedFont) == Ok(text)
    ensures IsTaggedText(text, namedFont) == Ok(false)
  {
    SplitUntagged(text);
    if text != "" {
      PlainChunk(text, namedFont);
      assert [text][1..] == [];
      assert ChunkTexts([], namedFont) == Ok("");
      assert ChunkTexts([text], namedFont) == Ok(text + "");
      assert text + "" == text;
      assert StripTags(text, namedFont) == Ok(text);
    } else {
      assert StripTags(text, namedFont) == ChunkTexts([], namedFont);
    }
  }

  predicate NoSlash(x: string) {
    forall j :: 0 <= j < |x| ==> x[j] != '/'
  }

  lemma {:induction false} NoSlashAppend(a: string, b: string)
    requires NoSlash(a) && NoSlash(b)
    ensures NoSlash(a + b)
  {
    forall j | 0 <= j < |a + b|
      ensures (a + b)[j] != '/'
    {
      if j >= |a| {
        assert (a + b)[j] == b[j - |a|];
      }
    }
  }

  /** Everything between `<` and the '/' of the closing tag. */
  lemma {:induction false} PairInterior(tag: string, attrs: string, text: string, close: string)
    ensures PairText(tag, attrs, text, close)
         == "<" + (tag + " " + attrs + ">" + text + "<") + "/" + (close + ">")
  {
  }

  /** The closing tag closes the region: `t>` or `tag>` after its '/'. */
  lemma {:induction false} PairCloses(s: string, k: nat, close: string)
    requires close == "t" || close == "tag"
    requires 0 < k && k + |close| + 1 == |s| && s[k - 1] == '/' && s[k..] == close + ">"
    ensures CloseAt(s, k) == Some(|close| + 1)
  {
    if close == "tag" {
      LitAtSlice(s, k, "tag>");
    } else {
      assert s[k + 1] == '>';
      LitAtSlice(s, k, "t>");
    }
  }

  /** In `<tag attrs>text</close>` with no '/' in attrs or text, the only
      close is the closing tag, so the region is the whole pair. */
  lemma {:induction false} PairRegion(tag: string, attrs: string, text: string, close: string)
    requires PairParts(tag, attrs, text, close) && NoSlash(attrs) && NoSlash(text)
    ensures RegionEnd(PairText(tag, attrs, text, close), 2) == Some(|PairText(tag, attrs, text, close)|)
  {
    var s := PairText(tag, attrs, text, close);
    var mid := tag + " " + attrs + ">" + text + "<";
    var k := |mid| + 2;
    PairInterior(tag, attrs, text, close);
    assert s[1..k - 1] == mid && s[k - 1] == '/' && s[k..] == close + ">";
    assert NoSlash(mid) by {
      assert NoSlash(tag + " ") && NoSlash(">") && NoSlash("<");
      NoSlashAppend(tag + " ", attrs);
      NoSlashAppend(tag + " " + attrs, ">");
      NoSlashAppend(tag + " " + attrs + ">", text);
      NoSlashAppend(tag + " " + attrs + ">" + text, "<");
    }
    forall i | 2 <= i < k
      ensures CloseAt(s, i).None?
    {
      assert s[i - 1] == mid[i - 2];
    }
    PairCloses(s, k, close);
    RegionEndFirst(s, 2, k);
  }

  /** Matching after a prefix is matching in the rest. */
  lemma {:induction false} LitAtShift(pre: string, t: string, j: nat, lit: string)
    ensures LitAt(pre + t, |pre| + j, lit) == LitAt(t, j, lit)
    decreases |lit|
  {
    if |lit| > 0 {
      LitAtShift(pre, t, j + 1, lit[1..]);
      if j < |t| {
        assert (pre + t)[|pre| + j] == t[j];
      }
    }
  }

  lemma {:induction false} CloseAtShift(pre: string, t: string, j: nat)
    requires j >= 1
    ensures CloseAt(pre + t, |pre| + j) == CloseAt(t, j)
  {
    LitAtShift(pre, t, j, "tag>");
    LitAtShift(pre, t, j, "t>");
    LitAtShift(pre, t, j, ">");
    if j <= |t| {
      assert (pre + t)[|pre| + j - 1] == t[j - 1];
    }
  }

  lemma {:induction false} RegionEndShift(pre: string, t: string, j: nat)
    requires j >= 1
    ensures RegionEnd(pre + t, |pre| + j)
         == if RegionEnd(t, j).Some? then Some(|pre| + RegionEnd(t, j).value) else None
    decreases |t| + 1 - j
  {
    if j <= |t| {
      CloseAtShift(pre, t, j);
      RegionEndShift(pre, t, j + 1);
    }
  }

  /** Plain text followed by one pair: the pair is the first region. */
  lemma {:induction false} PlainPairRegion(pre: string, t: string)
    requires forall i :: 0 <= i < |pre| ==> pre[i] != '<'
    requires LitAt(t, 0, "<t") && RegionEnd(t, 2) == Some(|t|)
    ensures FindRegion(pre + t, 0) == Some((|pre|, |pre + t|))
  {
    var s := pre + t;
    RegionEndShift(pre, t, 2);
    LitAtShift(pre, t, 0, "<t");
    forall b | 0 <= b < |pre|
      ensures !LitAt(s, b, "<t")
    {
      assert s[b] == pre[b];
    }
    FindRegionFirst(s, 0, |pre|);
  }

  /** ... and the only one. */
  lemma {:induction false} SplitPlainPair(pre: string, tag: string, attrs: string, text: string, close: string)
    requires forall i :: 0 <= i < |pre| ==> pre[i] != '<'
    requires PairParts(tag, attrs, text, close) && NoSlash(attrs) && NoSlash(text)
    ensures SplitTaggedText(pre + PairText(tag, attrs, text, close))
         == (if pre == "" then [] else [pre]) + [PairText(tag, attrs, text, close)]
  {
    var t := PairText(tag, attrs, text, close);
    var s := pre + t;
    PairRegion(tag, attrs, text, close);
    PairTextLayout(tag, attrs, text, close);
    assert t[..2] == "<t" by {
      assert t[..2] == t[..1 + |tag|][..2];
    }
    LitAtSlice(t, 0, "<t");
    PlainPairRegion(pre, t);
    assert SplitFrom(s, |s|) == [];
    assert s[|pre|..|s|] == t && s[0..|pre|] == pre;
  }

  /** strip_tags of plain text and a pair: the plain text, then the
      pair's text; such a text counts as tagged. */
  lemma {:induction false} StripPlainPair(pre: string, tag: string, attrs: string, text: string, close: string,
                                          namedFont: Value -> string)
    requires forall i :: 0 <= i < |pre| ==> pre[i] != '<'
    requires PairParts(tag, attrs, text, close) && NoSlash(attrs) && NoSlash(text)
    ensures StripTags(pre + PairText(tag, attrs, text, close), namedFont) == Ok(pre + text)
    ensures IsTaggedText(pre + PairText(tag, attrs, text, close), namedFont) == Ok(true)
  {
    var t := PairText(tag, attrs, text, close);
    SplitPlainPair(pre, tag, attrs, text, close);
    PairChunk(tag, attrs, text, close, namedFont);
    assert [t][1..] == [];
    assert ChunkTexts([t], namedFont) == Ok(text + "");
    assert text + "" == text;
    if pre != "" {
      NoLtNoTag(pre);
      PlainChunk(pre, namedFont);
      assert [pre, t][1..] == [t];
    } else {
      assert pre + t == t && pre + text == text;
    }
  }

  /** strip_tags('one <t b>bold</t>') == 'one bold' */
  lemma {:induction false} StripExample(text: string, namedFont: Value -> string)
    requires text == "one <t b>bold</t>"
    ensures StripTags(text, namedFont) == Ok("one bold")
  {
    ExampleLayout();
    ExampleParts();
    StripPlainPair("one ", "t", "b", "bold", "t", namedFont);
    assert "one " + "bold" == "one bold";
  }

  lemma {:induction false} ExampleLayout()
    ensures "one " + PairText("t", "b", "bold", "t") == "one <t b>bold</t>"
    ensures forall i :: 0 <= i < |"one "| ==> "one "[i] != '<'
  {
  }

  lemma {:induction false} ExampleParts()
    ensures PairParts("t", "b", "bold", "t") && NoSlash("b") && NoSlash("bold")
  {
  }
}
