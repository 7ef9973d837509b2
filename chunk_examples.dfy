/**
 * The two split_chunk examples of the documentation, worked through the
 * decoder and the encoder: `<tag fg=red>red</tag>` and the self-closing
 * `<tag bitmap=question />`.
 */
module ChunkExamples {
  import opened Base
  import opened Strs
  import opened Dicts
  import opened Quoting
  import opened Tokenizer
  import opened DictOps
  import opened Decode
  import opened Encode
  import opened Chunks

  /** A word and a trailing blank: the split leaves the word, the blank
      and an empty last word. */
  lemma {:induction false} TrailingBlankPieces(w: string)
    requires NoSpace(w) && w != [] && w[|w| - 1] != '='
    ensures SplitOnSpace(NormalizeEquals(w + " ")) == [w, " ", ""]
  {
    NormWordPrefix(w, " ");
    assert NormalizeEquals(" ") == " ";
    assert w + " " == w + (" " + "");
    SplitOnSpaceStep(w, " ", "");
    assert SplitOnSpace("") == [""];
  }

  lemma {:induction false} TrailingBlankScan(w: string)
    requires NoSpace(w) && w != [] && !IsQuoteChar(w[|w| - 1])
    ensures ScanPieces(Start, [w, " ", ""]) == Scan(["", w], None, [])
  {
    var ps := [w, " ", ""];
    assert ps[1..] == [" ", ""] && ps[1..][1..] == [""];
    assert ScanPieces(Start, [""]) == Scan([""], None, []);
    assert ScanPieces(Start, [" ", ""]) == Scan([""], None, []);
    assert !IsSpaceStr(w);
  }

  /** split_attrs of a field followed by a blank: the field and an empty
      field, which parse_tag_attrs then skips. */
  lemma {:induction false} TrailingBlankFields(w: string)
    requires NoSpace(w) && w != [] && w[|w| - 1] != '=' && !IsQuoteChar(w[|w| - 1])
    ensures AttrFields(w + " ") == Ok([w, ""])
  {
    TrailingBlankPieces(w);
    TrailingBlankScan(w);
    assert Reverse(["", w]) == [w, ""];
  }

  // ---------------------------------------------------------------------
  // <tag fg=red>red</tag>

  /** split_chunk('<tag fg=red>red</tag>') == ('tag', 'fg=red', 'red') */
  lemma {:induction false} PairExample(chunk: string, namedFont: Value -> string)
    requires chunk == "<tag fg=red>red</tag>"
    ensures SplitChunk(chunk, namedFont) == Ok(Some(Chunk("tag", "fg=red", "red")))
  {
    PairExampleText();
    PairExampleParts();
    PairChunk("tag", "fg=red", "red", "tag", namedFont);
  }

  lemma {:induction false} PairExampleText()
    ensures PairText("tag", "fg=red", "red", "tag") == "<tag fg=red>red</tag>"
  {
  }

  lemma {:induction false} PairExampleParts()
    ensures PairParts("tag", "fg=red", "red", "tag")
  {
  }

  // ---------------------------------------------------------------------
  // <tag bitmap=question />
  //
  // The strings are parameters equal to the literals, so that the verifier
  // reasons about them step by step instead of evaluating every function
  // on the literals.

  /** A non-empty word of small letters. */
  predicate Lowercase(s: string) {
    |s| > 0 && forall i :: 0 <= i < |s| ==> 'a' <= s[i] <= 'z'
  }

  /** The example's key and value. */
  predicate BitmapQuestion(k: string, v: string) {
    k == "bitmap" && v == "question"
  }

  lemma {:induction false} BitmapLowercase(k: string, v: string)
    requires BitmapQuestion(k, v)
    ensures Lowercase(k) && Lowercase(v) && v != "None"
  {
  }

  lemma {:induction false} LowercaseWord(s: string)
    requires Lowercase(s)
    ensures NoSpace(s) && !IsSpace(s[0]) && !IsSpace(s[|s| - 1])
    ensures !IsQuoteChar(s[|s| - 1]) && !Enclosed(s)
    ensures LowerStr(s) == s && '=' !in s
  {
    SmallWord(s);
  }

  /** quote leaves a small-letter word alone. */
  lemma {:induction false} LowercaseNoQuotes(s: string)
    requires Lowercase(s)
    ensures !NeedsQuotes(s)
  {
    LowercaseWord(s);
    ContainsChar(s, ' ');
    assert ' ' !in s;
    assert SpaceRun(s) == 0;
    assert LStrip(s) == s;
    WordRunAppend(s, []);
    assert s + [] == s;
    assert s[|s|..] == [];
    assert Words(s) == [s[..|s|]] + Words([]);
  }

  /** The field k=v of two small-letter words is one blank-free word. */
  lemma {:induction false} LowercaseField(k: string, v: string)
    requires Lowercase(k) && Lowercase(v)
    ensures var w := k + "=" + v;
      NoSpace(w) && !IsSpace(w[0]) && !IsSpace(w[|w| - 1])
      && w[|w| - 1] != '=' && !IsQuoteChar(w[|w| - 1])
  {
    LowercaseWord(k);
    LowercaseWord(v);
    var w := k + "=" + v;
    assert forall i :: 0 <= i < |w| ==> w[i] == '=' || 'a' <= w[i] <= 'z';
  }

  /** The one field `bitmap=question` sets the bitmap option. */
  lemma {:induction false} BitmapApplied(st: Attrs, k: string, v: string)
    requires BitmapQuestion(k, v)
    ensures ApplyField(st, k + "=" + v, false) == Ok(SetOption(st, k, VStr(v)))
  {
    BitmapLowercase(k, v);
    LowercaseWord(k);
    LowercaseWord(v);
    SplitKeyValue(k, v);
    UnquoteUnchanged(VStr(v));
    BitmapField(st, k + "=" + v, k, VStr(v), false);
  }

  /** The empty field a trailing blank leaves changes nothing. */
  lemma {:induction false} BlankField(st: Attrs, auto: bool)
    ensures ApplyField(st, "", auto) == Ok(st)
  {
  }

  lemma {:induction false} FieldThenBlank(st: Attrs, w: string, st1: Attrs, auto: bool)
    requires ApplyField(st, w, auto) == Ok(st1)
    ensures ApplyFields(st, [w, ""], auto) == Ok(st1)
  {
    BlankField(st1, auto);
    var fs := [w, ""];
    assert fs[1..] == [""] && fs[1..][1..] == [];
    assert ApplyFields(st1, [], auto) == Ok(st1);
  }

  /** parse_tag_attrs("bitmap=question ") */
  lemma {:induction false} BitmapDecoded(k: string, v: string)
    requires BitmapQuestion(k, v)
    ensures TagAttrs(k + "=" + v + " ", Attrs([], [], ""), false) == Ok(Attrs([(k, VStr(v))], [], ""))
  {
    BitmapLowercase(k, v);
    LowercaseField(k, v);
    var w := k + "=" + v;
    TrailingBlankFields(w);
    var st0 := Attrs([], [], "");
    BitmapApplied(st0, k, v);
    var st1 := SetOption(st0, k, VStr(v));
    assert st1 == Attrs([(k, VStr(v))], [], "");
    FieldThenBlank(st0, w, st1, false);
  }

  /** With no font, no case and no keyword arguments, the encoder walks
      the single option as it is. */
  lemma {:induction false} BitmapMerged(k: string, v: string)
    ensures Merged([(k, VStr(v))], [], VStr(""), []) == [(k, VStr(v))]
  {
    var opts := [(k, VStr(v))];
    assert CaseArg(VStr(""), []) == VStr("");
    var f := FontToOptions([]);
    assert f == [];
    assert Update([], opts) == opts by {
      assert Put([], k, VStr(v)) == opts;
      assert opts[1..] == [];
    }
    var ds: seq<Dict> := [opts, f, []];
    assert ds[1..] == [f, []] && ds[1..][1..] == [[]] && ds[1..][1..][1..] == [];
    calc {
      MergeDicts([], ds);
      MergeDicts(Update([], opts), ds[1..]);
      MergeDicts(opts, ds[1..]);
      MergeDicts(Update(opts, f), ds[1..][1..]);
      MergeDicts(opts, ds[1..][1..]);
      MergeDicts(Update(opts, []), ds[1..][1..][1..]);
      MergeDicts(opts, []);
    }
  }

  lemma {:induction false} ImageAppended(fl: Flags, m: KeyMode, fmt: string, k: string, val: Value)
    requires GenRoute(k) == GImage && !fl.auto
    ensures GenItem(fl, m, fmt, k, val) == fmt + Token(KeyOut(m, k), ValueStr(OutValue(val)))
  {
    assert Appended(fl, m, fmt, k, val) == Token(KeyOut(m, k), ValueStr(OutValue(val)));
  }

  lemma {:induction false} GivenSpelling(fl: Flags, k: string)
    requires LowerStr(k) == k && k !in ControlKeys && GenRoute(k) == GImage && fl.kmode == ""
    ensures !Skipped(LowerStr(k), fl.extend) && ParseKeyMode(fl.kmode) == Some(AsGiven)
  {
  }

  /** An image option, given in the default spelling without auto-defaults,
      is written back as its own field followed by a blank. */
  lemma {:induction false} ImageGenField(fl: Flags, k: string, v: string)
    requires LowerStr(k) == k && k !in ControlKeys && GenRoute(k) == GImage
    requires fl.kmode == "" && !fl.auto && v != [] && !NeedsQuotes(v)
    ensures GenField(fl, "", k, VStr(v)) == Ok(k + "=" + v + " ")
  {
    QuoteUnchanged(VStr(v));
    assert OutValue(VStr(v)) == VStr(v);
    GivenSpelling(fl, k);
    ImageAppended(fl, AsGiven, "", k, VStr(v));
    assert "" + Token(k, v) == k + "=" + v + " ";
  }

  lemma {:induction false} BitmapKey(k: string)
    requires k == "bitmap"
    ensures k !in ControlKeys && GenRoute(k) == GImage
  {
    GenBitmap();
  }

  lemma {:induction false} BitmapGenField(k: string, v: string, fl: Flags)
    requires BitmapQuestion(k, v) && fl.kmode == "" && !fl.auto
    ensures GenField(fl, "", k, VStr(v)) == Ok(k + "=" + v + " ")
  {
    BitmapLowercase(k, v);
    LowercaseWord(k);
    LowercaseNoQuotes(v);
    BitmapKey(k);
    ImageGenField(fl, k, v);
  }

  /** gen_tag_attrs of the bitmap option alone, in the default spelling and
      without auto-defaults. */
  lemma {:induction false} BitmapEncoded(k: string, v: string, namedFont: Value -> string)
    requires BitmapQuestion(k, v)
    ensures TagAttrsText([(k, VStr(v))], [], VStr(""), [], Flags("", false, false, namedFont))
         == Ok(k + "=" + v)
  {
    var opts := [(k, VStr(v))];
    var fl := Flags("", false, false, namedFont);
    BitmapMerged(k, v);
    BitmapGenField(k, v, fl);
    assert opts[1..] == [];
    assert GenFields(fl, "", opts) == Ok(k + "=" + v + " ");
    BitmapLowercase(k, v);
    LowercaseField(k, v);
    TrailingBlankStrip(k + "=" + v);
  }

  lemma {:induction false} BitmapReencoded(k: string, v: string, namedFont: Value -> string)
    requires BitmapQuestion(k, v)
    ensures Reencoded(k + "=" + v + " ", namedFont) == Ok((k + "=" + v, ""))
  {
    BitmapDecoded(k, v);
    BitmapEncoded(k, v, namedFont);
    var opts := [(k, VStr(v))];
    assert Get(opts, "text") == None;
    assert Remove(opts, "text") == opts;
  }

  /** split_chunk('<tag bitmap=question />') == ('tag', 'bitmap=question', ''):
      decoded, re-encoded, and read as a pair with an empty text. */
  lemma {:induction false} SelfClosingExample(k: string, v: string, namedFont: Value -> string)
    requires BitmapQuestion(k, v)
    ensures SplitChunk("<tag " + k + "=" + v + " />", namedFont) == Ok(Some(Chunk("tag", k + "=" + v, "")))
  {
    var attrs := k + "=" + v + " ";
    assert "<tag " + k + "=" + v + " />" == "<" + "tag" + " " + attrs + "/>";
    BitmapReencoded(k, v, namedFont);
    BitmapLowercase(k, v);
    LowercaseField(k, v);
    assert PairParts("tag", k + "=" + v, "", "tag");
    SelfClosingChunk("tag", attrs, namedFont);
  }
}
