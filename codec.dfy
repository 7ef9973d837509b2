/**
 * The encoder and the decoder together: the tokens gen_tag_attrs writes
 * for the font flags and for weight and slant read back through
 * parse_tag_attrs as the font attributes they came from, in each of the
 * three key spellings; and a whole dict of plain options is written out as
 * `key=value` fields and read back as the same dict.
 */
module Codec {
  import opened Base
  import opened Strs
  import opened Dicts
  import opened Aliases
  import opened Quoting
  import opened Tokenizer
  import opened DictOps
  import opened Decode
  import opened Encode

  /** The field `k=1` or `k=0` of a 0/1 token. */
  function FlagField(k: string, b: bool): string {
    k + "=" + Flag(b)
  }

  lemma {:induction false} FlagFieldSplits(k: string, b: bool)
    requires '=' !in k
    ensures IsField(FlagField(k, b), k, VStr(Flag(b)))
    ensures Affirmative(VStr(Flag(b))) == b
  {
    SplitKeyValue(k, Flag(b));
    UnquoteUnchanged(VStr(Flag(b)));
  }

  lemma {:induction false} LowerFunderline()
    ensures LowerStr("funderline") == "funderline"
    ensures '=' !in "funderline"
  {
    SmallWord("funderline");
  }

  lemma {:induction false} LowerU()
    ensures LowerStr("u") == "u"
    ensures '=' !in "u"
  {
    SmallWord("u");
  }

  lemma {:induction false} LowerFoverstrike()
    ensures LowerStr("foverstrike") == "foverstrike"
    ensures '=' !in "foverstrike"
  {
    SmallWord("foverstrike");
  }

  lemma {:induction false} LowerO()
    ensures LowerStr("o") == "o"
    ensures '=' !in "o"
  {
    SmallWord("o");
  }

  lemma {:induction false} LowerBold()
    ensures LowerStr("bold") == "bold"
    ensures '=' !in "bold"
  {
    SmallWord("bold");
  }

  lemma {:induction false} LowerB()
    ensures LowerStr("b") == "b"
    ensures '=' !in "b"
  {
    SmallWord("b");
  }

  lemma {:induction false} LowerItalic()
    ensures LowerStr("italic") == "italic"
    ensures '=' !in "italic"
  {
    SmallWord("italic");
  }

  lemma {:induction false} LowerI()
    ensures LowerStr("i") == "i"
    ensures '=' !in "i"
  {
    SmallWord("i");
  }

  /** kfunc("funderline"): its alias in the alias spelling, else the name. */
  lemma {:induction false} FUnderlineName(m: KeyMode)
    ensures KFunc(m, "funderline") == if m == AliasNames then "u" else "funderline"
  {
    assert Aliased("funderline") == Some("u");
  }

  lemma {:induction false} FUnderlineToken(k: string, b: bool, st: Attrs, auto: bool)
    requires k == "u" || k == "funderline"
    ensures ApplyField(st, FlagField(k, b), auto) == Ok(SetFont(st, "underline", VInt(if b then 1 else 0)))
  {
    if k == "u" { LowerU(); } else { LowerFunderline(); }
    FlagFieldSplits(k, b);
    FUnderlineField(st, FlagField(k, b), k, VStr(Flag(b)), auto);
  }

  /** The funderline token, in any spelling, reads back as the font's
      underline flag. */
  lemma {:induction false} FUnderlineRoundTrip(m: KeyMode, b: bool, st: Attrs, auto: bool)
    ensures ApplyField(st, FlagField(KFunc(m, "funderline"), b), auto) == Ok(SetFont(st, "underline", VInt(if b then 1 else 0)))
  {
    FUnderlineName(m);
    FUnderlineToken(KFunc(m, "funderline"), b, st, auto);
  }

  /** kfunc("foverstrike"): its alias in the alias spelling, else the name. */
  lemma {:induction false} FOverstrikeName(m: KeyMode)
    ensures KFunc(m, "foverstrike") == if m == AliasNames then "o" else "foverstrike"
  {
    assert Aliased("foverstrike") == Some("o");
  }

  lemma {:induction false} FOverstrikeToken(k: string, b: bool, st: Attrs, auto: bool)
    requires k == "o" || k == "foverstrike"
    ensures ApplyField(st, FlagField(k, b), auto) == Ok(SetFont(st, "overstrike", VInt(if b then 1 else 0)))
  {
    if k == "o" { LowerO(); } else { LowerFoverstrike(); }
    FlagFieldSplits(k, b);
    FOverstrikeField(st, FlagField(k, b), k, VStr(Flag(b)), auto);
  }

  /** So does the foverstrike token as the overstrike flag. */
  lemma {:induction false} FOverstrikeRoundTrip(m: KeyMode, b: bool, st: Attrs, auto: bool)
    ensures ApplyField(st, FlagField(KFunc(m, "foverstrike"), b), auto) == Ok(SetFont(st, "overstrike", VInt(if b then 1 else 0)))
  {
    FOverstrikeName(m);
    FOverstrikeToken(KFunc(m, "foverstrike"), b, st, auto);
  }

  /** kfunc("bold"): its alias in the alias spelling, else the name. */
  lemma {:induction false} BoldName(m: KeyMode)
    ensures KFunc(m, "bold") == if m == AliasNames then "b" else "bold"
  {
    assert Aliased("bold") == Some("b");
  }

  lemma {:induction false} BoldToken(k: string, b: bool, st: Attrs, auto: bool)
    requires k == "b" || k == "bold"
    ensures ApplyField(st, FlagField(k, b), auto) == Ok(SetFont(st, "weight", VStr(if b then "bold" else "normal")))
  {
    if k == "b" { LowerB(); } else { LowerBold(); }
    FlagFieldSplits(k, b);
    BoldField(st, FlagField(k, b), k, VStr(Flag(b)), auto);
  }

  /** The bold token reads back as the weight bold or normal. */
  lemma {:induction false} BoldRoundTrip(m: KeyMode, b: bool, st: Attrs, auto: bool)
    ensures ApplyField(st, FlagField(KFunc(m, "bold"), b), auto) == Ok(SetFont(st, "weight", VStr(if b then "bold" else "normal")))
  {
    BoldName(m);
    BoldToken(KFunc(m, "bold"), b, st, auto);
  }

  /** kfunc("italic"): its alias in the alias spelling, else the name. */
  lemma {:induction false} ItalicName(m: KeyMode)
    ensures KFunc(m, "italic") == if m == AliasNames then "i" else "italic"
  {
    assert Aliased("italic") == Some("i");
  }

  lemma {:induction false} ItalicToken(k: string, b: bool, st: Attrs, auto: bool)
    requires k == "i" || k == "italic"
    ensures ApplyField(st, FlagField(k, b), auto) == Ok(SetFont(st, "slant", VStr(if b then "italic" else "roman")))
  {
    if k == "i" { LowerI(); } else { LowerItalic(); }
    FlagFieldSplits(k, b);
    ItalicField(st, FlagField(k, b), k, VStr(Flag(b)), auto);
  }

  /** The italic token reads back as the slant italic or roman. */
  lemma {:induction false} ItalicRoundTrip(m: KeyMode, b: bool, st: Attrs, auto: bool)
    ensures ApplyField(st, FlagField(KFunc(m, "italic"), b), auto) == Ok(SetFont(st, "slant", VStr(if b then "italic" else "roman")))
  {
    ItalicName(m);
    ItalicToken(KFunc(m, "italic"), b, st, auto);
  }

  // ---------------------------------------------------------------------
  // Whole dicts of plain options

  /** A key that is written and read as it is: small letters, no blank,
      no quote and no `=`. */
  predicate KeyWord(s: string) {
    s != [] && LowerStr(s) == s && NoSpace(s) && NoQuote(s) && '=' !in s
  }

  /** A value that is written and read as it is; the text None would be
      skipped by the decoder. */
  predicate ValueWord(v: string) {
    v != [] && NoSpace(v) && NoQuote(v) && '=' !in v && v != "None"
  }

  /** The encoder writes the key as one `key=value` field: a colour, or
      an option without a branch of its own. */
  predicate EncodesPlain(k: string) {
    KeyWord(k) && k !in ControlKeys && (GenRoute(k) == GColor || GenRoute(k) == GOther)
  }

  /** The decoder branches that store the value as given under the
      expanded key. */
  predicate StoresAsIs(rule: Rule) {
    rule == ColorRule || rule == CommandRule || rule == CursorRule || rule == SelectRule || rule == OtherRule
  }

  /** The decoder reads the key, spelled as m says, back as the key. */
  predicate DecodesPlain(m: KeyMode, k: string) {
    KeyWord(KeyOut(m, k)) && StoresAsIs(DecodeRule(KeyOut(m, k))) && Unalias(KeyOut(m, k)) == k
  }

  /** A plain option with a plain string value. */
  predicate PlainEntry(m: KeyMode, e: (string, Value)) {
    EncodesPlain(e.0) && DecodesPlain(m, e.0) && e.1.VStr? && ValueWord(e.1.s)
  }

  /** A dict of plain options. */
  predicate PlainOptions(m: KeyMode, d: Dict) {
    UniqueKeys(d) && forall i :: 0 <= i < |d| ==> PlainEntry(m, d[i])
  }

  /** The keys of d as spelling m writes them. */
  function Spelled(m: KeyMode, d: Dict): (ks: seq<string>)
    ensures |ks| == |d|
    ensures forall i :: 0 <= i < |d| ==> ks[i] == KeyOut(m, d[i].0)
  {
    if d == [] then [] else [KeyOut(m, d[0].0)] + Spelled(m, d[1..])
  }

  /** The `key=value` fields of the entries of d, with the keys ks. */
  function Fields(ks: seq<string>, d: Dict): (r: seq<AttrToken>)
    requires |ks| == |d|
    ensures |r| == |d|
  {
    if d == [] then [] else [Bare(ks[0] + "=" + ValueStr(d[0].1))] + Fields(ks[1..], d[1..])
  }

  /** The fields gen_tag_attrs writes for a dict of plain options. */
  function Written(m: KeyMode, d: Dict): seq<AttrToken> {
    Fields(Spelled(m, d), d)
  }

  // The encoder side.

  /** An entry the encoder writes as its field. */
  predicate EncodesEntry(e: (string, Value)) {
    EncodesPlain(e.0) && e.1.VStr? && ValueWord(e.1.s)
  }

  /** The colour branch and the last branch append the field. */
  lemma {:induction false} PlainItem(fl: Flags, m: KeyMode, fmt: string, k: string, val: Value)
    requires GenRoute(k) == GColor || GenRoute(k) == GOther
    ensures GenItem(fl, m, fmt, k, val) == fmt + Token(KeyOut(m, k), ValueStr(OutValue(val)))
  {
    if GenRoute(k) == GColor {
      assert Appended(fl, m, fmt, k, val) == Token(KeyOut(m, k), ValueStr(OutValue(val)));
    } else {
      assert Appended(fl, m, fmt, k, val) == Token(KeyOut(m, k), ValueStr(OutValue(val)));
    }
  }

  /** A plain value is written as it is. */
  lemma {:induction false} PlainValueOut(v: string)
    requires ValueWord(v)
    ensures ValueStr(OutValue(VStr(v))) == v
  {
    WordNoQuotes(v);
    QuoteUnchanged(VStr(v));
  }

  /** The one encoder branch a plain entry takes: its field and a blank
      are appended. */
  lemma {:induction false} GenPlainField(fl: Flags, m: KeyMode, fmt: string, k: string, v: string)
    requires ParseKeyMode(fl.kmode) == Some(m) && ValueWord(v)
    requires LowerStr(k) == k && !Skipped(k, fl.extend) && (GenRoute(k) == GColor || GenRoute(k) == GOther)
    ensures GenField(fl, fmt, k, VStr(v)) == Ok(fmt + Token(KeyOut(m, k), v))
  {
    PlainItem(fl, m, fmt, k, VStr(v));
    PlainValueOut(v);
  }

  lemma {:induction false} EncodesEntryField(fl: Flags, m: KeyMode, fmt: string, e: (string, Value))
    requires ParseKeyMode(fl.kmode) == Some(m) && EncodesEntry(e)
    ensures GenField(fl, fmt, e.0, e.1) == Ok(fmt + Token(KeyOut(m, e.0), ValueStr(e.1)))
  {
    assert e.1 == VStr(e.1.s);
    GenPlainField(fl, m, fmt, e.0, e.1.s);
  }

  /** Each entry of d, from any text so far, appends its field with the
      key ks gives it. */
  ghost predicate AppendsFields(fl: Flags, ks: seq<string>, d: Dict)
    requires |ks| == |d|
    decreases |d|
  {
    d == [] ||
    ((forall f :: GenField(fl, f, d[0].0, d[0].1) == Ok(f + Token(ks[0], ValueStr(d[0].1))))
     && AppendsFields(fl, ks[1..], d[1..]))
  }

  /** The entries of a dict of plain options do. */
  lemma {:induction false} EncodesAll(fl: Flags, m: KeyMode, d: Dict)
    requires ParseKeyMode(fl.kmode) == Some(m) && forall i :: 0 <= i < |d| ==> EncodesEntry(d[i])
    ensures AppendsFields(fl, Spelled(m, d), d)
    decreases |d|
  {
    if d != [] {
      forall f ensures GenField(fl, f, d[0].0, d[0].1) == Ok(f + Token(Spelled(m, d)[0], ValueStr(d[0].1))) {
        EncodesEntryField(fl, m, f, d[0]);
      }
      assert forall i :: 0 <= i < |d[1..]| ==> d[1..][i] == d[i + 1];
      EncodesAll(fl, m, d[1..]);
      assert Spelled(m, d)[1..] == Spelled(m, d[1..]);
    }
  }

  /** Fields of a dict with at least two entries: the first, a blank, the
      rest. */
  lemma {:induction false} JoinFieldsStep(fmt: string, ks: seq<string>, d: Dict)
    requires |ks| == |d| && |d| > 1
    ensures fmt + (ks[0] + "=" + ValueStr(d[0].1)) + " " + Join(Fields(ks[1..], d[1..])) + " "
      == fmt + Join(Fields(ks, d)) + " "
  {
    var toks := Fields(ks, d);
    var w := ks[0] + "=" + ValueStr(d[0].1);
    var rest := Join(Fields(ks[1..], d[1..]));
    assert toks[0] == Bare(w) && toks[1..] == Fields(ks[1..], d[1..]);
    assert Join(toks) == w + " " + rest;
    assert fmt + w + " " + rest + " " == fmt + (w + " " + rest) + " ";
  }

  /** The fields of a dict with one entry. */
  lemma {:induction false} JoinFieldsOne(fmt: string, ks: seq<string>, d: Dict)
    requires |ks| == |d| == 1
    ensures fmt + (ks[0] + "=" + ValueStr(d[0].1)) + " " == fmt + Join(Fields(ks, d)) + " "
  {
    assert Fields(ks, d) == [Bare(ks[0] + "=" + ValueStr(d[0].1))];
  }

  /** The first turn of the encoder loop appends the first field. */
  lemma {:induction false} GenFirst(fl: Flags, fmt: string, ks: seq<string>, d: Dict)
    requires |ks| == |d| && d != []
    requires GenField(fl, fmt, d[0].0, d[0].1) == Ok(fmt + Token(ks[0], ValueStr(d[0].1)))
    ensures GenFields(fl, fmt, d) == GenFields(fl, fmt + (ks[0] + "=" + ValueStr(d[0].1)) + " ", d[1..])
  {
    assert fmt + Token(ks[0], ValueStr(d[0].1)) == fmt + (ks[0] + "=" + ValueStr(d[0].1)) + " ";
  }

  /** The encoder loop over entries that each append their field appends
      the fields joined by blanks, and a last blank. */
  lemma {:induction false} GenWrittenFields(fl: Flags, fmt: string, ks: seq<string>, d: Dict)
    requires |ks| == |d| && d != [] && AppendsFields(fl, ks, d)
    ensures GenFields(fl, fmt, d) == Ok(fmt + Join(Fields(ks, d)) + " ")
    decreases |d|
  {
    var f1 := fmt + (ks[0] + "=" + ValueStr(d[0].1)) + " ";
    GenFirst(fl, fmt, ks, d);
    if |d| == 1 {
      assert d[1..] == [];
      JoinFieldsOne(fmt, ks, d);
    } else {
      GenWrittenFields(fl, f1, ks[1..], d[1..]);
      JoinFieldsStep(fmt, ks, d);
    }
  }

  /** A valid field starts and ends with a character that is not
      whitespace. */
  lemma {:induction false} TokenTrimmed(t: AttrToken)
    requires ValidToken(t)
    ensures var s := TokenText(t); s != [] && !IsSpace(s[0]) && !IsSpace(s[|s| - 1])
  {
  }

  /** So do valid fields joined by blanks. */
  lemma {:induction false} JoinTrimmed(toks: seq<AttrToken>)
    requires |toks| > 0 && forall t :: t in toks ==> ValidToken(t)
    ensures var j := Join(toks); j != [] && !IsSpace(j[0]) && !IsSpace(j[|j| - 1])
    decreases |toks|
  {
    ValidTail(toks);
    TokenTrimmed(toks[0]);
    if |toks| > 1 {
      JoinTrimmed(toks[1..]);
      var w := TokenText(toks[0]);
      var r := Join(toks[1..]);
      assert Join(toks) == w + " " + r;
      assert Join(toks)[|Join(toks)| - 1] == r[|r| - 1];
    }
  }

  /** Fields of small-letter keys and plain values are valid tokens. */
  lemma {:induction false} FieldWord(k: string, v: string)
    requires KeyWord(k) && ValueWord(v)
    ensures ValidToken(Bare(k + "=" + v))
  {
    var w := k + "=" + v;
    assert forall i :: 0 <= i < |w| ==> w[i] == (if i < |k| then k[i] else if i == |k| then '=' else v[i - |k| - 1]);
    assert PlainWord(w);
    assert NoQuote(w);
  }

  lemma {:induction false} FieldsValid(ks: seq<string>, d: Dict)
    requires |ks| == |d|
    requires forall i :: 0 <= i < |d| ==> KeyWord(ks[i]) && ValueWord(ValueStr(d[i].1))
    ensures forall t :: t in Fields(ks, d) ==> ValidToken(t)
    decreases |d|
  {
    if d != [] {
      FieldWord(ks[0], ValueStr(d[0].1));
      assert forall i :: 0 <= i < |d[1..]| ==> d[1..][i] == d[i + 1] && ks[1..][i] == ks[i + 1];
      FieldsValid(ks[1..], d[1..]);
    }
  }

  /** In a dict p + e without repeated keys, the first key of e is not a
      key of p. */
  lemma {:induction false} FirstFresh(p: Dict, e: Dict)
    requires UniqueKeys(p + e) && e != []
    ensures e[0].0 !in Keys(p)
  {
    var pe := p + e;
    forall i | 0 <= i < |p| ensures Keys(p)[i] != e[0].0 {
      assert pe[i] == p[i] && pe[|p|] == e[0];
    }
  }

  /** Assigning entries whose keys are new appends them. */
  lemma {:induction false} UpdateFresh(p: Dict, e: Dict)
    requires UniqueKeys(p + e)
    ensures Update(p, e) == p + e
    decreases |e|
  {
    if e != [] {
      var pe := p + e;
      FirstFresh(p, e);
      PutNew(p, e[0].0, e[0].1);
      assert (p + [e[0]]) + e[1..] == pe;
      UpdateFresh(p + [e[0]], e[1..]);
    }
  }

  /** With no font, no case and no keyword arguments the encoder walks the
      options dict itself. */
  lemma {:induction false} MergedAlone(d: Dict)
    requires UniqueKeys(d)
    ensures Merged(d, [], VNone, []) == d
  {
    assert CaseArg(VNone, []) == VNone;
    assert FontToOptions([]) == [];
    UpdateFresh([], d);
    assert [] + d == d;
    var ds: seq<Dict> := [d, [], []];
    assert ds[1..] == [[], []] && ds[1..][1..] == [[]] && ds[1..][1..][1..] == [];
    assert Update(d, []) == d;
    assert MergeDicts([], ds) == MergeDicts(d, ds[1..]);
    assert MergeDicts(d, ds[1..]) == MergeDicts(d, ds[1..][1..]);
    assert MergeDicts(d, ds[1..][1..]) == MergeDicts(d, []);
  }

  lemma {:induction false} PlainParts(m: KeyMode, d: Dict)
    requires PlainOptions(m, d)
    ensures forall i :: 0 <= i < |d| ==> EncodesEntry(d[i])
    ensures forall i :: 0 <= i < |d| ==> DecodesEntry(m, d[i])
    ensures forall i :: 0 <= i < |d| ==> KeyWord(Spelled(m, d)[i]) && ValueWord(ValueStr(d[i].1))
  {
  }

  /** gen_tag_attrs(None, d, kmode=...) of a non-empty dict of plain
      options is the `key=value` fields of its entries in the dict's order,
      keys spelled as kmode says, joined by single blanks. */
  lemma {:induction false} GenPlainText(d: Dict, fl: Flags)
    requires ParseKeyMode(fl.kmode).Some? && d != [] && PlainOptions(ParseKeyMode(fl.kmode).value, d)
    ensures TagAttrsText(d, [], VNone, [], fl) == Ok(Join(Written(ParseKeyMode(fl.kmode).value, d)))
  {
    var m := ParseKeyMode(fl.kmode).value;
    PlainParts(m, d);
    EncodesAll(fl, m, d);
    GenFieldsText(fl, Spelled(m, d), d);
  }

  /** The encoder output for entries that each append their field, with
      its last blank stripped. */
  lemma {:induction false} GenFieldsText(fl: Flags, ks: seq<string>, d: Dict)
    requires |ks| == |d| && d != [] && UniqueKeys(d) && AppendsFields(fl, ks, d)
    requires forall i :: 0 <= i < |d| ==> KeyWord(ks[i]) && ValueWord(ValueStr(d[i].1))
    ensures TagAttrsText(d, [], VNone, [], fl) == Ok(Join(Fields(ks, d)))
  {
    MergedAlone(d);
    GenWrittenFields(fl, "", ks, d);
    var j := Join(Fields(ks, d));
    assert "" + j == j;
    FieldsValid(ks, d);
    JoinTrimmed(Fields(ks, d));
    TrailingBlankStrip(j);
  }

  // The decoder side.

  /** An entry the decoder reads back from its field. */
  predicate DecodesEntry(m: KeyMode, e: (string, Value)) {
    DecodesPlain(m, e.0) && e.1.VStr? && ValueWord(e.1.s)
  }

  /** The decoder branches that store the value as given. */
  lemma {:induction false} StoreRuleResult(st: Attrs, rule: Rule, key: string, val: Value, auto: bool)
    requires StoresAsIs(rule) && !val.VInt?
    ensures ApplyRule(st, rule, key, val, auto) == Ok(SetOption(st, key, val))
  {
    if rule == ColorRule {
    } else if rule == CommandRule {
    } else if rule == CursorRule {
    } else if rule == SelectRule {
    } else {
    }
  }

  /** The field of a plain entry is stored under the option's own name. */
  lemma {:induction false} DecodePlainField(st: Attrs, ko: string, k: string, v: string, auto: bool)
    requires KeyWord(ko) && StoresAsIs(DecodeRule(ko)) && Unalias(ko) == k && ValueWord(v)
    ensures ApplyField(st, ko + "=" + v, auto) == Ok(SetOption(st, k, VStr(v)))
  {
    assert !Enclosed(v);
    UnquoteUnchanged(VStr(v));
    KeyValueField(st, ko, v, auto);
    StoreRuleResult(st, DecodeRule(ko), k, VStr(v), auto);
  }

  lemma {:induction false} DecodesEntryField(st: Attrs, m: KeyMode, e: (string, Value), auto: bool)
    requires DecodesEntry(m, e)
    ensures ApplyField(st, KeyOut(m, e.0) + "=" + ValueStr(e.1), auto) == Ok(SetOption(st, e.0, e.1))
  {
    assert e.1 == VStr(e.1.s);
    DecodePlainField(st, KeyOut(m, e.0), e.0, e.1.s, auto);
  }

  /** Each field of d, with the key ks gives it, stores its entry in any
      state. */
  ghost predicate StoresFields(ks: seq<string>, d: Dict, auto: bool)
    requires |ks| == |d|
    decreases |d|
  {
    d == [] ||
    ((forall s :: ApplyField(s, ks[0] + "=" + ValueStr(d[0].1), auto) == Ok(SetOption(s, d[0].0, d[0].1)))
     && StoresFields(ks[1..], d[1..], auto))
  }

  /** The fields of a dict of plain options do. */
  lemma {:induction false} DecodesAll(m: KeyMode, d: Dict, auto: bool)
    requires forall i :: 0 <= i < |d| ==> DecodesEntry(m, d[i])
    ensures StoresFields(Spelled(m, d), d, auto)
    decreases |d|
  {
    if d != [] {
      forall s ensures ApplyField(s, Spelled(m, d)[0] + "=" + ValueStr(d[0].1), auto) == Ok(SetOption(s, d[0].0, d[0].1)) {
        DecodesEntryField(s, m, d[0], auto);
      }
      assert forall i :: 0 <= i < |d[1..]| ==> d[1..][i] == d[i + 1];
      DecodesAll(m, d[1..], auto);
      assert Spelled(m, d)[1..] == Spelled(m, d[1..]);
    }
  }

  lemma {:induction false} AppendFirst(p: Dict, d: Dict)
    requires d != []
    ensures p + [d[0]] + d[1..] == p + d
  {
    assert [d[0]] + d[1..] == d;
  }

  /** The first turn of the decoder loop appends the first entry. */
  lemma {:induction false} DecodeFirst(st: Attrs, ks: seq<string>, d: Dict, auto: bool)
    requires |ks| == |d| && d != [] && UniqueKeys(st.options + d)
    requires ApplyField(st, ks[0] + "=" + ValueStr(d[0].1), auto) == Ok(SetOption(st, d[0].0, d[0].1))
    ensures ApplyFields(st, TokenTexts(Fields(ks, d)), auto)
      == ApplyFields(st.(options := st.options + [d[0]]), TokenTexts(Fields(ks[1..], d[1..])), auto)
  {
    var fs := TokenTexts(Fields(ks, d));
    assert fs[0] == ks[0] + "=" + ValueStr(d[0].1) && fs[1..] == TokenTexts(Fields(ks[1..], d[1..]));
    FirstFresh(st.options, d);
    PutNew(st.options, d[0].0, d[0].1);
  }

  /** The decoder loop over fields that each store their entry appends the
      entries to the options dict. */
  lemma {:induction false} DecodeWrittenFields(st: Attrs, ks: seq<string>, d: Dict, auto: bool)
    requires |ks| == |d| && UniqueKeys(st.options + d) && StoresFields(ks, d, auto)
    ensures ApplyFields(st, TokenTexts(Fields(ks, d)), auto) == Ok(st.(options := st.options + d))
    decreases |d|
  {
    if d == [] {
      assert st.options + d == st.options;
    } else {
      DecodeFirst(st, ks, d, auto);
      AppendFirst(st.options, d);
      DecodeWrittenFields(st.(options := st.options + [d[0]]), ks[1..], d[1..], auto);
    }
  }

  /** A dict of plain options survives the round trip: gen_tag_attrs(None,
      d, kmode=...) in any of the three spellings, read back by
      parse_tag_attrs, gives d as the options, no font and no case. */
  lemma {:induction false} OptionsRoundTrip(d: Dict, fl: Flags, auto: bool)
    requires ParseKeyMode(fl.kmode).Some? && PlainOptions(ParseKeyMode(fl.kmode).value, d)
    ensures TagAttrsText(d, [], VNone, [], fl).Ok?
    ensures TagAttrs(TagAttrsText(d, [], VNone, [], fl).value, Attrs([], [], ""), auto) == Ok(Attrs(d, [], ""))
  {
    var m := ParseKeyMode(fl.kmode).value;
    if d == [] {
      MergedAlone(d);
      assert TagAttrsText(d, [], VNone, [], fl) == Ok(Strip(""));
      assert Strip("") == "";
      FieldsOfEmpty();
      assert [""][1..] == [];
      assert ApplyField(Attrs([], [], ""), "", auto) == Ok(Attrs([], [], ""));
    } else {
      var ks := Spelled(m, d);
      GenPlainText(d, fl);
      PlainParts(m, d);
      FieldsValid(ks, d);
      SplitAttrsOfJoin(Fields(ks, d));
      DecodesAll(m, d, auto);
      assert [] + d == d;
      DecodeWrittenFields(Attrs([], [], ""), ks, d, auto);
    }
  }
}
