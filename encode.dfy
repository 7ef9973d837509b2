/**
 * gen_tag_attrs without a widget: an options dict, a font dict and a case
 * encoded as the attribute text of a tag, such as
 * `family="Courier New" background=white fg=blue`.
 *
 * The dicts are merged in order (options, the font with its underline and
 * overstrike renamed funderline and foverstrike, then the remaining keyword
 * arguments) and each entry becomes one `key=value ` token.  The key is
 * spelled as given, by its alias or by its full option name, as kmode
 * says; font flags become 0/1 tokens; with auto, an image brings
 * `compound=center` and a relief brings `borderwidth=1`, which a later
 * explicit compound or border width replaces in place.
 */
module Encode {
  import opened Base
  import opened Strs
  import opened Dicts
  import opened Aliases
  import opened Quoting
  import opened DictOps

  /** How keys are spelled: kmode '' (as given), 'a...' (aliases) or
      'o...' (full option names). */
  datatype KeyMode = AsGiven | AliasNames | OptionNames

  /** The spelling a kmode selects by its first letter; any other first
      letter selects none. */
  function ParseKeyMode(kmode: string): Option<KeyMode> {
    if kmode == "" then Some(AsGiven)
    else if kmode[0] == 'a' then Some(AliasNames)
    else if kmode[0] == 'o' then Some(OptionNames)
    else None
  }

  /** The keyword arguments that steer the encoder.  get_named_font needs
      Tk; `namedFont` stands for the str() of its result. */
  datatype Flags = Flags(kmode: string, auto: bool, extend: bool, namedFont: Value -> string)

  /** The branches of the encoder's if-chain, in source order. */
  datatype GenRule =
    | GColor | GImage | GBorder | GCompound | GCursor | GFont | GRelief
    | GSelect | GFamily | GSize | GWeight | GSlant | GFUnderline
    | GFOverstrike | GCase | GUpper | GCaseFlag | GText | GOther

  /** The first branch the lower-cased key passes.  Unlike the decoder,
      the encoder looks at the key itself and at its alias. */
  function GenRoute(key: string): GenRule {
    GenChain(Take(key, 2), Take(key, 3), Take(key, 4), Take(key, 7), Alias(key), key)
  }

  /** The if-chain itself, given the first two, three, four and seven
      characters of the key, its alias and the key. */
  function GenChain(key2: string, key3: string, key4: string, key7: string, kalias: string, key: string): GenRule {
    if key3 in ["bg", "bac", "fg", "for"] || key2 == "un" || kalias in ["bg", "fg", "ul"] then GColor
    else if key2 in ["bi", "im"] || kalias in ["bit", "img"] then GImage
    else if key3 in ["bd", "bor"] then GBorder
    else if key4 == "comp" || kalias == "cpd" then GCompound
    else if key3 == "cur" then GCursor
    else if key3 == "fon" then GFont
    else if key2 == "re" then GRelief
    else if key7 in ["sbg", "selectb", "sbd", "sfg", "selectf"] then GSelect
    else if key2 == "fa" then GFamily
    else if key2 == "si" then GSize
    else if key2 == "we" then GWeight
    else if key2 == "sl" then GSlant
    else if key3 in ["u", "fun"] then GFUnderline
    else if key3 in ["o", "fov"] then GFOverstrike
    else if key3 == "cas" then GCase
    else if key2 == "up" || key3 == "cap" then GUpper
    else if key2 in ["lo", "ti", "sw"] then GCaseFlag
    else if key in ["text", "txt"] then GText
    else GOther
  }

  /** The keyword arguments the loop passes over. */
  const ControlKeys: seq<string> := ["auto", "extend", "kmode", "pare"]

  /** The entry leaves no token and needs no spelling. */
  predicate Skipped(key: string, extend: bool) {
    key in ControlKeys || (GenRoute(key) == GText && !extend)
  }

  /** keyout: the key in the chosen spelling. */
  function KeyOut(m: KeyMode, key: string): string {
    match m
    case AsGiven => key
    case AliasNames => Alias(key)
    case OptionNames => Unalias(key)
  }

  /** kfunc: how the names of the font flags and cases are spelled. */
  function KFunc(m: KeyMode, name: string): string {
    match m
    case AsGiven => name
    case AliasNames => Alias(name)
    case OptionNames => Unalias(name)
  }

  /** auto_cpd and auto_bd */
  function AutoCompound(m: KeyMode): string {
    if m == AliasNames then "cpd" else "compound"
  }

  function AutoBorder(m: KeyMode): string {
    if m == AliasNames then "bd" else "borderwidth"
  }

  /** `"%s=%s " % (k, v)`: one token. */
  function Token(k: string, v: string): string {
    k + "=" + v + " "
  }

  /** `1 if cond else 0` as %d */
  function Flag(b: bool): string {
    if b then "1" else "0"
  }

  /** The value as written out: a truthy value goes through quote(). */
  function OutValue(val: Value): Value {
    if Truthy(val) then Quote(val) else val
  }

  /** What a branch other than the border and compound ones appends to
      the text fmt for the lower-cased key. */
  function Appended(fl: Flags, m: KeyMode, fmt: string, key: string, val: Value): string {
    var v := OutValue(val);
    var t := Token(KeyOut(m, key), ValueStr(v));
    match GenRoute(key)
    case GImage =>
      if fl.auto && !Contains(fmt + t, AutoCompound(m) + "=") then t + Token(AutoCompound(m), "center") else t
    case GRelief =>
      if fl.auto && !Contains(fmt + t, AutoBorder(m) + "=") then t + Token(AutoBorder(m), "1") else t
    case GFont => Token(KeyOut(m, key), fl.namedFont(v))
    case GWeight => Token(KFunc(m, "bold"), Flag(v.VStr? && LowerStr(v.s) == "bold"))
    case GSlant => Token(KFunc(m, "italic"), Flag(v.VStr? && LowerStr(v.s) == "italic"))
    case GFUnderline => Token(KFunc(m, "funderline"), Flag(ValueStr(v) in ["1", "True"]))
    case GFOverstrike => Token(KFunc(m, "foverstrike"), Flag(ValueStr(v) in ["1", "True"]))
    case GCase => Token(KFunc(m, "case"), ValueStr(v))
    case GUpper => Token(KFunc(m, "upper"), ValueStr(v))
    case _ => t
  }

  /** One branch of the loop for the lower-cased key.  A border width or a
      compound takes the place of the auto token when that is in the text
      (str.replace replaces every occurrence), and is appended otherwise. */
  function GenItem(fl: Flags, m: KeyMode, fmt: string, key: string, val: Value): string {
    var v := OutValue(val);
    var t := Token(KeyOut(m, key), ValueStr(v));
    match GenRoute(key)
    case GBorder =>
      var auto := Token(AutoBorder(m), "1");
      if Contains(fmt, auto) then (if v != VInt(1) then ReplaceAll(fmt, auto, t) else fmt)
      else fmt + t
    case GCompound =>
      var auto := Token(AutoCompound(m), "center");
      if Contains(fmt, auto) then (if v != VStr("center") then ReplaceAll(fmt, auto, t) else fmt)
      else fmt + t
    case _ => fmt + Appended(fl, m, fmt, key, val)
  }

  /** One pass of the loop: the key is lower-cased; an entry that needs a
      spelling when kmode selects none raises UnboundLocalError. */
  function GenField(fl: Flags, fmt: string, key0: string, val: Value): Result<string> {
    var key := LowerStr(key0);
    if Skipped(key, fl.extend) then Ok(fmt)
    else match ParseKeyMode(fl.kmode)
      case None => Err(UnboundKeyMode(fl.kmode))
      case Some(m) => Ok(GenItem(fl, m, fmt, key, val))
  }

  /** The loop over the merged dict, first entry to last. */
  function GenFields(fl: Flags, fmt: string, d: Dict): Result<string>
    decreases |d|
  {
    if d == [] then Ok(fmt)
    else
      var f :- GenField(fl, fmt, d[0].0, d[0].1);
      GenFields(fl, f, d[1..])
  }

  /** `case = kwargs.get("case", case)` */
  function CaseArg(textCase: Value, kwargs: Dict): Value {
    var c := Get(kwargs, "case");
    if c.Some? then c.value else textCase
  }

  /** The dict the loop walks: the options (with the case added when it is
      truthy), the renamed font, then the remaining keyword arguments. */
  function Merged(options: Dict, font: Dict, textCase: Value, kwargs: Dict): Dict {
    var c := CaseArg(textCase, kwargs);
    var opts := if Truthy(c) then MergeDicts(options, [[("case", c)]]) else options;
    MergeDicts([], [opts, FontToOptions(font), kwargs])
  }

  /** What gen_tag_attrs(None, options, font, case, **kwargs) returns or
      raises; kwargs holds the keyword arguments other than kmode, auto
      and extend. */
  function TagAttrsText(options: Dict, font: Dict, textCase: Value, kwargs: Dict, fl: Flags): Result<string> {
    var fmt :- GenFields(fl, "", Merged(options, font, textCase, kwargs));
    Ok(Strip(fmt))
  }

  /** gen_tag_attrs: the loop appends to, and patches, the text in turn. */
  method GenTagAttrs(options: Dict, font: Dict, textCase: Value, kwargs: Dict, fl: Flags)
    returns (r: Result<string>)
    ensures r == TagAttrsText(options, font, textCase, kwargs, fl)
  {
    var d := Merged(options, font, textCase, kwargs);
    var mode := ParseKeyMode(fl.kmode);
    var fmt := "";
    var i := 0;
    while i < |d|
      invariant 0 <= i <= |d|
      invariant GenFields(fl, "", d) == GenFields(fl, fmt, d[i..])
    {
      var key := LowerStr(d[i].0);
      if !Skipped(key, fl.extend) {
        if mode.None? {
          return Err(UnboundKeyMode(fl.kmode));
        }
        fmt := GenItem(fl, mode.value, fmt, key, d[i].1);
      }
      i := i + 1;
    }
    r := Ok(Strip(fmt));
  }

  // ---------------------------------------------------------------------
  // Properties of the loop

  /** The loop over two dicts in a row is the loop over the first, then
      over the second from where the first left the text. */
  lemma {:induction false} GenFieldsAppend(fl: Flags, fmt: string, a: Dict, b: Dict)
    ensures GenFields(fl, fmt, a).Err? ==> GenFields(fl, fmt, a + b) == GenFields(fl, fmt, a)
    ensures GenFields(fl, fmt, a).Ok? ==> GenFields(fl, fmt, a + b) == GenFields(fl, GenFields(fl, fmt, a).value, b)
    decreases |a|
  {
    if a != [] {
      var ab := a + b;
      assert ab[0] == a[0] && ab[1..] == a[1..] + b;
      var f := GenField(fl, fmt, a[0].0, a[0].1);
      if f.Ok? {
        assert GenFields(fl, fmt, ab) == GenFields(fl, f.value, a[1..] + b);
        assert GenFields(fl, fmt, a) == GenFields(fl, f.value, a[1..]);
        GenFieldsAppend(fl, f.value, a[1..], b);
      }
    } else {
      assert a + b == b;
    }
  }

  /** With a kmode that starts with neither a nor o, the loop raises at the
      first entry that is not skipped, and leaves the text alone when there
      is none. */
  lemma {:induction false} UnboundKeyModeRaises(fl: Flags, fmt: string, d: Dict)
    requires ParseKeyMode(fl.kmode).None?
    ensures GenFields(fl, fmt, d)
         == if exists i :: 0 <= i < |d| && !Skipped(LowerStr(d[i].0), fl.extend) then Err(UnboundKeyMode(fl.kmode))
            else Ok(fmt)
    decreases |d|
  {
    if d != [] {
      var skip := Skipped(LowerStr(d[0].0), fl.extend);
      assert GenFields(fl, fmt, d)
          == if skip then GenFields(fl, fmt, d[1..]) else Err(UnboundKeyMode(fl.kmode)) by {
        UnboundField(fl, fmt, d[0].0, d[0].1);
      }
      UnboundKeyModeRaises(fl, fmt, d[1..]);
      if skip {
        if exists i :: 0 <= i < |d| && !Skipped(LowerStr(d[i].0), fl.extend) {
          var i :| 0 <= i < |d| && !Skipped(LowerStr(d[i].0), fl.extend);
          assert d[1..][i - 1] == d[i];
        } else {
          forall i | 0 <= i < |d[1..]| ensures Skipped(LowerStr(d[1..][i].0), fl.extend) {
            assert d[1..][i] == d[i + 1];
          }
        }
      }
    }
  }

  lemma {:induction false} UnboundField(fl: Flags, fmt: string, key0: string, val: Value)
    requires ParseKeyMode(fl.kmode).None?
    ensures GenField(fl, fmt, key0, val)
         == if Skipped(LowerStr(key0), fl.extend) then Ok(fmt) else Err(UnboundKeyMode(fl.kmode))
  {
  }

  /** A border width or a compound is appended too, unless the auto token
      it replaces is in the text. */
  lemma {:induction false} BorderAppends(fl: Flags, m: KeyMode, fmt: string, key: string, val: Value)
    requires GenRoute(key) == GBorder && !Contains(fmt, Token(AutoBorder(m), "1"))
    ensures GenItem(fl, m, fmt, key, val) == fmt + Token(KeyOut(m, key), ValueStr(OutValue(val)))
  {
  }

  /** With auto, a relief brings the border token unless the text already
      holds one. */
  lemma {:induction false} ReliefAuto(fl: Flags, m: KeyMode, fmt: string, key: string, val: Value)
    requires GenRoute(key) == GRelief
    ensures var t := Token(KeyOut(m, key), ValueStr(OutValue(val)));
            GenItem(fl, m, fmt, key, val)
            == if fl.auto && !Contains(fmt + t, AutoBorder(m) + "=") then fmt + t + Token(AutoBorder(m), "1") else fmt + t
  {
  }

  /** The loop keeps the text so far as a prefix when nothing in d is a
      border width or a compound. */
  lemma {:induction false} FieldsAppend(fl: Flags, fmt: string, d: Dict)
    requires forall i :: 0 <= i < |d| ==> GenRoute(LowerStr(d[i].0)) !in {GBorder, GCompound}
    ensures GenFields(fl, fmt, d).Ok? ==> fmt <= GenFields(fl, fmt, d).value
    decreases |d|
  {
    if d != [] {
      var f := GenField(fl, fmt, d[0].0, d[0].1);
      if f.Ok? {
        var key := LowerStr(d[0].0);
        assert forall i :: 0 <= i < |d[1..]| ==> d[1..][i] == d[i + 1];
        FieldsAppend(fl, f.value, d[1..]);
      }
    }
  }

  /** The control keys auto, extend, kmode and pare, in any letter case,
      leave no token; text and txt leave one only with extend. */
  lemma {:induction false} SkippedKeys(fl: Flags, fmt: string, key0: string, val: Value)
    requires LowerStr(key0) in ControlKeys + ["text", "txt"]
    ensures LowerStr(key0) in ControlKeys || !fl.extend ==> GenField(fl, fmt, key0, val) == Ok(fmt)
    ensures LowerStr(key0) !in ControlKeys && fl.extend && ParseKeyMode(fl.kmode).Some? ==>
      GenField(fl, fmt, key0, val)
      == Ok(fmt + Token(KeyOut(ParseKeyMode(fl.kmode).value, LowerStr(key0)), ValueStr(OutValue(val))))
  {
    var key := LowerStr(key0);
    if key !in ControlKeys {
      if key == "text" {
        GenText();
      } else {
        GenTxt();
      }
      TextField(fl, fmt, key0, val);
    }
  }

  /** A key routed as text leaves a token only with extend. */
  lemma {:induction false} TextField(fl: Flags, fmt: string, key0: string, val: Value)
    requires GenRoute(LowerStr(key0)) == GText && LowerStr(key0) !in ControlKeys
    ensures !fl.extend ==> GenField(fl, fmt, key0, val) == Ok(fmt)
    ensures fl.extend && ParseKeyMode(fl.kmode).Some? ==>
      GenField(fl, fmt, key0, val)
      == Ok(fmt + Token(KeyOut(ParseKeyMode(fl.kmode).value, LowerStr(key0)), ValueStr(OutValue(val))))
  {
  }

  // ---------------------------------------------------------------------
  // Routing of the keys the properties below use

  lemma {:induction false} ChainFamily()
    ensures GenChain("fa", "fam", "fami", "family", "fam", "family") == GFamily
  {
  }

  lemma {:induction false} GenFamily()
    ensures GenRoute("family") == GFamily
  {
    assert Aliased("family") == Some("fam");
    assert Take("family", 2) == "fa";
    assert Take("family", 3) == "fam";
    assert Take("family", 4) == "fami";
    assert Take("family", 7) == "family";
    ChainFamily();
  }

  lemma {:induction false} ChainBackground()
    ensures GenChain("ba", "bac", "back", "backgro", "bg", "background") == GColor
  {
  }

  lemma {:induction false} GenBackground()
    ensures GenRoute("background") == GColor
  {
    assert Aliased("background") == Some("bg");
    assert Take("background", 2) == "ba";
    assert Take("background", 3) == "bac";
    assert Take("background", 4) == "back";
    assert Take("background", 7) == "backgro";
    ChainBackground();
  }

  lemma {:induction false} ChainForeground()
    ensures GenChain("fo", "for", "fore", "foregro", "fg", "foreground") == GColor
  {
  }

  lemma {:induction false} GenForeground()
    ensures GenRoute("foreground") == GColor
  {
    assert Aliased("foreground") == Some("fg");
    assert Take("foreground", 2) == "fo";
    assert Take("foreground", 3) == "for";
    assert Take("foreground", 4) == "fore";
    assert Take("foreground", 7) == "foregro";
    ChainForeground();
  }

  lemma {:induction false} ChainFg()
    ensures GenChain("fg", "fg", "fg", "fg", "fg", "fg") == GColor
  {
  }

  lemma {:induction false} GenFg()
    ensures GenRoute("fg") == GColor
  {
    assert Take("fg", 2) == "fg";
    assert Take("fg", 3) == "fg";
    assert Take("fg", 4) == "fg";
    assert Take("fg", 7) == "fg";
    ChainFg();
  }

  lemma {:induction false} ChainBd()
    ensures GenChain("bd", "bd", "bd", "bd", "bd", "bd") == GBorder
  {
  }

  lemma {:induction false} GenBd()
    ensures GenRoute("bd") == GBorder
  {
    assert Take("bd", 2) == "bd";
    assert Take("bd", 3) == "bd";
    assert Take("bd", 4) == "bd";
    assert Take("bd", 7) == "bd";
    ChainBd();
  }

  lemma {:induction false} ChainBorderwidth()
    ensures GenChain("bo", "bor", "bord", "borderw", "bd", "borderwidth") == GBorder
  {
  }

  lemma {:induction false} GenBorderwidth()
    ensures GenRoute("borderwidth") == GBorder
  {
    assert Aliased("borderwidth") == Some("bd");
    assert Take("borderwidth", 2) == "bo";
    assert Take("borderwidth", 3) == "bor";
    assert Take("borderwidth", 4) == "bord";
    assert Take("borderwidth", 7) == "borderw";
    ChainBorderwidth();
  }

  lemma {:induction false} ChainRelief()
    ensures GenChain("re", "rel", "reli", "relief", "rel", "relief") == GRelief
  {
  }

  lemma {:induction false} GenRelief()
    ensures GenRoute("relief") == GRelief
  {
    assert Aliased("relief") == Some("rel");
    assert Take("relief", 2) == "re";
    assert Take("relief", 3) == "rel";
    assert Take("relief", 4) == "reli";
    assert Take("relief", 7) == "relief";
    ChainRelief();
  }

  lemma {:induction false} ChainFunderline()
    ensures GenChain("fu", "fun", "fund", "funderl", "u", "funderline") == GFUnderline
  {
  }

  lemma {:induction false} GenFunderline()
    ensures GenRoute("funderline") == GFUnderline
  {
    assert Aliased("funderline") == Some("u");
    assert Take("funderline", 2) == "fu";
    assert Take("funderline", 3) == "fun";
    assert Take("funderline", 4) == "fund";
    assert Take("funderline", 7) == "funderl";
    ChainFunderline();
  }

  lemma {:induction false} ChainFoverstrike()
    ensures GenChain("fo", "fov", "fove", "foverst", "o", "foverstrike") == GFOverstrike
  {
  }

  lemma {:induction false} GenFoverstrike()
    ensures GenRoute("foverstrike") == GFOverstrike
  {
    assert Aliased("foverstrike") == Some("o");
    assert Take("foverstrike", 2) == "fo";
    assert Take("foverstrike", 3) == "fov";
    assert Take("foverstrike", 4) == "fove";
    assert Take("foverstrike", 7) == "foverst";
    ChainFoverstrike();
  }

  lemma {:induction false} ChainUnderline()
    ensures GenChain("un", "und", "unde", "underli", "ul", "underline") == GColor
  {
  }

  lemma {:induction false} GenUnderline()
    ensures GenRoute("underline") == GColor
  {
    assert Aliased("underline") == Some("ul");
    assert Take("underline", 2) == "un";
    assert Take("underline", 3) == "und";
    assert Take("underline", 4) == "unde";
    assert Take("underline", 7) == "underli";
    ChainUnderline();
  }

  lemma {:induction false} ChainCase()
    ensures GenChain("ca", "cas", "case", "case", "cas", "case") == GCase
  {
  }

  lemma {:induction false} GenCase()
    ensures GenRoute("case") == GCase
  {
    assert Aliased("case") == Some("cas");
    assert Take("case", 2) == "ca";
    assert Take("case", 3) == "cas";
    assert Take("case", 4) == "case";
    assert Take("case", 7) == "case";
    ChainCase();
  }

  lemma {:induction false} ChainWeight()
    ensures GenChain("we", "wei", "weig", "weight", "wt", "weight") == GWeight
  {
  }

  lemma {:induction false} GenWeight()
    ensures GenRoute("weight") == GWeight
  {
    assert Aliased("weight") == Some("wt");
    assert Take("weight", 2) == "we";
    assert Take("weight", 3) == "wei";
    assert Take("weight", 4) == "weig";
    assert Take("weight", 7) == "weight";
    ChainWeight();
  }

  lemma {:induction false} ChainSlant()
    ensures GenChain("sl", "sla", "slan", "slant", "sl", "slant") == GSlant
  {
  }

  lemma {:induction false} GenSlant()
    ensures GenRoute("slant") == GSlant
  {
    assert Aliased("slant") == Some("sl");
    assert Take("slant", 2) == "sl";
    assert Take("slant", 3) == "sla";
    assert Take("slant", 4) == "slan";
    assert Take("slant", 7) == "slant";
    ChainSlant();
  }

  lemma {:induction false} ChainText()
    ensures GenChain("te", "tex", "text", "text", "txt", "text") == GText
  {
  }

  lemma {:induction false} GenText()
    ensures GenRoute("text") == GText
  {
    assert Aliased("text") == Some("txt");
    assert Take("text", 2) == "te";
    assert Take("text", 3) == "tex";
    assert Take("text", 4) == "text";
    assert Take("text", 7) == "text";
    ChainText();
  }

  lemma {:induction false} ChainTxt()
    ensures GenChain("tx", "txt", "txt", "txt", "txt", "txt") == GText
  {
  }

  lemma {:induction false} GenTxt()
    ensures GenRoute("txt") == GText
  {
    assert Take("txt", 2) == "tx";
    assert Take("txt", 3) == "txt";
    assert Take("txt", 4) == "txt";
    assert Take("txt", 7) == "txt";
    ChainTxt();
  }

  lemma {:induction false} ChainU()
    ensures GenChain("u", "u", "u", "u", "u", "u") == GFUnderline
  {
  }

  lemma {:induction false} GenU()
    ensures GenRoute("u") == GFUnderline
  {
    assert Take("u", 2) == "u";
    assert Take("u", 3) == "u";
    assert Take("u", 4) == "u";
    assert Take("u", 7) == "u";
    ChainU();
  }

  lemma {:induction false} ChainO()
    ensures GenChain("o", "o", "o", "o", "o", "o") == GFOverstrike
  {
  }

  lemma {:induction false} GenO()
    ensures GenRoute("o") == GFOverstrike
  {
    assert Take("o", 2) == "o";
    assert Take("o", 3) == "o";
    assert Take("o", 4) == "o";
    assert Take("o", 7) == "o";
    ChainO();
  }

  lemma {:induction false} ChainBitmap()
    ensures GenChain("bi", "bit", "bitm", "bitmap", "bit", "bitmap") == GImage
  {
  }

  lemma {:induction false} GenBitmap()
    ensures GenRoute("bitmap") == GImage
  {
    assert Aliased("bitmap") == Some("bit");
    assert Take("bitmap", 2) == "bi";
    assert Take("bitmap", 3) == "bit";
    assert Take("bitmap", 4) == "bitm";
    assert Take("bitmap", 7) == "bitmap";
    ChainBitmap();
  }
}
