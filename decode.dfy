/**
 * parse_tag_attrs: the attribute text of a tag, such as
 * `fg=red b family="Courier New" case=title`, decoded into a dict of widget
 * options, a dict of font attributes and a case string.
 *
 * Each field that split_attrs returns is cut at its `=` (a bare field has
 * the value None), its key is lower-cased and the first matching routing
 * rule decides where the value goes.  The rules test the first two, three
 * or four letters of the key as written, and the alias of the key's
 * expansion, in a fixed order, so that order is part of the behaviour.
 */
module Decode {
  import opened Base
  import opened Strs
  import opened Dicts
  import opened Aliases
  import opened Quoting
  import opened Tokenizer

  /** The triple parse_tag_attrs returns. */
  datatype Attrs = Attrs(options: Dict, font: Dict, textCase: string)

  /** The branches of the routing if-chain, in source order. */
  datatype Rule =
    | ColorRule | ImageRule | BorderRule | CommandRule | IntRule | CursorRule
    | ReliefRule | UnderlineRule | SelectRule | FamilyRule | SizeRule
    | BoldRule | WeightRule | ItalicRule | SlantRule | FUnderlineRule
    | FOverstrikeRule | CaseRule | UpperRule | LowerRule | TitleRule
    | SwapcaseRule | OtherRule

  /** The first rule whose test the lower-cased key passes.  key2/key3/key4
      are taken from the key as written; kalias is the alias of its
      expansion; the select rule alone looks at the expansion itself. */
  function DecodeRule(key: string): Rule {
    var k := Unalias(key);
    Route(Take(key, 2), Take(key, 3), Take(key, 4), Take(k, 7), Alias(k))
  }

  /** The if-chain itself, given key2, key3 and key4 (the first two, three
      and four characters of the key as written), k7 (the first seven of
      its expansion) and kalias. */
  function Route(key2: string, key3: string, key4: string, k7: string, kalias: string): Rule {
    if key3 in ["bg", "bac", "fg", "for"] || kalias in ["bg", "fg"] then ColorRule
    else if key2 in ["bi", "im"] || kalias in ["bit", "img"] then ImageRule
    else if key3 in ["bd", "bor"] || kalias == "bd" then BorderRule
    else if key4 in ["comm", "comp"] || kalias in ["cmd", "cpd"] then CommandRule
    else if key2 in ["he", "wi"] || key3 == "rep" || kalias in ["h", "w", "rd", "ri"] then IntRule
    else if key2 == "cu" || key3 == "fon" || kalias in ["cur", "fon"] then CursorRule
    else if key2 in ["r", "re"] || kalias == "rel" then ReliefRule
    else if key2 == "un" || kalias == "ul" then UnderlineRule
    else if k7 in ["sbg", "selectb", "sfg", "selectf"] || kalias in ["sbg", "sfg"] then SelectRule
    else if key2 == "fa" || kalias == "fam" then FamilyRule
    else if key2 == "si" || kalias == "sz" then SizeRule
    else if key3 in ["b", "bol"] || kalias == "b" then BoldRule
    else if key2 == "we" || kalias == "wt" then WeightRule
    else if key2 in ["i", "it"] || kalias == "i" then ItalicRule
    else if key2 == "sl" || kalias == "sl" then SlantRule
    else if key3 in ["u", "fun"] || kalias == "u" then FUnderlineRule
    else if key3 in ["o", "fov"] || kalias == "o" then FOverstrikeRule
    else if key3 == "cas" || kalias == "cas" then CaseRule
    else if key2 == "up" || key3 == "cap" || kalias in ["up", "cap"] then UpperRule
    else if key2 == "lo" || kalias == "lo" then LowerRule
    else if key2 == "ti" || kalias == "ti" then TitleRule
    else if key2 == "sw" || kalias == "sw" then SwapcaseRule
    else OtherRule
  }

  /** One field as `key, val = keyval.split("=")` with the value unquoted,
      a bare key with the value None, or nothing for an empty field. */
  function SplitField(keyval: string): Result<Option<(string, Value)>> {
    var i := IndexOf(keyval, '=');
    if i < |keyval| then
      if '=' in keyval[i + 1..] then Err(TooManyEquals(keyval))
      else Ok(Some((keyval[..i], Unquote(VStr(keyval[i + 1..])))))
    else if keyval != [] then Ok(Some((keyval, VNone)))
    else Ok(None)
  }

  /** `str(val) not in ("0", "False")` */
  predicate Affirmative(v: Value) {
    ValueStr(v) != "0" && ValueStr(v) != "False"
  }

  /** int(val) on a field value: a str that int() reads, or the error that
      int() raises for other strings and for None. */
  function IntValue(key: string, val: Value): Result<Value>
    requires !val.VInt?
  {
    if val.VStr? && ParseInt(val.s).Some? then Ok(VInt(ParseInt(val.s).value))
    else Err(InvalidInteger(key, val))
  }

  const CaseNames: seq<string> := ["upper", "capitalize", "lower", "title", "swapcase"]

  /** The first name that starts with p. */
  function PickCase(p: string, names: seq<string>): Option<string> {
    if names == [] then None
    else if StartsWith(names[0], p) then Some(names[0])
    else PickCase(p, names[1..])
  }

  function SetOption(st: Attrs, k: string, v: Value): Attrs {
    st.(options := Put(st.options, k, v))
  }

  function SetFont(st: Attrs, k: string, v: Value): Attrs {
    st.(font := Put(st.font, k, v))
  }

  /** The case a flag field selects, when the flag is not 0 or False. */
  function SetCaseIf(st: Attrs, val: Value, c: string): Attrs {
    if Affirmative(val) then st.(textCase := c) else st
  }

  /** The body of one routing branch; key is the expanded (unaliased) key.
      A field value is a str or None, never an int. */
  function ApplyRule(st: Attrs, rule: Rule, key: string, val: Value, auto: bool): Result<Attrs>
    requires !val.VInt?
  {
    match rule
    case ColorRule => Ok(SetOption(st, key, val))
    case ImageRule =>
      var st' := SetOption(st, key, val);
      Ok(if auto && "compound" !in Keys(st'.options) then SetOption(st', "compound", VStr("center")) else st')
    case BorderRule => Ok(SetOption(st, "borderwidth", val))
    case CommandRule => Ok(SetOption(st, key, val))
    case IntRule =>
      var n :- IntValue(key, val);
      Ok(SetOption(st, key, n))
    case CursorRule => Ok(SetOption(st, key, val))
    case ReliefRule =>
      var st' := SetOption(st, "relief", val);
      Ok(if auto && "borderwidth" !in Keys(st'.options) && val != VStr("flat")
         then SetOption(st', "borderwidth", VStr("1")) else st')
    case UnderlineRule =>
      if val == VNone then Ok(SetOption(st, "underline", VInt(-1)))
      else
        var n :- IntValue(key, val);
        Ok(SetOption(st, "underline", n))
    case SelectRule => Ok(SetOption(st, key, val))
    case FamilyRule => Ok(SetFont(st, "family", val))
    case SizeRule =>
      if val.VStr? && ParseInt(val.s).None? then Err(InvalidFontSize(val))
      else
        var n :- IntValue(key, val);
        Ok(SetFont(st, "size", n))
    case BoldRule => Ok(SetFont(st, "weight", VStr(if Affirmative(val) then "bold" else "normal")))
    case WeightRule => Ok(SetFont(st, "weight", val))
    case ItalicRule => Ok(SetFont(st, "slant", VStr(if Affirmative(val) then "italic" else "roman")))
    case SlantRule => Ok(SetFont(st, "slant", val))
    case FUnderlineRule => Ok(SetFont(st, "underline", VInt(if Affirmative(val) then 1 else 0)))
    case FOverstrikeRule => Ok(SetFont(st, "overstrike", VInt(if Affirmative(val) then 1 else 0)))
    case CaseRule =>
      if val.VNone? then Err(CaseWithoutValue)
      else
        var picked := PickCase(LowerStr(val.s), CaseNames);
        if picked.None? then Ok(st)
        else Ok(st.(textCase := if picked.value == "capitalize" then "upper" else picked.value))
    case UpperRule => Ok(SetCaseIf(st, val, "upper"))
    case LowerRule => Ok(SetCaseIf(st, val, "lower"))
    case TitleRule => Ok(SetCaseIf(st, val, "title"))
    case SwapcaseRule => Ok(SetCaseIf(st, val, "swapcase"))
    case OtherRule => Ok(SetOption(st, key, val))
  }

  /** One pass of the loop over the fields. */
  function ApplyField(st: Attrs, keyval: string, auto: bool): Result<Attrs> {
    var kv :- SplitField(keyval);
    match kv
    case None => Ok(st)
    case Some((key, val)) =>
      var lkey := LowerStr(key);
      if val == VStr("None") then Ok(st)
      else ApplyRule(st, DecodeRule(lkey), Unalias(lkey), val, auto)
  }

  /** The loop over the fields, first to last. */
  function ApplyFields(st: Attrs, fields: seq<string>, auto: bool): Result<Attrs>
    decreases |fields|
  {
    if fields == [] then Ok(st)
    else
      var st' :- ApplyField(st, fields[0], auto);
      ApplyFields(st', fields[1..], auto)
  }

  /** What parse_tag_attrs(tag_str, options_d, font_d, case, auto=auto)
      returns or raises. */
  function TagAttrs(tagStr: string, st: Attrs, auto: bool): Result<Attrs> {
    var fields :- AttrFields(tagStr);
    ApplyFields(st, fields, auto)
  }

  /** The loop over the fields, one field at a time. */
  lemma {:induction false} ApplyFieldsStep(st: Attrs, fs: seq<string>, i: nat, auto: bool)
    requires i < |fs|
    ensures ApplyField(st, fs[i], auto).Err? ==> ApplyFields(st, fs[i..], auto) == Err(ApplyField(st, fs[i], auto).error)
    ensures ApplyField(st, fs[i], auto).Ok? ==>
      ApplyFields(st, fs[i..], auto) == ApplyFields(ApplyField(st, fs[i], auto).value, fs[i + 1..], auto)
  {
    assert fs[i..][1..] == fs[i + 1..];
  }

  /** parse_tag_attrs: the loop updates the two dicts and the case in turn. */
  method ParseTagAttrs(tagStr: string, options: Dict, font: Dict, textCase: string, auto: bool)
    returns (r: Result<Attrs>)
    ensures r == TagAttrs(tagStr, Attrs(options, font, textCase), auto)
  {
    var fields := SplitAttrs(tagStr);
    if fields.Err? {
      return Err(fields.error);
    }
    var fs := fields.value;
    var optionsD, fontD, c := options, font, textCase;
    var i := 0;
    while i < |fs|
      invariant 0 <= i <= |fs|
      invariant TagAttrs(tagStr, Attrs(options, font, textCase), auto)
             == ApplyFields(Attrs(optionsD, fontD, c), fs[i..], auto)
    {
      var step := ApplyField(Attrs(optionsD, fontD, c), fs[i], auto);
      ApplyFieldsStep(Attrs(optionsD, fontD, c), fs, i, auto);
      if step.Err? {
        return Err(step.error);
      }
      optionsD, fontD, c := step.value.options, step.value.font, step.value.textCase;
      i := i + 1;
    }
    r := Ok(Attrs(optionsD, fontD, c));
  }

  /** The result with the `attr` keyword: the case for "case", else the
      option of that name, else the font attribute, else None. */
  function AttrOf(a: Attrs, attr: string): Value {
    if attr == "case" then VStr(a.textCase)
    else match Get(a.options, attr)
      case Some(v) => v
      case None => match Get(a.font, attr) case Some(v) => v case None => VNone
  }

  /** parse_tag_attrs with and without `attr`: an empty attr returns the
      triple. */
  datatype Parsed = Triple(attrs: Attrs) | Single(value: Value)

  function TagAttrsFor(tagStr: string, st: Attrs, auto: bool, attr: string): Result<Parsed> {
    var a :- TagAttrs(tagStr, st, auto);
    Ok(if attr != "" then Single(AttrOf(a, attr)) else Triple(a))
  }

  // ---------------------------------------------------------------------
  // Fields

  /** `key=value` with one `=`: the key, and the value unquoted. */
  lemma {:induction false} SplitKeyValue(k: string, v: string)
    requires '=' !in k && '=' !in v
    ensures SplitField(k + "=" + v) == Ok(Some((k, Unquote(VStr(v)))))
  {
    var s := k + "=" + v;
    IndexOfFirst(s, '=');
    assert s[|k|] == '=';
    assert forall j :: 0 <= j < |k| ==> s[j] == k[j];
    assert IndexOf(s, '=') == |k|;
    assert s[..|k|] == k && s[|k| + 1..] == v;
  }

  /** A field without `=` is a bare key with the value None. */
  lemma {:induction false} SplitBare(k: string)
    requires k != [] && '=' !in k
    ensures SplitField(k) == Ok(Some((k, VNone)))
  {
    IndexOfFirst(k, '=');
  }

  /** `keyval.split("=")` yields three or more parts: the unpacking raises. */
  lemma {:induction false} SplitTooMany(keyval: string, i: nat, j: nat)
    requires i < j < |keyval| && keyval[i] == '=' && keyval[j] == '='
    ensures SplitField(keyval) == Err(TooManyEquals(keyval))
  {
    var n := IndexOf(keyval, '=');
    IndexOfFirst(keyval, '=');
    assert n <= i;
    if n == i {
      assert keyval[i + 1..][j - i - 1] == '=';
    } else {
      assert keyval[n + 1..][i - n - 1] == '=';
    }
  }

  /** The field `k=v`, routed. */
  lemma {:induction false} KeyValueField(st: Attrs, k: string, v: string, auto: bool)
    requires '=' !in k && '=' !in v
    ensures ApplyField(st, k + "=" + v, auto)
         == if Unquote(VStr(v)) == VStr("None") then Ok(st)
            else ApplyRule(st, DecodeRule(LowerStr(k)), Unalias(LowerStr(k)), Unquote(VStr(v)), auto)
  {
    SplitKeyValue(k, v);
  }

  /** The bare field `k`, routed with the value None. */
  lemma {:induction false} BareField(st: Attrs, k: string, auto: bool)
    requires k != [] && '=' !in k
    ensures ApplyField(st, k, auto) == ApplyRule(st, DecodeRule(LowerStr(k)), Unalias(LowerStr(k)), VNone, auto)
  {
    SplitBare(k);
  }

  /** The value None, written out, is skipped whatever the key. */
  lemma {:induction false} NoneSkipped(st: Attrs, k: string, auto: bool)
    requires '=' !in k
    ensures ApplyField(st, k + "=None", auto) == Ok(st)
  {
    assert k + "=None" == k + "=" + "None";
    assert "None"[0] == 'N';
    SplitKeyValue(k, "None");
  }

  // ---------------------------------------------------------------------
  // Routing

  /** The lower-case key k expands to key and is routed by rule. */
  predicate Routes(k: string, key: string, rule: Rule) {
    Unalias(k) == key && DecodeRule(k) == rule
  }

  lemma {:induction false} RouteBg()
    ensures Route("bg", "bg", "bg", "backgro", "bg") == ColorRule
  {
  }

  lemma {:induction false} KeyBg()
    ensures Routes("bg", "background", ColorRule)
  {
    assert Unaliased("bg") == Some("background");
    assert Aliased("background") == Some("bg");
    assert Take("bg", 2) == "bg";
    assert Take("bg", 3) == "bg";
    assert Take("bg", 4) == "bg";
    assert Take("background", 7) == "backgro";
    RouteBg();
  }

  lemma {:induction false} RouteFg()
    ensures Route("fg", "fg", "fg", "foregro", "fg") == ColorRule
  {
  }

  lemma {:induction false} KeyFg()
    ensures Routes("fg", "foreground", ColorRule)
  {
    assert Unaliased("fg") == Some("foreground");
    assert Aliased("foreground") == Some("fg");
    assert Take("fg", 2) == "fg";
    assert Take("fg", 3) == "fg";
    assert Take("fg", 4) == "fg";
    assert Take("foreground", 7) == "foregro";
    RouteFg();
  }

  lemma {:induction false} RouteBackground()
    ensures Route("ba", "bac", "back", "backgro", "bg") == ColorRule
  {
  }

  lemma {:induction false} KeyBackground()
    ensures Routes("background", "background", ColorRule)
  {
    assert Aliased("background") == Some("bg");
    assert Take("background", 2) == "ba";
    assert Take("background", 3) == "bac";
    assert Take("background", 4) == "back";
    assert Take("background", 7) == "backgro";
    RouteBackground();
  }

  lemma {:induction false} RouteForeground()
    ensures Route("fo", "for", "fore", "foregro", "fg") == ColorRule
  {
  }

  lemma {:induction false} KeyForeground()
    ensures Routes("foreground", "foreground", ColorRule)
  {
    assert Aliased("foreground") == Some("fg");
    assert Take("foreground", 2) == "fo";
    assert Take("foreground", 3) == "for";
    assert Take("foreground", 4) == "fore";
    assert Take("foreground", 7) == "foregro";
    RouteForeground();
  }

  lemma {:induction false} RouteBd()
    ensures Route("bd", "bd", "bd", "borderw", "bd") == BorderRule
  {
  }

  lemma {:induction false} KeyBd()
    ensures Routes("bd", "borderwidth", BorderRule)
  {
    assert Unaliased("bd") == Some("borderwidth");
    assert Aliased("borderwidth") == Some("bd");
    assert Take("bd", 2) == "bd";
    assert Take("bd", 3) == "bd";
    assert Take("bd", 4) == "bd";
    assert Take("borderwidth", 7) == "borderw";
    RouteBd();
  }

  lemma {:induction false} RouteBorderwidth()
    ensures Route("bo", "bor", "bord", "borderw", "bd") == BorderRule
  {
  }

  lemma {:induction false} KeyBorderwidth()
    ensures Routes("borderwidth", "borderwidth", BorderRule)
  {
    assert Aliased("borderwidth") == Some("bd");
    assert Take("borderwidth", 2) == "bo";
    assert Take("borderwidth", 3) == "bor";
    assert Take("borderwidth", 4) == "bord";
    assert Take("borderwidth", 7) == "borderw";
    RouteBorderwidth();
  }

  lemma {:induction false} RouteHeight()
    ensures Route("he", "hei", "heig", "height", "h") == IntRule
  {
  }

  lemma {:induction false} KeyHeight()
    ensures Routes("height", "height", IntRule)
  {
    assert Aliased("height") == Some("h");
    assert Take("height", 2) == "he";
    assert Take("height", 3) == "hei";
    assert Take("height", 4) == "heig";
    assert Take("height", 7) == "height";
    RouteHeight();
  }

  lemma {:induction false} RouteWidth()
    ensures Route("wi", "wid", "widt", "width", "w") == IntRule
  {
  }

  lemma {:induction false} KeyWidth()
    ensures Routes("width", "width", IntRule)
  {
    assert Aliased("width") == Some("w");
    assert Take("width", 2) == "wi";
    assert Take("width", 3) == "wid";
    assert Take("width", 4) == "widt";
    assert Take("width", 7) == "width";
    RouteWidth();
  }

  lemma {:induction false} RouteRepeatdelay()
    ensures Route("re", "rep", "repe", "repeatd", "rd") == IntRule
  {
  }

  lemma {:induction false} KeyRepeatdelay()
    ensures Routes("repeatdelay", "repeatdelay", IntRule)
  {
    assert Aliased("repeatdelay") == Some("rd");
    assert Take("repeatdelay", 2) == "re";
    assert Take("repeatdelay", 3) == "rep";
    assert Take("repeatdelay", 4) == "repe";
    assert Take("repeatdelay", 7) == "repeatd";
    RouteRepeatdelay();
  }

  lemma {:induction false} RouteRepeatinterval()
    ensures Route("re", "rep", "repe", "repeati", "ri") == IntRule
  {
  }

  lemma {:induction false} KeyRepeatinterval()
    ensures Routes("repeatinterval", "repeatinterval", IntRule)
  {
    assert Aliased("repeatinterval") == Some("ri");
    assert Take("repeatinterval", 2) == "re";
    assert Take("repeatinterval", 3) == "rep";
    assert Take("repeatinterval", 4) == "repe";
    assert Take("repeatinterval", 7) == "repeati";
    RouteRepeatinterval();
  }

  lemma {:induction false} RouteUnderline()
    ensures Route("un", "und", "unde", "underli", "ul") == UnderlineRule
  {
  }

  lemma {:induction false} KeyUnderline()
    ensures Routes("underline", "underline", UnderlineRule)
  {
    assert Aliased("underline") == Some("ul");
    assert Take("underline", 2) == "un";
    assert Take("underline", 3) == "und";
    assert Take("underline", 4) == "unde";
    assert Take("underline", 7) == "underli";
    RouteUnderline();
  }

  lemma {:induction false} RouteUl()
    ensures Route("ul", "ul", "ul", "underli", "ul") == UnderlineRule
  {
  }

  lemma {:induction false} KeyUl()
    ensures Routes("ul", "underline", UnderlineRule)
  {
    assert Unaliased("ul") == Some("underline");
    assert Aliased("underline") == Some("ul");
    assert Take("ul", 2) == "ul";
    assert Take("ul", 3) == "ul";
    assert Take("ul", 4) == "ul";
    assert Take("underline", 7) == "underli";
    RouteUl();
  }

  lemma {:induction false} RouteU()
    ensures Route("u", "u", "u", "funderl", "u") == FUnderlineRule
  {
  }

  lemma {:induction false} KeyU()
    ensures Routes("u", "funderline", FUnderlineRule)
  {
    assert Unaliased("u") == Some("funderline");
    assert Aliased("funderline") == Some("u");
    assert Take("u", 2) == "u";
    assert Take("u", 3) == "u";
    assert Take("u", 4) == "u";
    assert Take("funderline", 7) == "funderl";
    RouteU();
  }

  lemma {:induction false} RouteFunderline()
    ensures Route("fu", "fun", "fund", "funderl", "u") == FUnderlineRule
  {
  }

  lemma {:induction false} KeyFunderline()
    ensures Routes("funderline", "funderline", FUnderlineRule)
  {
    assert Aliased("funderline") == Some("u");
    assert Take("funderline", 2) == "fu";
    assert Take("funderline", 3) == "fun";
    assert Take("funderline", 4) == "fund";
    assert Take("funderline", 7) == "funderl";
    RouteFunderline();
  }

  lemma {:induction false} RouteO()
    ensures Route("o", "o", "o", "foverst", "o") == FOverstrikeRule
  {
  }

  lemma {:induction false} KeyO()
    ensures Routes("o", "foverstrike", FOverstrikeRule)
  {
    assert Unaliased("o") == Some("foverstrike");
    assert Aliased("foverstrike") == Some("o");
    assert Take("o", 2) == "o";
    assert Take("o", 3) == "o";
    assert Take("o", 4) == "o";
    assert Take("foverstrike", 7) == "foverst";
    RouteO();
  }

  lemma {:induction false} RouteFoverstrike()
    ensures Route("fo", "fov", "fove", "foverst", "o") == FOverstrikeRule
  {
  }

  lemma {:induction false} KeyFoverstrike()
    ensures Routes("foverstrike", "foverstrike", FOverstrikeRule)
  {
    assert Aliased("foverstrike") == Some("o");
    assert Take("foverstrike", 2) == "fo";
    assert Take("foverstrike", 3) == "fov";
    assert Take("foverstrike", 4) == "fove";
    assert Take("foverstrike", 7) == "foverst";
    RouteFoverstrike();
  }

  lemma {:induction false} RouteFamily()
    ensures Route("fa", "fam", "fami", "family", "fam") == FamilyRule
  {
  }

  lemma {:induction false} KeyFamily()
    ensures Routes("family", "family", FamilyRule)
  {
    assert Aliased("family") == Some("fam");
    assert Take("family", 2) == "fa";
    assert Take("family", 3) == "fam";
    assert Take("family", 4) == "fami";
    assert Take("family", 7) == "family";
    RouteFamily();
  }

  lemma {:induction false} RouteSize()
    ensures Route("si", "siz", "size", "size", "sz") == SizeRule
  {
  }

  lemma {:induction false} KeySize()
    ensures Routes("size", "size", SizeRule)
  {
    assert Aliased("size") == Some("sz");
    assert Take("size", 2) == "si";
    assert Take("size", 3) == "siz";
    assert Take("size", 4) == "size";
    assert Take("size", 7) == "size";
    RouteSize();
  }

  lemma {:induction false} RouteB()
    ensures Route("b", "b", "b", "bold", "b") == BoldRule
  {
  }

  lemma {:induction false} KeyB()
    ensures Routes("b", "bold", BoldRule)
  {
    assert Unaliased("b") == Some("bold");
    assert Aliased("bold") == Some("b");
    assert Take("b", 2) == "b";
    assert Take("b", 3) == "b";
    assert Take("b", 4) == "b";
    assert Take("bold", 7) == "bold";
    RouteB();
  }

  lemma {:induction false} RouteBold()
    ensures Route("bo", "bol", "bold", "bold", "b") == BoldRule
  {
  }

  lemma {:induction false} KeyBold()
    ensures Routes("bold", "bold", BoldRule)
  {
    assert Aliased("bold") == Some("b");
    assert Take("bold", 2) == "bo";
    assert Take("bold", 3) == "bol";
    assert Take("bold", 4) == "bold";
    assert Take("bold", 7) == "bold";
    RouteBold();
  }

  lemma {:induction false} RouteWeight()
    ensures Route("we", "wei", "weig", "weight", "wt") == WeightRule
  {
  }

  lemma {:induction false} KeyWeight()
    ensures Routes("weight", "weight", WeightRule)
  {
    assert Aliased("weight") == Some("wt");
    assert Take("weight", 2) == "we";
    assert Take("weight", 3) == "wei";
    assert Take("weight", 4) == "weig";
    assert Take("weight", 7) == "weight";
    RouteWeight();
  }

  lemma {:induction false} RouteI()
    ensures Route("i", "i", "i", "italic", "i") == ItalicRule
  {
  }

  lemma {:induction false} KeyI()
    ensures Routes("i", "italic", ItalicRule)
  {
    assert Unaliased("i") == Some("italic");
    assert Aliased("italic") == Some("i");
    assert Take("i", 2) == "i";
    assert Take("i", 3) == "i";
    assert Take("i", 4) == "i";
    assert Take("italic", 7) == "italic";
    RouteI();
  }

  lemma {:induction false} RouteItalic()
    ensures Route("it", "ita", "ital", "italic", "i") == ItalicRule
  {
  }

  lemma {:induction false} KeyItalic()
    ensures Routes("italic", "italic", ItalicRule)
  {
    assert Aliased("italic") == Some("i");
    assert Take("italic", 2) == "it";
    assert Take("italic", 3) == "ita";
    assert Take("italic", 4) == "ital";
    assert Take("italic", 7) == "italic";
    RouteItalic();
  }

  lemma {:induction false} RouteSlant()
    ensures Route("sl", "sla", "slan", "slant", "sl") == SlantRule
  {
  }

  lemma {:induction false} KeySlant()
    ensures Routes("slant", "slant", SlantRule)
  {
    assert Aliased("slant") == Some("sl");
    assert Take("slant", 2) == "sl";
    assert Take("slant", 3) == "sla";
    assert Take("slant", 4) == "slan";
    assert Take("slant", 7) == "slant";
    RouteSlant();
  }

  lemma {:induction false} RouteCase()
    ensures Route("ca", "cas", "case", "case", "cas") == CaseRule
  {
  }

  lemma {:induction false} KeyCase()
    ensures Routes("case", "case", CaseRule)
  {
    assert Aliased("case") == Some("cas");
    assert Take("case", 2) == "ca";
    assert Take("case", 3) == "cas";
    assert Take("case", 4) == "case";
    assert Take("case", 7) == "case";
    RouteCase();
  }

  lemma {:induction false} RouteRelief()
    ensures Route("re", "rel", "reli", "relief", "rel") == ReliefRule
  {
  }

  lemma {:induction false} KeyRelief()
    ensures Routes("relief", "relief", ReliefRule)
  {
    assert Aliased("relief") == Some("rel");
    assert Take("relief", 2) == "re";
    assert Take("relief", 3) == "rel";
    assert Take("relief", 4) == "reli";
    assert Take("relief", 7) == "relief";
    RouteRelief();
  }

  lemma {:induction false} RouteBitmap()
    ensures Route("bi", "bit", "bitm", "bitmap", "bit") == ImageRule
  {
  }

  lemma {:induction false} KeyBitmap()
    ensures Routes("bitmap", "bitmap", ImageRule)
  {
    assert Aliased("bitmap") == Some("bit");
    assert Take("bitmap", 2) == "bi";
    assert Take("bitmap", 3) == "bit";
    assert Take("bitmap", 4) == "bitm";
    assert Take("bitmap", 7) == "bitmap";
    RouteBitmap();
  }

  // ---------------------------------------------------------------------
  // What each kind of field does

  /** keyval is a field with the key `key` and the value val, and the value
      is not the string None (which is skipped). */
  predicate IsField(keyval: string, key: string, val: Value) {
    SplitField(keyval) == Ok(Some((key, val))) && val != VStr("None")
  }

  /** A field's value is a str or None. */
  lemma {:induction false} FieldValue(keyval: string, key: string, val: Value)
    requires SplitField(keyval) == Ok(Some((key, val)))
    ensures !val.VInt?
  {
  }

  /** A field whose lower-cased key routes by `rule` to `name`. */
  lemma {:induction false} RoutedField(st: Attrs, keyval: string, key: string, val: Value, auto: bool,
                                       name: string, rule: Rule)
    requires IsField(keyval, key, val) && Routes(LowerStr(key), name, rule)
    ensures !val.VInt?
    ensures ApplyField(st, keyval, auto) == ApplyRule(st, rule, name, val, auto)
  {
    FieldValue(keyval, key, val);
  }

  /** bg, fg, background and foreground, in any letter case, set that
      colour option under its full name. */
  lemma {:induction false} ColorField(st: Attrs, keyval: string, key: string, val: Value, auto: bool)
    requires IsField(keyval, key, val)
    requires LowerStr(key) in ["bg", "fg", "background", "foreground"]
    ensures ApplyField(st, keyval, auto)
         == Ok(SetOption(st, if LowerStr(key) in ["bg", "background"] then "background" else "foreground", val))
  {
    var lk := LowerStr(key);
    var name := if lk in ["bg", "background"] then "background" else "foreground";
    ColorKeys(lk);
    RoutedField(st, keyval, key, val, auto, name, ColorRule);
  }

  lemma {:induction false} ColorKeys(k: string)
    requires k in ["bg", "fg", "background", "foreground"]
    ensures Routes(k, if k in ["bg", "background"] then "background" else "foreground", ColorRule)
  {
    if k == "bg" { KeyBg(); }
    else if k == "fg" { KeyFg(); }
    else if k == "background" { KeyBackground(); }
    else { KeyForeground(); }
  }

  /** bd and borderwidth set the borderwidth option. */
  lemma {:induction false} BorderField(st: Attrs, keyval: string, key: string, val: Value, auto: bool)
    requires IsField(keyval, key, val)
    requires LowerStr(key) in ["bd", "borderwidth"]
    ensures ApplyField(st, keyval, auto) == Ok(SetOption(st, "borderwidth", val))
  {
    BorderKeys(LowerStr(key));
    RoutedField(st, keyval, key, val, auto, "borderwidth", BorderRule);
  }

  lemma {:induction false} BorderKeys(k: string)
    requires k in ["bd", "borderwidth"]
    ensures Routes(k, "borderwidth", BorderRule)
  {
    if k == "bd" { KeyBd(); } else { KeyBorderwidth(); }
  }

  /** The integer options take the value int() reads from the field, and a
      field int() cannot read (a bare key included) is an error. */
  lemma {:induction false} IntField(st: Attrs, keyval: string, key: string, val: Value, auto: bool)
    requires IsField(keyval, key, val)
    requires LowerStr(key) in ["height", "width", "repeatdelay", "repeatinterval"]
    ensures ApplyField(st, keyval, auto)
         == if val.VStr? && ParseInt(val.s).Some? then Ok(SetOption(st, LowerStr(key), VInt(ParseInt(val.s).value)))
            else Err(InvalidInteger(LowerStr(key), val))
  {
    var lk := LowerStr(key);
    IntKeys(lk);
    RoutedField(st, keyval, key, val, auto, lk, IntRule);
  }

  lemma {:induction false} IntKeys(k: string)
    requires k in ["height", "width", "repeatdelay", "repeatinterval"]
    ensures Routes(k, k, IntRule)
  {
    if k == "height" { KeyHeight(); }
    else if k == "width" { KeyWidth(); }
    else if k == "repeatdelay" { KeyRepeatdelay(); }
    else { KeyRepeatinterval(); }
  }

  /** underline and ul set the underline OPTION (the index of the
      underlined character): -1 for a bare key, else the integer. */
  lemma {:induction false} UnderlineField(st: Attrs, keyval: string, key: string, val: Value, auto: bool)
    requires IsField(keyval, key, val)
    requires LowerStr(key) in ["underline", "ul"]
    ensures ApplyField(st, keyval, auto)
         == if val == VNone then Ok(SetOption(st, "underline", VInt(-1)))
            else if ParseInt(val.s).Some? then Ok(SetOption(st, "underline", VInt(ParseInt(val.s).value)))
            else Err(InvalidInteger("underline", val))
  {
    UnderlineKeys(LowerStr(key));
    RoutedField(st, keyval, key, val, auto, "underline", UnderlineRule);
  }

  lemma {:induction false} UnderlineKeys(k: string)
    requires k in ["underline", "ul"]
    ensures Routes(k, "underline", UnderlineRule)
  {
    if k == "underline" { KeyUnderline(); } else { KeyUl(); }
  }

  /** u and funderline set the FONT's underline flag to 1, or to 0 for
      the values 0 and False. */
  lemma {:induction false} FUnderlineField(st: Attrs, keyval: string, key: string, val: Value, auto: bool)
    requires IsField(keyval, key, val)
    requires LowerStr(key) in ["u", "funderline"]
    ensures ApplyField(st, keyval, auto) == Ok(SetFont(st, "underline", VInt(if Affirmative(val) then 1 else 0)))
  {
    FUnderlineKeys(LowerStr(key));
    RoutedField(st, keyval, key, val, auto, "funderline", FUnderlineRule);
  }

  lemma {:induction false} FUnderlineKeys(k: string)
    requires k in ["u", "funderline"]
    ensures Routes(k, "funderline", FUnderlineRule)
  {
    if k == "u" { KeyU(); } else { KeyFunderline(); }
  }

  /** o and foverstrike set the font's overstrike flag the same way. */
  lemma {:induction false} FOverstrikeField(st: Attrs, keyval: string, key: string, val: Value, auto: bool)
    requires IsField(keyval, key, val)
    requires LowerStr(key) in ["o", "foverstrike"]
    ensures ApplyField(st, keyval, auto) == Ok(SetFont(st, "overstrike", VInt(if Affirmative(val) then 1 else 0)))
  {
    FOverstrikeKeys(LowerStr(key));
    RoutedField(st, keyval, key, val, auto, "foverstrike", FOverstrikeRule);
  }

  lemma {:induction false} FOverstrikeKeys(k: string)
    requires k in ["o", "foverstrike"]
    ensures Routes(k, "foverstrike", FOverstrikeRule)
  {
    if k == "o" { KeyO(); } else { KeyFoverstrike(); }
  }

  /** family sets the font family. */
  lemma {:induction false} FamilyField(st: Attrs, keyval: string, key: string, val: Value, auto: bool)
    requires IsField(keyval, key, val) && LowerStr(key) == "family"
    ensures ApplyField(st, keyval, auto) == Ok(SetFont(st, "family", val))
  {
    FamilyKeys(LowerStr(key));
    RoutedField(st, keyval, key, val, auto, "family", FamilyRule);
  }

  lemma {:induction false} FamilyKeys(k: string)
    requires k == "family"
    ensures Routes(k, "family", FamilyRule)
  {
    KeyFamily();
  }

  /** size sets the font size to an integer; a value int() cannot read is
      reported as a bad size, and a bare size is int(None)'s error. */
  lemma {:induction false} SizeField(st: Attrs, keyval: string, key: string, val: Value, auto: bool)
    requires IsField(keyval, key, val) && LowerStr(key) == "size"
    ensures ApplyField(st, keyval, auto)
         == if val == VNone then Err(InvalidInteger("size", VNone))
            else if ParseInt(val.s).None? then Err(InvalidFontSize(val))
            else Ok(SetFont(st, "size", VInt(ParseInt(val.s).value)))
  {
    assert ApplyField(st, keyval, auto) == ApplyRule(st, SizeRule, "size", val, auto) by {
      SizeKeys(LowerStr(key));
      RoutedField(st, keyval, key, val, auto, "size", SizeRule);
    }
    SizeRuleResult(st, val, auto);
  }

  lemma {:induction false} SizeRuleResult(st: Attrs, val: Value, auto: bool)
    requires !val.VInt?
    ensures ApplyRule(st, SizeRule, "size", val, auto)
         == if val == VNone then Err(InvalidInteger("size", VNone))
            else if ParseInt(val.s).None? then Err(InvalidFontSize(val))
            else Ok(SetFont(st, "size", VInt(ParseInt(val.s).value)))
  {
    var r := ApplyRule(st, SizeRule, "size", val, auto);
    if val == VNone {
      assert r == Err(InvalidInteger("size", VNone));
    } else if ParseInt(val.s).None? {
      assert r == Err(InvalidFontSize(val));
    } else {
      var n := ParseInt(val.s).value;
      assert IntValue("size", val) == Ok(VInt(n));
      assert r == Ok(SetFont(st, "size", VInt(n)));
    }
  }

  lemma {:induction false} SizeKeys(k: string)
    requires k == "size"
    ensures Routes(k, "size", SizeRule)
  {
    KeySize();
  }

  /** b and bold set the weight to bold, or to normal for 0 and False. */
  lemma {:induction false} BoldField(st: Attrs, keyval: string, key: string, val: Value, auto: bool)
    requires IsField(keyval, key, val) && LowerStr(key) in ["b", "bold"]
    ensures ApplyField(st, keyval, auto) == Ok(SetFont(st, "weight", VStr(if Affirmative(val) then "bold" else "normal")))
  {
    BoldKeys(LowerStr(key));
    RoutedField(st, keyval, key, val, auto, "bold", BoldRule);
  }

  lemma {:induction false} BoldKeys(k: string)
    requires k in ["b", "bold"]
    ensures Routes(k, "bold", BoldRule)
  {
    if k == "b" { KeyB(); } else { KeyBold(); }
  }

  /** i and italic set the slant to italic, or to roman for 0 and False. */
  lemma {:induction false} ItalicField(st: Attrs, keyval: string, key: string, val: Value, auto: bool)
    requires IsField(keyval, key, val) && LowerStr(key) in ["i", "italic"]
    ensures ApplyField(st, keyval, auto) == Ok(SetFont(st, "slant", VStr(if Affirmative(val) then "italic" else "roman")))
  {
    ItalicKeys(LowerStr(key));
    RoutedField(st, keyval, key, val, auto, "italic", ItalicRule);
  }

  lemma {:induction false} ItalicKeys(k: string)
    requires k in ["i", "italic"]
    ensures Routes(k, "italic", ItalicRule)
  {
    if k == "i" { KeyI(); } else { KeyItalic(); }
  }

  /** weight and slant are copied into the font as given. */
  lemma {:induction false} WeightSlantField(st: Attrs, keyval: string, key: string, val: Value, auto: bool)
    requires IsField(keyval, key, val) && LowerStr(key) in ["weight", "slant"]
    ensures ApplyField(st, keyval, auto) == Ok(SetFont(st, LowerStr(key), val))
  {
    if LowerStr(key) == "weight" {
      WeightField(st, keyval, key, val, auto);
    } else {
      SlantField(st, keyval, key, val, auto);
    }
  }

  lemma {:induction false} WeightField(st: Attrs, keyval: string, key: string, val: Value, auto: bool)
    requires IsField(keyval, key, val) && LowerStr(key) == "weight"
    ensures ApplyField(st, keyval, auto) == Ok(SetFont(st, "weight", val))
  {
    assert ApplyField(st, keyval, auto) == ApplyRule(st, WeightRule, "weight", val, auto) by {
      KeyWeight();
      RoutedField(st, keyval, key, val, auto, "weight", WeightRule);
    }
    WeightRuleResult(st, val, auto);
  }

  lemma {:induction false} WeightRuleResult(st: Attrs, val: Value, auto: bool)
    requires !val.VInt?
    ensures ApplyRule(st, WeightRule, "weight", val, auto) == Ok(SetFont(st, "weight", val))
  {
  }

  lemma {:induction false} SlantField(st: Attrs, keyval: string, key: string, val: Value, auto: bool)
    requires IsField(keyval, key, val) && LowerStr(key) == "slant"
    ensures ApplyField(st, keyval, auto) == Ok(SetFont(st, "slant", val))
  {
    assert ApplyField(st, keyval, auto) == ApplyRule(st, SlantRule, "slant", val, auto) by {
      KeySlant();
      RoutedField(st, keyval, key, val, auto, "slant", SlantRule);
    }
    SlantRuleResult(st, val, auto);
  }

  lemma {:induction false} SlantRuleResult(st: Attrs, val: Value, auto: bool)
    requires !val.VInt?
    ensures ApplyRule(st, SlantRule, "slant", val, auto) == Ok(SetFont(st, "slant", val))
  {
  }

  /** relief sets the relief option; with auto, a relief other than flat
      also brings a border of width 1 unless one is already set. */
  lemma {:induction false} ReliefField(st: Attrs, keyval: string, key: string, val: Value, auto: bool)
    requires IsField(keyval, key, val) && LowerStr(key) == "relief"
    ensures ApplyField(st, keyval, auto)
         == Ok(if auto && "borderwidth" !in Keys(st.options) && val != VStr("flat")
               then SetOption(SetOption(st, "relief", val), "borderwidth", VStr("1"))
               else SetOption(st, "relief", val))
  {
    ReliefKeys(LowerStr(key));
    RoutedField(st, keyval, key, val, auto, "relief", ReliefRule);
  }

  lemma {:induction false} ReliefKeys(k: string)
    requires k == "relief"
    ensures Routes(k, "relief", ReliefRule)
  {
    KeyRelief();
  }

  /** bitmap sets the bitmap option; with auto, it also centres the
      image (compound=center) unless a compound is already set. */
  lemma {:induction false} BitmapField(st: Attrs, keyval: string, key: string, val: Value, auto: bool)
    requires IsField(keyval, key, val) && LowerStr(key) == "bitmap"
    ensures ApplyField(st, keyval, auto)
         == Ok(if auto && "compound" !in Keys(st.options)
               then SetOption(SetOption(st, "bitmap", val), "compound", VStr("center"))
               else SetOption(st, "bitmap", val))
  {
    BitmapKeys(LowerStr(key));
    RoutedField(st, keyval, key, val, auto, "bitmap", ImageRule);
  }

  lemma {:induction false} BitmapKeys(k: string)
    requires k == "bitmap"
    ensures Routes(k, "bitmap", ImageRule)
  {
    KeyBitmap();
  }

  /** case=p selects the first of upper, capitalize, lower, title and
      swapcase that starts with p (capitalize counting as upper) and keeps
      the case when none does; a bare case is an error. */
  lemma {:induction false} CaseField(st: Attrs, keyval: string, key: string, val: Value, auto: bool)
    requires IsField(keyval, key, val) && LowerStr(key) == "case"
    ensures val == VNone ==> ApplyField(st, keyval, auto) == Err(CaseWithoutValue)
    ensures val != VNone ==>
      var picked := PickCase(LowerStr(val.s), CaseNames);
      ApplyField(st, keyval, auto)
      == Ok(if picked.None? then st
            else st.(textCase := if picked.value == "capitalize" then "upper" else picked.value))
  {
    CaseKeys(LowerStr(key));
    RoutedField(st, keyval, key, val, auto, "case", CaseRule);
  }

  lemma {:induction false} CaseKeys(k: string)
    requires k == "case"
    ensures Routes(k, "case", CaseRule)
  {
    KeyCase();
  }

  /** PickCase picks the first name that starts with p, and None means no
      name does. */
  lemma {:induction false} PickCaseFirst(p: string, names: seq<string>)
    ensures PickCase(p, names).Some? ==>
      exists i :: 0 <= i < |names| && names[i] == PickCase(p, names).value
        && StartsWith(names[i], p) && forall j :: 0 <= j < i ==> !StartsWith(names[j], p)
    ensures PickCase(p, names).None? <==> forall n :: n in names ==> !StartsWith(n, p)
  {
    if names != [] && !StartsWith(names[0], p) {
      PickCaseFirst(p, names[1..]);
      if PickCase(p, names).Some? {
        var i :| 0 <= i < |names[1..]| && names[1..][i] == PickCase(p, names).value
          && StartsWith(names[1..][i], p) && forall j :: 0 <= j < i ==> !StartsWith(names[1..][j], p);
        assert names[i + 1] == names[1..][i];
        forall j | 0 <= j < i + 1 ensures !StartsWith(names[j], p) {
          if j > 0 { assert names[j] == names[1..][j - 1]; }
        }
      }
      assert forall n :: n in names ==> n == names[0] || n in names[1..];
    } else if names != [] {
      assert names[0] in names;
    }
  }

  // ---------------------------------------------------------------------
  // What the loop keeps

  /** The font attributes the decoder writes. */
  const FontNames: seq<string> := ["family", "size", "weight", "slant", "underline", "overstrike"]

  /** The cases the decoder sets (capitalize is stored as upper). */
  const CaseResults: seq<string> := ["upper", "lower", "title", "swapcase"]

  /** From st to r the decoder only adds entries: the keys of both dicts
      keep their places with new keys after them, no key is duplicated, the
      font gains only standard attribute names and the case is unchanged or
      one of the four it sets. */
  predicate Grows(st: Attrs, r: Attrs) {
    && Keys(st.options) <= Keys(r.options)
    && Keys(st.font) <= Keys(r.font)
    && (forall k :: k in Keys(r.font) ==> k in Keys(st.font) || k in FontNames)
    && (r.textCase == st.textCase || r.textCase in CaseResults)
    && (UniqueKeys(st.options) ==> UniqueKeys(r.options))
    && (UniqueKeys(st.font) ==> UniqueKeys(r.font))
  }

  lemma {:induction false} GrowsTrans(a: Attrs, b: Attrs, c: Attrs)
    requires Grows(a, b) && Grows(b, c)
    ensures Grows(a, c)
  {
    forall k | k in Keys(c.font) ensures k in Keys(a.font) || k in FontNames {
      if k in Keys(b.font) {
        assert k in Keys(a.font) || k in FontNames;
      }
    }
  }

  lemma {:induction false} SetOptionGrows(st: Attrs, k: string, v: Value)
    ensures Grows(st, SetOption(st, k, v))
  {
    if UniqueKeys(st.options) { PutUnique(st.options, k, v); }
  }

  lemma {:induction false} SetFontGrows(st: Attrs, k: string, v: Value)
    requires k in FontNames
    ensures Grows(st, SetFont(st, k, v))
  {
    if UniqueKeys(st.font) { PutUnique(st.font, k, v); }
  }

  lemma {:induction false} SameGrows(st: Attrs)
    ensures Grows(st, st)
  {
  }

  lemma {:induction false} CaseGrows(st: Attrs, c: string)
    requires c in CaseResults
    ensures Grows(st, st.(textCase := c))
  {
  }

  lemma {:induction false} OptionRuleGrows(st: Attrs, rule: Rule, key: string, val: Value, auto: bool)
    requires !val.VInt? && rule in {ColorRule, ImageRule, BorderRule, CommandRule, IntRule, CursorRule,
                                     ReliefRule, UnderlineRule, SelectRule, OtherRule}
    ensures ApplyRule(st, rule, key, val, auto).Ok? ==> Grows(st, ApplyRule(st, rule, key, val, auto).value)
  {
    var r := ApplyRule(st, rule, key, val, auto);
    if r.Ok? {
      match rule
      case ImageRule =>
        var st' := SetOption(st, key, val);
        SetOptionGrows(st, key, val);
        if auto && "compound" !in Keys(st'.options) {
          SetOptionGrows(st', "compound", VStr("center"));
          GrowsTrans(st, st', r.value);
        }
      case ReliefRule =>
        var st' := SetOption(st, "relief", val);
        SetOptionGrows(st, "relief", val);
        if auto && "borderwidth" !in Keys(st'.options) && val != VStr("flat") {
          SetOptionGrows(st', "borderwidth", VStr("1"));
          GrowsTrans(st, st', r.value);
        }
      case BorderRule => SetOptionGrows(st, "borderwidth", val);
      case IntRule => SetOptionGrows(st, key, IntValue(key, val).value);
      case UnderlineRule =>
        if val == VNone {
          SetOptionGrows(st, "underline", VInt(-1));
        } else {
          SetOptionGrows(st, "underline", IntValue(key, val).value);
        }
      case _ => SetOptionGrows(st, key, val);
    }
  }

  lemma {:induction false} FontRuleGrows(st: Attrs, rule: Rule, key: string, val: Value, auto: bool)
    requires !val.VInt? && rule in {FamilyRule, SizeRule, BoldRule, WeightRule, ItalicRule, SlantRule,
                                     FUnderlineRule, FOverstrikeRule}
    ensures ApplyRule(st, rule, key, val, auto).Ok? ==> Grows(st, ApplyRule(st, rule, key, val, auto).value)
  {
    if ApplyRule(st, rule, key, val, auto).Ok? {
      match rule
      case FamilyRule => SetFontGrows(st, "family", val);
      case SizeRule => SetFontGrows(st, "size", IntValue(key, val).value);
      case BoldRule => SetFontGrows(st, "weight", VStr(if Affirmative(val) then "bold" else "normal"));
      case WeightRule => SetFontGrows(st, "weight", val);
      case ItalicRule => SetFontGrows(st, "slant", VStr(if Affirmative(val) then "italic" else "roman"));
      case SlantRule => SetFontGrows(st, "slant", val);
      case FUnderlineRule => SetFontGrows(st, "underline", VInt(if Affirmative(val) then 1 else 0));
      case FOverstrikeRule => SetFontGrows(st, "overstrike", VInt(if Affirmative(val) then 1 else 0));
    }
  }

  lemma {:induction false} PickCaseIn(p: string, names: seq<string>)
    ensures PickCase(p, names).Some? ==> PickCase(p, names).value in names
  {
    if names != [] && !StartsWith(names[0], p) {
      PickCaseIn(p, names[1..]);
    }
  }

  /** The case a case=p field stores is one of the four the decoder sets. */
  lemma {:induction false} PickedCase(c: string)
    requires c in CaseNames
    ensures (if c == "capitalize" then "upper" else c) in CaseResults
  {
  }

  lemma {:induction false} CaseValueGrows(st: Attrs, key: string, val: Value, auto: bool)
    requires !val.VInt?
    ensures ApplyRule(st, CaseRule, key, val, auto).Ok? ==> Grows(st, ApplyRule(st, CaseRule, key, val, auto).value)
  {
    if val.VStr? {
      var picked := PickCase(LowerStr(val.s), CaseNames);
      if picked.None? {
        SameGrows(st);
      } else {
        PickCaseIn(LowerStr(val.s), CaseNames);
        PickedCase(picked.value);
        CaseGrows(st, if picked.value == "capitalize" then "upper" else picked.value);
      }
    }
  }

  lemma {:induction false} FlagCaseGrows(st: Attrs, val: Value, c: string)
    requires c in CaseResults
    ensures Grows(st, SetCaseIf(st, val, c))
  {
    SameGrows(st);
    CaseGrows(st, c);
  }

  lemma {:induction false} CaseRuleGrows(st: Attrs, rule: Rule, key: string, val: Value, auto: bool)
    requires !val.VInt? && rule in {CaseRule, UpperRule, LowerRule, TitleRule, SwapcaseRule}
    ensures ApplyRule(st, rule, key, val, auto).Ok? ==> Grows(st, ApplyRule(st, rule, key, val, auto).value)
  {
    match rule
    case CaseRule => CaseValueGrows(st, key, val, auto);
    case UpperRule => FlagCaseGrows(st, val, "upper");
    case LowerRule => FlagCaseGrows(st, val, "lower");
    case TitleRule => FlagCaseGrows(st, val, "title");
    case SwapcaseRule => FlagCaseGrows(st, val, "swapcase");
  }

  /** One field only adds entries. */
  lemma {:induction false} FieldGrows(st: Attrs, keyval: string, auto: bool)
    ensures ApplyField(st, keyval, auto).Ok? ==> Grows(st, ApplyField(st, keyval, auto).value)
  {
    var kv := SplitField(keyval);
    if kv.Ok? && kv.value.Some? && kv.value.value.1 != VStr("None") {
      var (key, val) := kv.value.value;
      FieldValue(keyval, key, val);
      var lkey := LowerStr(key);
      var rule := DecodeRule(lkey);
      if rule in {FamilyRule, SizeRule, BoldRule, WeightRule, ItalicRule, SlantRule, FUnderlineRule, FOverstrikeRule} {
        FontRuleGrows(st, rule, Unalias(lkey), val, auto);
      } else if rule in {CaseRule, UpperRule, LowerRule, TitleRule, SwapcaseRule} {
        CaseRuleGrows(st, rule, Unalias(lkey), val, auto);
      } else {
        OptionRuleGrows(st, rule, Unalias(lkey), val, auto);
      }
    } else {
      SameGrows(st);
    }
  }

  /** Decoding a whole tag only adds entries: the dicts passed in keep
      their keys in place, keys stay unique, the font dict gains only
      standard font attributes and the case is kept or set to one of
      upper, lower, title and swapcase. */
  lemma {:induction false} FieldsGrow(st: Attrs, fields: seq<string>, auto: bool)
    ensures ApplyFields(st, fields, auto).Ok? ==> Grows(st, ApplyFields(st, fields, auto).value)
    decreases |fields|
  {
    if fields == [] {
      SameGrows(st);
    } else {
      var step := ApplyField(st, fields[0], auto);
      if step.Ok? {
        FieldGrows(st, fields[0], auto);
        FieldsGrow(step.value, fields[1..], auto);
        if ApplyFields(st, fields, auto).Ok? {
          GrowsTrans(st, step.value, ApplyFields(st, fields, auto).value);
        }
      }
    }
  }

  lemma {:induction false} TagAttrsGrow(tagStr: string, st: Attrs, auto: bool)
    ensures TagAttrs(tagStr, st, auto).Ok? ==> Grows(st, TagAttrs(tagStr, st, auto).value)
  {
    var fields := AttrFields(tagStr);
    if fields.Ok? {
      FieldsGrow(st, fields.value, auto);
    }
  }
}
