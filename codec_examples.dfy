/**
 * The gen_tag_attrs and parse_tag_attrs cases of the test suite, worked
 * through the encoder and the decoder: the options dict of the first three
 * cases written out in the three key spellings, and the text of the fifth
 * case read back as its options dict, font dict and case.
 */
module CodecExamples {
  import opened Base
  import opened Strs
  import opened Dicts
  import opened DictOps
  import opened Aliases
  import opened Quoting
  import opened Tokenizer
  import opened Decode
  import opened Encode
  import opened Codec

  // ---------------------------------------------------------------------
  // One entry at a time, for any key that routes like the test's

  /** A key the loop does not pass over, lower-cased already. */
  predicate Written(k: string) {
    LowerStr(k) == k && k !in ControlKeys
  }

  /** A value with a blank and no double quote is quoted with double
      quotes. */
  lemma {:induction false} SpacedQuoted(s: string)
    requires ' ' in s && '"' !in s && !IsQuoteChar(s[0])
    ensures OutValue(VStr(s)) == VStr("\"" + s + "\"")
  {
    ContainsChar(s, ' ');
    ContainsChar(s, '"');
    assert " " == [' '] && "\"" == ['"'];
  }

  lemma {:induction false} TenDigits()
    ensures IntToStr(10) == "10"
  {
    assert NatToStr(1) == "1";
    assert NatToStr(10) == NatToStr(1) + [DigitChar(0)];
  }

  /** The first turn of the loop, whatever entry it takes. */
  lemma {:induction false} FieldsStep(fl: Flags, fmt: string, d: Dict, t: string)
    requires d != [] && GenField(fl, fmt, d[0].0, d[0].1) == Ok(fmt + t)
    ensures GenFields(fl, fmt, d) == GenFields(fl, fmt + t, d[1..])
  {
  }

  /** A family with a blank is written quoted. */
  lemma {:induction false} FamilyOut(fl: Flags, m: KeyMode, fmt: string, k: string, s: string)
    requires ParseKeyMode(fl.kmode) == Some(m) && Written(k) && GenRoute(k) == GFamily
    requires ' ' in s && '"' !in s && !IsQuoteChar(s[0])
    ensures GenField(fl, fmt, k, VStr(s)) == Ok(fmt + Token(KeyOut(m, k), "\"" + s + "\""))
  {
    SpacedQuoted(s);
    assert Appended(fl, m, fmt, k, VStr(s)) == Token(KeyOut(m, k), "\"" + s + "\"");
  }

  /** A colour is written as it is. */
  lemma {:induction false} ColorOut(fl: Flags, m: KeyMode, fmt: string, k: string, v: string)
    requires ParseKeyMode(fl.kmode) == Some(m) && Written(k) && GenRoute(k) == GColor && ValueWord(v)
    ensures GenField(fl, fmt, k, VStr(v)) == Ok(fmt + Token(KeyOut(m, k), v))
  {
    GenPlainField(fl, m, fmt, k, v);
  }

  /** A border width is appended when no auto border token precedes it. */
  lemma {:induction false} BdOut(fl: Flags, m: KeyMode, fmt: string, k: string, v: string)
    requires ParseKeyMode(fl.kmode) == Some(m) && Written(k) && GenRoute(k) == GBorder && ValueWord(v)
    requires '1' !in fmt
    ensures GenField(fl, fmt, k, VStr(v)) == Ok(fmt + Token(KeyOut(m, k), v))
  {
    NoCharNoContains(fmt, Token(AutoBorder(m), "1"), '1');
    BorderAppends(fl, m, fmt, k, VStr(v));
    PlainValueOut(v);
  }

  lemma {:induction false} NoCharNoContains(s: string, sub: string, c: char)
    requires c in sub && c !in s
    ensures !Contains(s, sub)
    decreases |s|
  {
    if |s| > 0 {
      assert c !in s[1..];
      NoCharNoContains(s[1..], sub, c);
    }
  }

  /** Without auto, a relief brings no border token. */
  lemma {:induction false} ReliefOut(fl: Flags, m: KeyMode, fmt: string, k: string, v: string)
    requires ParseKeyMode(fl.kmode) == Some(m) && Written(k) && GenRoute(k) == GRelief && ValueWord(v)
    requires !fl.auto
    ensures GenField(fl, fmt, k, VStr(v)) == Ok(fmt + Token(KeyOut(m, k), v))
  {
    ReliefAuto(fl, m, fmt, k, VStr(v));
    PlainValueOut(v);
  }

  /** The font underline flag 1 is written as 1 under kfunc("funderline"). */
  lemma {:induction false} FUnderlineOut(fl: Flags, m: KeyMode, fmt: string, k: string)
    requires ParseKeyMode(fl.kmode) == Some(m) && Written(k) && GenRoute(k) == GFUnderline
    ensures GenField(fl, fmt, k, VInt(1)) == Ok(fmt + Token(KFunc(m, "funderline"), "1"))
  {
    assert IntToStr(1) == "1";
    assert Appended(fl, m, fmt, k, VInt(1)) == Token(KFunc(m, "funderline"), "1");
  }

  /** The font overstrike flag 0 is written as 0 under kfunc("foverstrike"). */
  lemma {:induction false} FOverstrikeOut(fl: Flags, m: KeyMode, fmt: string, k: string)
    requires ParseKeyMode(fl.kmode) == Some(m) && Written(k) && GenRoute(k) == GFOverstrike
    ensures GenField(fl, fmt, k, VInt(0)) == Ok(fmt + Token(KFunc(m, "foverstrike"), "0"))
  {
    assert IntToStr(0) == "0";
    assert Appended(fl, m, fmt, k, VInt(0)) == Token(KFunc(m, "foverstrike"), "0");
  }

  /** An int under a key the colour branch takes (underline does) is
      written as its digits. */
  lemma {:induction false} IntOut(fl: Flags, m: KeyMode, fmt: string, k: string, n: int)
    requires ParseKeyMode(fl.kmode) == Some(m) && Written(k) && GenRoute(k) == GColor && n != 0
    ensures GenField(fl, fmt, k, VInt(n)) == Ok(fmt + Token(KeyOut(m, k), IntToStr(n)))
  {
    PlainItem(fl, m, fmt, k, VInt(n));
  }

  // ---------------------------------------------------------------------
  // A dict shaped like the test's

  /** How the encoder routes the keys of the test's dict, in order. */
  const TestKinds: seq<GenRule> := [GFamily, GColor, GColor, GBorder, GRelief, GFUnderline, GFOverstrike, GColor]

  /** A dict with the test's shape: a family with a blank, two colours, a
      border width, a relief, the two font flags set to 1 and 0, and an int
      under a colour-routed key. */
  function Shaped(ks: seq<string>, vs: seq<string>, n: int): (d: Dict)
    requires |ks| == 8 && |vs| == 5
    ensures |d| == 8 && forall i :: 0 <= i < 8 ==> d[i].0 == ks[i]
  {
    [(ks[0], VStr(vs[0])), (ks[1], VStr(vs[1])), (ks[2], VStr(vs[2])), (ks[3], VStr(vs[3])),
     (ks[4], VStr(vs[4])), (ks[5], VInt(1)), (ks[6], VInt(0)), (ks[7], VInt(n))]
  }

  /** The name the encoder writes for a key of the given kind. */
  function Spelling(m: KeyMode, k: string, kind: GenRule): string {
    if kind == GFUnderline then KFunc(m, "funderline")
    else if kind == GFOverstrike then KFunc(m, "foverstrike")
    else KeyOut(m, k)
  }

  /** What the encoder needs of a shaped dict, with sk the names it writes
      in spelling m. */
  predicate ShapeHolds(m: KeyMode, ks: seq<string>, sk: seq<string>, vs: seq<string>, n: int) {
    && |ks| == 8 && |sk| == 8 && |vs| == 5 && n != 0
    && (forall i :: 0 <= i < 8 ==> Written(ks[i]) && GenRoute(ks[i]) == TestKinds[i])
    && (forall i :: 0 <= i < 8 ==> sk[i] == Spelling(m, ks[i], TestKinds[i]))
    && ' ' in vs[0] && '"' !in vs[0] && !IsQuoteChar(vs[0][0])
    && (forall i :: 1 <= i < 5 ==> ValueWord(vs[i]))
  }

  /** The tokens the encoder writes for a shaped dict. */
  function ShapedTokens(sk: seq<string>, vs: seq<string>, n: int): (ts: seq<string>)
    requires |sk| == 8 && |vs| == 5
    ensures |ts| == 8
  {
    [Token(sk[0], "\"" + vs[0] + "\""), Token(sk[1], vs[1]), Token(sk[2], vs[2]), Token(sk[3], vs[3]),
     Token(sk[4], vs[4]), Token(sk[5], "1"), Token(sk[6], "0"), Token(sk[7], IntToStr(n))]
  }

  /** The i-th entry of a shaped dict, and the token written for it. */
  function ShapedEntry(ks: seq<string>, vs: seq<string>, n: int, i: nat): (string, Value)
    requires |ks| == 8 && |vs| == 5 && i < 8
  {
    (ks[i], if i < 5 then VStr(vs[i]) else if i == 5 then VInt(1) else if i == 6 then VInt(0) else VInt(n))
  }

  function ShapedToken(sk: seq<string>, vs: seq<string>, n: int, i: nat): string
    requires |sk| == 8 && |vs| == 5 && i < 8
  {
    Token(sk[i], if i == 0 then "\"" + vs[0] + "\"" else if i < 5 then vs[i]
                 else if i == 5 then "1" else if i == 6 then "0" else IntToStr(n))
  }

  lemma {:induction false} ShapedAt(ks: seq<string>, sk: seq<string>, vs: seq<string>, n: int, i: nat)
    requires |ks| == 8 && |sk| == 8 && |vs| == 5 && i < 8
    ensures Shaped(ks, vs, n)[i] == ShapedEntry(ks, vs, n, i)
    ensures ShapedTokens(sk, vs, n)[i] == ShapedToken(sk, vs, n, i)
  {
  }

  lemma {:induction false} EntryOutFirst(fl: Flags, m: KeyMode, fmt: string, ks: seq<string>, sk: seq<string>,
                                         vs: seq<string>, n: int, i: nat)
    requires ParseKeyMode(fl.kmode) == Some(m) && !fl.auto && ShapeHolds(m, ks, sk, vs, n) && i < 4
    requires i == 3 ==> '1' !in fmt
    ensures var e := ShapedEntry(ks, vs, n, i); GenField(fl, fmt, e.0, e.1) == Ok(fmt + ShapedToken(sk, vs, n, i))
  {
    assert Written(ks[i]) && GenRoute(ks[i]) == TestKinds[i] && sk[i] == Spelling(m, ks[i], TestKinds[i]);
    if i == 0 {
      FamilyOut(fl, m, fmt, ks[0], vs[0]);
    } else if i == 3 {
      assert ValueWord(vs[3]);
      BdOut(fl, m, fmt, ks[3], vs[3]);
    } else {
      assert ValueWord(vs[i]);
      ColorOut(fl, m, fmt, ks[i], vs[i]);
    }
  }

  lemma {:induction false} EntryOutLast(fl: Flags, m: KeyMode, fmt: string, ks: seq<string>, sk: seq<string>,
                                        vs: seq<string>, n: int, i: nat)
    requires ParseKeyMode(fl.kmode) == Some(m) && !fl.auto && ShapeHolds(m, ks, sk, vs, n) && 4 <= i < 8
    ensures var e := ShapedEntry(ks, vs, n, i); GenField(fl, fmt, e.0, e.1) == Ok(fmt + ShapedToken(sk, vs, n, i))
  {
    assert Written(ks[i]) && GenRoute(ks[i]) == TestKinds[i] && sk[i] == Spelling(m, ks[i], TestKinds[i]);
    if i == 4 {
      assert ValueWord(vs[4]);
      ReliefOut(fl, m, fmt, ks[4], vs[4]);
    } else if i == 5 {
      FUnderlineOut(fl, m, fmt, ks[5]);
    } else if i == 6 {
      FOverstrikeOut(fl, m, fmt, ks[6]);
    } else {
      IntOut(fl, m, fmt, ks[7], n);
    }
  }

  lemma {:induction false} StrAssoc(a: string, b: string, c: string)
    ensures a + b + c == a + (b + c)
  {
  }

  lemma {:induction false} ConcatStep(ts: seq<string>, i: nat)
    requires i < |ts|
    ensures Concat(ts[i..]) == ts[i] + Concat(ts[i + 1..])
  {
    assert ts[i..][1..] == ts[i + 1..];
  }

  /** Entry e is written as token t after any prefix, or after any prefix
      without a '1' when guarded. */
  ghost predicate Emits(fl: Flags, e: (string, Value), t: string, guarded: bool) {
    forall f: string :: (guarded ==> '1' !in f) ==> GenField(fl, f, e.0, e.1) == Ok(f + t)
  }

  /** The loop from the i-th entry on writes the tokens from the i-th on,
      when each entry emits its token and the tokens before the guarded
      entry g hold no '1'. */
  lemma {:induction false} EmitsFields(fl: Flags, fmt: string, d: Dict, ts: seq<string>, g: nat, i: nat)
    requires |d| == |ts| && i <= |d|
    requires forall j :: i <= j < |d| ==> Emits(fl, d[j], ts[j], j == g)
    requires forall j :: i <= j < g && j < |ts| ==> '1' !in ts[j]
    requires i <= g ==> '1' !in fmt
    ensures GenFields(fl, fmt, d[i..]) == Ok(fmt + Concat(ts[i..]))
    decreases |d| - i
  {
    if i == |d| {
      assert d[i..] == [] && ts[i..] == [];
      assert fmt + [] == fmt;
    } else {
      EmitStep(fl, fmt, d, ts, g, i);
      if i < g {
        assert '1' !in fmt + ts[i];
      }
      EmitsFields(fl, fmt + ts[i], d, ts, g, i + 1);
      ConcatStep(ts, i);
      StrAssoc(fmt, ts[i], Concat(ts[i + 1..]));
    }
  }

  lemma {:induction false} EmitStep(fl: Flags, fmt: string, d: Dict, ts: seq<string>, g: nat, i: nat)
    requires |d| == |ts| && i < |d|
    requires Emits(fl, d[i], ts[i], i == g)
    requires i == g ==> '1' !in fmt
    ensures GenFields(fl, fmt, d[i..]) == GenFields(fl, fmt + ts[i], d[i + 1..])
  {
    var rest := d[i..];
    assert rest[0] == d[i] && rest[1..] == d[i + 1..];
    assert GenField(fl, fmt, rest[0].0, rest[0].1) == Ok(fmt + ts[i]);
    FieldsStep(fl, fmt, rest, ts[i]);
  }

  /** The whole loop writes all the tokens. */
  lemma {:induction false} EmitsAllFields(fl: Flags, d: Dict, ts: seq<string>, g: nat)
    requires |d| == |ts|
    requires forall j :: 0 <= j < |d| ==> Emits(fl, d[j], ts[j], j == g)
    requires forall j :: 0 <= j < g && j < |ts| ==> '1' !in ts[j]
    ensures GenFields(fl, "", d) == Ok(Concat(ts))
  {
    EmitsFields(fl, "", d, ts, g, 0);
    assert d[0..] == d && ts[0..] == ts;
    assert "" + Concat(ts) == Concat(ts);
  }

  /** Every entry of a shaped dict emits its token. */
  lemma {:induction false} ShapedEmits(fl: Flags, m: KeyMode, ks: seq<string>, sk: seq<string>, vs: seq<string>, n: int)
    requires ParseKeyMode(fl.kmode) == Some(m) && !fl.auto && ShapeHolds(m, ks, sk, vs, n)
    ensures forall j :: 0 <= j < 8 ==> Emits(fl, Shaped(ks, vs, n)[j], ShapedTokens(sk, vs, n)[j], j == 3)
  {
    forall j | 0 <= j < 8
      ensures Emits(fl, Shaped(ks, vs, n)[j], ShapedTokens(sk, vs, n)[j], j == 3)
    {
      ShapedAt(ks, sk, vs, n, j);
      forall f: string | j == 3 ==> '1' !in f
        ensures GenField(fl, f, ShapedEntry(ks, vs, n, j).0, ShapedEntry(ks, vs, n, j).1) == Ok(f + ShapedToken(sk, vs, n, j))
      {
        if j < 4 {
          EntryOutFirst(fl, m, f, ks, sk, vs, n, j);
        } else {
          EntryOutLast(fl, m, f, ks, sk, vs, n, j);
        }
      }
    }
  }

  /** The encoder writes a shaped dict as its tokens, one after another. */
  lemma {:induction false} ShapedFields(fl: Flags, m: KeyMode, ks: seq<string>, sk: seq<string>, vs: seq<string>, n: int)
    requires ParseKeyMode(fl.kmode) == Some(m) && !fl.auto && ShapeHolds(m, ks, sk, vs, n)
    requires forall j :: 0 <= j < 3 ==> '1' !in ShapedTokens(sk, vs, n)[j]
    ensures GenFields(fl, "", Shaped(ks, vs, n)) == Ok(Concat(ShapedTokens(sk, vs, n)))
  {
    ShapedEmits(fl, m, ks, sk, vs, n);
    EmitsAllFields(fl, Shaped(ks, vs, n), ShapedTokens(sk, vs, n), 3);
  }

  // ---------------------------------------------------------------------
  // The test's dict

  const TestKeys: seq<string> := ["family", "background", "fg", "bd", "relief", "funderline", "foverstrike", "underline"]
  const TestValues: seq<string> := ["Courier New", "white", "blue", "2", "solid"]

  /** `dict(family="Courier New", background='white', fg='blue', bd='2',
      relief=tk.SOLID, funderline=1, foverstrike=0, underline=10)` */
  const TestOptions: Dict := Shaped(TestKeys, TestValues, 10)

  /** The names the encoder writes for the test's keys, in the alias and
      the option spelling (as given, they are the keys themselves). */
  const AliasKeys: seq<string> := ["fam", "bg", "fg", "bd", "rel", "u", "o", "ul"]
  const OptionKeys: seq<string> := ["family", "background", "foreground", "borderwidth", "relief", "funderline", "foverstrike", "underline"]

  lemma {:induction false} TestKeyAt(j: nat)
    requires j < 8
    ensures Written(TestKeys[j]) && GenRoute(TestKeys[j]) == TestKinds[j]
  {
    TestKeyWritten(j);
    TestKeyRoute(j);
  }

  lemma {:induction false} TestKeyWritten(j: nat)
    requires j < 8
    ensures Written(TestKeys[j])
  {
    WrittenWord(TestKeys[j]);
  }

  /** A lower-case word that starts unlike every control key. */
  lemma {:induction false} WrittenWord(k: string)
    requires k != [] && k[0] !in "aekp" && forall i :: 0 <= i < |k| ==> 'a' <= k[i] <= 'z'
    ensures Written(k)
  {
    SmallWord(k);
    assert forall c :: c in ControlKeys ==> c[0] in "aekp";
  }

  lemma {:induction false} TestKeyRoute(j: nat)
    requires j < 8
    ensures GenRoute(TestKeys[j]) == TestKinds[j]
  {
    if j == 0 { GenFamily(); }
    else if j == 1 { GenBackground(); }
    else if j == 2 { GenFg(); }
    else if j == 3 { GenBd(); }
    else if j == 4 { GenRelief(); }
    else if j == 5 { GenFunderline(); }
    else if j == 6 { GenFoverstrike(); }
    else { GenUnderline(); }
  }

  lemma {:induction false} TestValuesFit()
    ensures ' ' in TestValues[0] && '"' !in TestValues[0] && !IsQuoteChar(TestValues[0][0])
    ensures forall i :: 1 <= i < 5 ==> ValueWord(TestValues[i])
  {
    assert TestValues[0][7] == ' ';
  }

  lemma {:induction false} GivenSpelling()
    ensures forall j :: 0 <= j < 8 ==> TestKeys[j] == Spelling(AsGiven, TestKeys[j], TestKinds[j])
    ensures forall j :: 0 <= j < 3 ==> '1' !in TestKeys[j]
    ensures TestKeys[0] != [] && TestKeys[0][0] == 'f'
  {
  }

  lemma {:induction false} AliasSpelled()
    ensures forall j :: 0 <= j < 8 ==> AliasKeys[j] == Spelling(AliasNames, TestKeys[j], TestKinds[j])
    ensures forall j :: 0 <= j < 3 ==> '1' !in AliasKeys[j]
    ensures AliasKeys[0] != [] && AliasKeys[0][0] == 'f'
  {
    forall j | 0 <= j < 8
      ensures AliasKeys[j] == Spelling(AliasNames, TestKeys[j], TestKinds[j])
    {
      AliasSpelling(j);
    }
  }

  lemma {:induction false} AliasSpelling(j: nat)
    requires j < 8
    ensures AliasKeys[j] == Spelling(AliasNames, TestKeys[j], TestKinds[j])
  {
    if j == 0 { assert Aliased("family") == Some("fam"); }
    else if j == 1 { assert Aliased("background") == Some("bg"); }
    else if j == 4 { assert Aliased("relief") == Some("rel"); }
    else if j == 5 { assert Aliased("funderline") == Some("u"); }
    else if j == 6 { assert Aliased("foverstrike") == Some("o"); }
    else if j == 7 { assert Aliased("underline") == Some("ul"); }
  }

  lemma {:induction false} OptionSpelled()
    ensures forall j :: 0 <= j < 8 ==> OptionKeys[j] == Spelling(OptionNames, TestKeys[j], TestKinds[j])
    ensures forall j :: 0 <= j < 3 ==> '1' !in OptionKeys[j]
    ensures OptionKeys[0] != [] && OptionKeys[0][0] == 'f'
  {
    forall j | 0 <= j < 8
      ensures OptionKeys[j] == Spelling(OptionNames, TestKeys[j], TestKinds[j])
    {
      OptionSpelling(j);
    }
  }

  lemma {:induction false} OptionSpelling(j: nat)
    requires j < 8
    ensures OptionKeys[j] == Spelling(OptionNames, TestKeys[j], TestKinds[j])
  {
    if j == 2 { assert Unaliased("fg") == Some("foreground"); }
    else if j == 3 { assert Unaliased("bd") == Some("borderwidth"); }
  }

  lemma {:induction false} TestKeysUnique()
    ensures UniqueKeys(TestOptions)
  {
    forall i, j | 0 <= i < j < 8
      ensures TestKeys[i] != TestKeys[j]
    {
      assert |TestKeys[i]| != |TestKeys[j]| || TestKeys[i][0] != TestKeys[j][0];
    }
  }

  lemma {:induction false} TokenNoOne(k: string, v: string)
    requires '1' !in k && '1' !in v
    ensures '1' !in Token(k, v)
  {
  }

  /** The tokens before the border width hold no '1'. */
  lemma {:induction false} TestGuard(sk: seq<string>)
    requires |sk| == 8 && forall j :: 0 <= j < 3 ==> '1' !in sk[j]
    ensures forall j :: 0 <= j < 3 ==> '1' !in ShapedTokens(sk, TestValues, 10)[j]
  {
    forall j | 0 <= j < 3
      ensures '1' !in ShapedTokens(sk, TestValues, 10)[j]
    {
      ShapedAt(TestKeys, sk, TestValues, 10, j);
      var v := if j == 0 then "\"" + TestValues[0] + "\"" else TestValues[j];
      assert '1' !in v;
      TokenNoOne(sk[j], v);
    }
  }

  /** What the encoder needs of the test's dict, with sk the names it
      writes. */
  lemma {:induction false} TestShape(m: KeyMode, sk: seq<string>)
    requires |sk| == 8 && forall j :: 0 <= j < 8 ==> sk[j] == Spelling(m, TestKeys[j], TestKinds[j])
    ensures ShapeHolds(m, TestKeys, sk, TestValues, 10)
  {
    forall j | 0 <= j < 8
      ensures Written(TestKeys[j]) && GenRoute(TestKeys[j]) == TestKinds[j]
    {
      TestKeyAt(j);
    }
    TestValuesFit();
  }

  /** The test's dict, written with names sk, is text: the tokens with the
      last blank stripped. */
  lemma {:induction false} TestText(fl: Flags, m: KeyMode, sk: seq<string>, text: string)
    requires ParseKeyMode(fl.kmode) == Some(m) && !fl.auto && |sk| == 8
    requires forall j :: 0 <= j < 8 ==> sk[j] == Spelling(m, TestKeys[j], TestKinds[j])
    requires forall j :: 0 <= j < 3 ==> '1' !in sk[j]
    requires sk[0] != [] && !IsSpace(sk[0][0])
    requires Concat(ShapedTokens(sk, TestValues, 10)) == text + " "
    requires text != [] && !IsSpace(text[|text| - 1])
    ensures TagAttrsText(TestOptions, [], VNone, [], fl) == Ok(text)
  {
    TextFirst(text, ShapedTokens(sk, TestValues, 10));
    ShapedAt(TestKeys, sk, TestValues, 10, 0);
    TestShape(m, sk);
    TestGuard(sk);
    ShapedFields(fl, m, TestKeys, sk, TestValues, 10);
    TestKeysUnique();
    AloneText(fl, TestOptions, text);
  }

  /** The first character of text is that of the first token. */
  lemma {:induction false} TextFirst(text: string, ts: seq<string>)
    requires |ts| > 0 && ts[0] != [] && text != [] && Concat(ts) == text + " "
    ensures text[0] == ts[0][0]
  {
    ConcatStep(ts, 0);
    assert ts[0..] == ts;
    assert (text + " ")[0] == text[0];
    assert (ts[0] + Concat(ts[1..]))[0] == ts[0][0];
  }

  /** A dict alone, whose fields the loop writes as text and a blank, is
      encoded as text. */
  lemma {:induction false} AloneText(fl: Flags, d: Dict, text: string)
    requires UniqueKeys(d) && GenFields(fl, "", d) == Ok(text + " ")
    requires text != [] && !IsSpace(text[0]) && !IsSpace(text[|text| - 1])
    ensures TagAttrsText(d, [], VNone, [], fl) == Ok(text)
  {
    MergedAlone(d);
    TrailingBlankStrip(text);
  }

  // ---------------------------------------------------------------------
  // The first three cases: the test's dict in each key spelling

  const GivenText: string := "family=\"Courier New\" background=white fg=blue bd=2 relief=solid funderline=1 foverstrike=0 underline=10"
  const AliasText: string := "fam=\"Courier New\" bg=white fg=blue bd=2 rel=solid u=1 o=0 ul=10"
  const OptionText: string := "family=\"Courier New\" background=white foreground=blue borderwidth=2 relief=solid funderline=1 foverstrike=0 underline=10"

  lemma {:induction false} ConcatEight(ts: seq<string>)
    requires |ts| == 8
    ensures Concat(ts) == ts[0] + ts[1] + ts[2] + ts[3] + ts[4] + ts[5] + ts[6] + ts[7]
  {
    ConcatStep(ts, 0);
    ConcatStep(ts, 1);
    ConcatStep(ts, 2);
    ConcatStep(ts, 3);
    ConcatStep(ts, 4);
    ConcatStep(ts, 5);
    ConcatStep(ts, 6);
    ConcatStep(ts, 7);
    assert ts[8..] == [] && ts[7] + [] == ts[7];
    var r6 := ts[6] + ts[7];
    var r5 := ts[5] + r6;
    var r4 := ts[4] + r5;
    var r3 := ts[3] + r4;
    var r2 := ts[2] + r3;
    var r1 := ts[1] + r2;
    StrAssoc(ts[0], ts[1], r2);
    StrAssoc(ts[0] + ts[1], ts[2], r3);
    StrAssoc(ts[0] + ts[1] + ts[2], ts[3], r4);
    StrAssoc(ts[0] + ts[1] + ts[2] + ts[3], ts[4], r5);
    StrAssoc(ts[0] + ts[1] + ts[2] + ts[3] + ts[4], ts[5], r6);
    StrAssoc(ts[0] + ts[1] + ts[2] + ts[3] + ts[4] + ts[5], ts[6], ts[7]);
  }

  lemma {:induction false} GivenTokens()
    ensures ShapedTokens(TestKeys, TestValues, 10) == ["family=\"Courier New\" ", "background=white ", "fg=blue ", "bd=2 ", "relief=solid ", "funderline=1 ", "foverstrike=0 ", "underline=10 "]
  {
    TenDigits();
    assert "\"" + "Courier New" + "\"" == "\"Courier New\"";
    assert "family" + "=" + "\"Courier New\"" + " " == "family=\"Courier New\" ";
    assert "background" + "=" + "white" + " " == "background=white ";
    assert "fg" + "=" + "blue" + " " == "fg=blue ";
    assert "bd" + "=" + "2" + " " == "bd=2 ";
    assert "relief" + "=" + "solid" + " " == "relief=solid ";
    assert "funderline" + "=" + "1" + " " == "funderline=1 ";
    assert "foverstrike" + "=" + "0" + " " == "foverstrike=0 ";
    assert "underline" + "=" + "10" + " " == "underline=10 ";
  }

  lemma {:induction false} GivenJoin1()
    ensures "family=\"Courier New\" " + "background=white " + "fg=blue " + "bd=2 " == "family=\"Courier New\" background=white fg=blue bd=2 "
  {
    assert "family=\"Courier New\" " + "background=white " == "family=\"Courier New\" background=white ";
    assert "family=\"Courier New\" background=white " + "fg=blue " == "family=\"Courier New\" background=white fg=blue ";
    assert "family=\"Courier New\" background=white fg=blue " + "bd=2 " == "family=\"Courier New\" background=white fg=blue bd=2 ";
  }

  lemma {:induction false} GivenJoin2()
    ensures "family=\"Courier New\" background=white fg=blue bd=2 " + "relief=solid " + "funderline=1 " == "family=\"Courier New\" background=white fg=blue bd=2 relief=solid funderline=1 "
  {
    assert "family=\"Courier New\" background=white fg=blue bd=2 " + "relief=solid " == "family=\"Courier New\" background=white fg=blue bd=2 relief=solid ";
    assert "family=\"Courier New\" background=white fg=blue bd=2 relief=solid " + "funderline=1 " == "family=\"Courier New\" background=white fg=blue bd=2 relief=solid funderline=1 ";
  }

  lemma {:induction false} GivenJoin3()
    ensures "family=\"Courier New\" background=white fg=blue bd=2 relief=solid funderline=1 " + "foverstrike=0 " == "family=\"Courier New\" background=white fg=blue bd=2 relief=solid funderline=1 foverstrike=0 "
  {
  }

  lemma {:induction false} GivenJoin4()
    ensures "family=\"Courier New\" background=white fg=blue bd=2 relief=solid funderline=1 foverstrike=0 " + "underline=10 " == GivenText + " "
  {
    assert "family=\"Courier New\" background=white fg=blue bd=2 relief=solid funderline=1 foverstrike=0 " + "underline=10 " == "family=\"Courier New\" background=white fg=blue bd=2 relief=solid funderline=1 foverstrike=0 underline=10 ";
  }

  lemma {:induction false} GivenConcat()
    ensures Concat(ShapedTokens(TestKeys, TestValues, 10)) == GivenText + " "
  {
    GivenTokens();
    ConcatEight(ShapedTokens(TestKeys, TestValues, 10));
    GivenJoin1();
    GivenJoin2();
    GivenJoin3();
    GivenJoin4();
  }

  lemma {:induction false} AliasTokens()
    ensures ShapedTokens(AliasKeys, TestValues, 10) == ["fam=\"Courier New\" ", "bg=white ", "fg=blue ", "bd=2 ", "rel=solid ", "u=1 ", "o=0 ", "ul=10 "]
  {
    TenDigits();
    assert "\"" + "Courier New" + "\"" == "\"Courier New\"";
    assert "fam" + "=" + "\"Courier New\"" + " " == "fam=\"Courier New\" ";
    assert "bg" + "=" + "white" + " " == "bg=white ";
    assert "fg" + "=" + "blue" + " " == "fg=blue ";
    assert "bd" + "=" + "2" + " " == "bd=2 ";
    assert "rel" + "=" + "solid" + " " == "rel=solid ";
    assert "u" + "=" + "1" + " " == "u=1 ";
    assert "o" + "=" + "0" + " " == "o=0 ";
    assert "ul" + "=" + "10" + " " == "ul=10 ";
  }

  lemma {:induction false} AliasJoin1()
    ensures "fam=\"Courier New\" " + "bg=white " + "fg=blue " + "bd=2 " == "fam=\"Courier New\" bg=white fg=blue bd=2 "
  {
    assert "fam=\"Courier New\" " + "bg=white " == "fam=\"Courier New\" bg=white ";
    assert "fam=\"Courier New\" bg=white " + "fg=blue " == "fam=\"Courier New\" bg=white fg=blue ";
    assert "fam=\"Courier New\" bg=white fg=blue " + "bd=2 " == "fam=\"Courier New\" bg=white fg=blue bd=2 ";
  }

  lemma {:induction false} AliasJoin2()
    ensures "fam=\"Courier New\" bg=white fg=blue bd=2 " + "rel=solid " + "u=1 " == "fam=\"Courier New\" bg=white fg=blue bd=2 rel=solid u=1 "
  {
    assert "fam=\"Courier New\" bg=white fg=blue bd=2 " + "rel=solid " == "fam=\"Courier New\" bg=white fg=blue bd=2 rel=solid ";
    assert "fam=\"Courier New\" bg=white fg=blue bd=2 rel=solid " + "u=1 " == "fam=\"Courier New\" bg=white fg=blue bd=2 rel=solid u=1 ";
  }

  lemma {:induction false} AliasJoin3()
    ensures "fam=\"Courier New\" bg=white fg=blue bd=2 rel=solid u=1 " + "o=0 " == "fam=\"Courier New\" bg=white fg=blue bd=2 rel=solid u=1 o=0 "
  {
  }

  lemma {:induction false} AliasJoin4()
    ensures "fam=\"Courier New\" bg=white fg=blue bd=2 rel=solid u=1 o=0 " + "ul=10 " == AliasText + " "
  {
    assert "fam=\"Courier New\" bg=white fg=blue bd=2 rel=solid u=1 o=0 " + "ul=10 " == "fam=\"Courier New\" bg=white fg=blue bd=2 rel=solid u=1 o=0 ul=10 ";
  }

  lemma {:induction false} AliasConcat()
    ensures Concat(ShapedTokens(AliasKeys, TestValues, 10)) == AliasText + " "
  {
    AliasTokens();
    ConcatEight(ShapedTokens(AliasKeys, TestValues, 10));
    AliasJoin1();
    AliasJoin2();
    AliasJoin3();
    AliasJoin4();
  }

  lemma {:induction false} OptionTokens()
    ensures ShapedTokens(OptionKeys, TestValues, 10) == ["family=\"Courier New\" ", "background=white ", "foreground=blue ", "borderwidth=2 ", "relief=solid ", "funderline=1 ", "foverstrike=0 ", "underline=10 "]
  {
    TenDigits();
    assert "\"" + "Courier New" + "\"" == "\"Courier New\"";
    assert "family" + "=" + "\"Courier New\"" + " " == "family=\"Courier New\" ";
    assert "background" + "=" + "white" + " " == "background=white ";
    assert "foreground" + "=" + "blue" + " " == "foreground=blue ";
    assert "borderwidth" + "=" + "2" + " " == "borderwidth=2 ";
    assert "relief" + "=" + "solid" + " " == "relief=solid ";
    assert "funderline" + "=" + "1" + " " == "funderline=1 ";
    assert "foverstrike" + "=" + "0" + " " == "foverstrike=0 ";
    assert "underline" + "=" + "10" + " " == "underline=10 ";
  }

  lemma {:induction false} OptionJoin1()
    ensures "family=\"Courier New\" " + "background=white " + "foreground=blue " + "borderwidth=2 " == "family=\"Courier New\" background=white foreground=blue borderwidth=2 "
  {
    assert "family=\"Courier New\" " + "background=white " == "family=\"Courier New\" background=white ";
    assert "family=\"Courier New\" background=white " + "foreground=blue " == "family=\"Courier New\" background=white foreground=blue ";
    assert "family=\"Courier New\" background=white foreground=blue " + "borderwidth=2 " == "family=\"Courier New\" background=white foreground=blue borderwidth=2 ";
  }

  lemma {:induction false} OptionJoin2()
    ensures "family=\"Courier New\" background=white foreground=blue borderwidth=2 " + "relief=solid " + "funderline=1 " == "family=\"Courier New\" background=white foreground=blue borderwidth=2 relief=solid funderline=1 "
  {
    assert "family=\"Courier New\" background=white foreground=blue borderwidth=2 " + "relief=solid " == "family=\"Courier New\" background=white foreground=blue borderwidth=2 relief=solid ";
    assert "family=\"Courier New\" background=white foreground=blue borderwidth=2 relief=solid " + "funderline=1 " == "family=\"Courier New\" background=white foreground=blue borderwidth=2 relief=solid funderline=1 ";
  }

  lemma {:induction false} OptionJoin3()
    ensures "family=\"Courier New\" background=white foreground=blue borderwidth=2 relief=solid funderline=1 " + "foverstrike=0 " == "family=\"Courier New\" background=white foreground=blue borderwidth=2 relief=solid funderline=1 foverstrike=0 "
  {
  }

  lemma {:induction false} OptionJoin4()
    ensures "family=\"Courier New\" background=white foreground=blue borderwidth=2 relief=solid funderline=1 foverstrike=0 " + "underline=10 " == OptionText + " "
  {
    assert "family=\"Courier New\" background=white foreground=blue borderwidth=2 relief=solid funderline=1 foverstrike=0 " + "underline=10 " == "family=\"Courier New\" background=white foreground=blue borderwidth=2 relief=solid funderline=1 foverstrike=0 underline=10 ";
  }

  lemma {:induction false} OptionConcat()
    ensures Concat(ShapedTokens(OptionKeys, TestValues, 10)) == OptionText + " "
  {
    OptionTokens();
    ConcatEight(ShapedTokens(OptionKeys, TestValues, 10));
    OptionJoin1();
    OptionJoin2();
    OptionJoin3();
    OptionJoin4();
  }

  /** gen_tag_attrs(None, o_d, kmode='') of the test's dict. */
  lemma {:induction false} GenTestGiven(nf: Value -> string)
    ensures TagAttrsText(TestOptions, [], VNone, [], Flags("", false, false, nf)) == Ok(GivenText)
  {
    GivenSpelling();
    GivenConcat();
    TestText(Flags("", false, false, nf), AsGiven, TestKeys, GivenText);
  }

  /** gen_tag_attrs(options=o_d, kmode='alias') of the test's dict. */
  lemma {:induction false} GenTestAlias(nf: Value -> string)
    ensures TagAttrsText(TestOptions, [], VNone, [], Flags("alias", false, false, nf)) == Ok(AliasText)
  {
    AliasSpelled();
    AliasConcat();
    assert "alias"[0] == 'a';
    TestText(Flags("alias", false, false, nf), AliasNames, AliasKeys, AliasText);
  }

  /** gen_tag_attrs(None, o_d, kmode='option') of the test's dict. */
  lemma {:induction false} GenTestOption(nf: Value -> string)
    ensures TagAttrsText(TestOptions, [], VNone, [], Flags("option", false, false, nf)) == Ok(OptionText)
  {
    OptionSpelled();
    OptionConcat();
    assert "option"[0] == 'o';
    TestText(Flags("option", false, false, nf), OptionNames, OptionKeys, OptionText);
  }

  // ---------------------------------------------------------------------
  // The fifth case: its expected text read back

  /** A `key=value` field whose value is a plain word. */
  lemma {:induction false} PlainIsField(k: string, v: string)
    requires '=' !in k && '=' !in v && v != [] && !IsQuoteChar(v[0]) && v != "None"
    ensures IsField(k + "=" + v, k, VStr(v))
  {
    UnquoteUnchanged(VStr(v));
    SplitKeyValue(k, v);
  }

  /** A field of two small-letter words, its key a colour, border,
      relief or font-flag option. */
  lemma {:induction false} WordField(k: string, v: string)
    requires k != [] && forall i :: 0 <= i < |k| ==> 'a' <= k[i] <= 'z'
    requires v != [] && v != "None" && forall i :: 0 <= i < |v| ==> '0' <= v[i] <= '9' || 'a' <= v[i] <= 'z'
    ensures IsField(k + "=" + v, k, VStr(v)) && LowerStr(k) == k
  {
    SmallWord(k);
    assert '=' !in v;
    PlainIsField(k, v);
  }

  /** The options dict after an option it does not hold yet. */
  function WithOption(st: Attrs, k: string, v: Value): Attrs {
    Attrs(st.options + [(k, v)], st.font, st.textCase)
  }

  /** The font dict after a font key it does not hold yet. */
  function WithFont(st: Attrs, k: string, v: Value): Attrs {
    Attrs(st.options, st.font + [(k, v)], st.textCase)
  }

  /** No entry of the dict has key k. */
  predicate Lacks(d: Dict, k: string) {
    forall i :: 0 <= i < |d| ==> d[i].0 != k
  }

  /** A field that sets an option the dict does not hold yet appends it,
      and the loop goes on from there. */
  lemma {:induction false} OptionThen(st: Attrs, f: string, k: string, v: Value, fs: seq<string>)
    requires ApplyField(st, f, false) == Ok(SetOption(st, k, v)) && Lacks(st.options, k)
    ensures ApplyFields(st, [f] + fs, false) == ApplyFields(WithOption(st, k, v), fs, false)
  {
    PutAfter(st.options, k, v);
    FieldThen(st, f, fs, WithOption(st, k, v));
  }

  /** The same for a font key. */
  lemma {:induction false} FontThen(st: Attrs, f: string, k: string, v: Value, fs: seq<string>)
    requires ApplyField(st, f, false) == Ok(SetFont(st, k, v)) && Lacks(st.font, k)
    ensures ApplyFields(st, [f] + fs, false) == ApplyFields(WithFont(st, k, v), fs, false)
  {
    PutAfter(st.font, k, v);
    FieldThen(st, f, fs, WithFont(st, k, v));
  }

  lemma {:induction false} BackgroundStep(st: Attrs, k: string, v: string, fs: seq<string>)
    requires k == "background" && v == "white" && Lacks(st.options, k)
    ensures ApplyFields(st, [k + "=" + v] + fs, false) == ApplyFields(WithOption(st, k, VStr(v)), fs, false)
  {
    WordField(k, v);
    ColorField(st, k + "=" + v, k, VStr(v), false);
    OptionThen(st, k + "=" + v, k, VStr(v), fs);
  }

  lemma {:induction false} ForegroundStep(st: Attrs, k: string, v: string, fs: seq<string>)
    requires k == "foreground" && v == "blue" && Lacks(st.options, k)
    ensures ApplyFields(st, [k + "=" + v] + fs, false) == ApplyFields(WithOption(st, k, VStr(v)), fs, false)
  {
    WordField(k, v);
    KeyForeground();
    RoutedField(st, k + "=" + v, k, VStr(v), false, k, ColorRule);
    OptionThen(st, k + "=" + v, k, VStr(v), fs);
  }

  lemma {:induction false} BorderwidthStep(st: Attrs, k: string, v: string, fs: seq<string>)
    requires k == "borderwidth" && v == "2" && Lacks(st.options, k)
    ensures ApplyFields(st, [k + "=" + v] + fs, false) == ApplyFields(WithOption(st, k, VStr(v)), fs, false)
  {
    WordField(k, v);
    BorderField(st, k + "=" + v, k, VStr(v), false);
    OptionThen(st, k + "=" + v, k, VStr(v), fs);
  }

  lemma {:induction false} ReliefStep(st: Attrs, k: string, v: string, fs: seq<string>)
    requires k == "relief" && v == "solid" && Lacks(st.options, k)
    ensures ApplyFields(st, [k + "=" + v] + fs, false) == ApplyFields(WithOption(st, k, VStr(v)), fs, false)
  {
    WordField(k, v);
    ReliefField(st, k + "=" + v, k, VStr(v), false);
    OptionThen(st, k + "=" + v, k, VStr(v), fs);
  }

  lemma {:induction false} FamilyStep(st: Attrs, k: string, s: string, fs: seq<string>)
    requires k == "family" && s == "Courier New" && Lacks(st.font, k)
    ensures ApplyFields(st, [k + "=" + ("\"" + s + "\"")] + fs, false) == ApplyFields(WithFont(st, k, VStr(s)), fs, false)
  {
    var v := "\"" + s + "\"";
    assert v == ['"'] + s + ['"'];
    ContainsChar(s, '"');
    UnquoteSingle('"', s);
    SmallWord(k);
    SplitKeyValue(k, v);
    FamilyField(st, k + "=" + v, k, VStr(s), false);
    FontThen(st, k + "=" + v, k, VStr(s), fs);
  }

  lemma {:induction false} FUnderlineStep(st: Attrs, k: string, v: string, fs: seq<string>)
    requires k == "funderline" && v == "1" && Lacks(st.font, "underline")
    ensures ApplyFields(st, [k + "=" + v] + fs, false) == ApplyFields(WithFont(st, "underline", VInt(1)), fs, false)
  {
    WordField(k, v);
    assert Affirmative(VStr(v));
    FUnderlineField(st, k + "=" + v, k, VStr(v), false);
    FontThen(st, k + "=" + v, "underline", VInt(1), fs);
  }

  lemma {:induction false} FOverstrikeStep(st: Attrs, k: string, v: string, fs: seq<string>)
    requires k == "foverstrike" && v == "0" && Lacks(st.font, "overstrike")
    ensures ApplyFields(st, [k + "=" + v] + fs, false) == ApplyFields(WithFont(st, "overstrike", VInt(0)), fs, false)
  {
    WordField(k, v);
    FOverstrikeField(st, k + "=" + v, k, VStr(v), false);
    FontThen(st, k + "=" + v, "overstrike", VInt(0), fs);
  }

  lemma {:induction false} UnderlineStep(st: Attrs, k: string, v: string, fs: seq<string>)
    requires k == "underline" && v == "10" && Lacks(st.options, k)
    ensures ApplyFields(st, [k + "=" + v] + fs, false) == ApplyFields(WithOption(st, k, VInt(10)), fs, false)
  {
    WordField(k, v);
    TenDigits();
    ParseIntOfIntToStr(10);
    UnderlineField(st, k + "=" + v, k, VStr(v), false);
    OptionThen(st, k + "=" + v, k, VInt(10), fs);
  }

  lemma {:induction false} CaseStep(st: Attrs, k: string, v: string, fs: seq<string>)
    requires k == "case" && v == "title"
    ensures ApplyFields(st, [k + "=" + v] + fs, false) == ApplyFields(st.(textCase := v), fs, false)
  {
    WordField(k, v);
    TitlePicked(v);
    CaseField(st, k + "=" + v, k, VStr(v), false);
    FieldThen(st, k + "=" + v, fs, st.(textCase := v));
  }

  /** "title" is the fourth case name and the first that starts with it. */
  lemma {:induction false} TitlePicked(v: string)
    requires v == "title"
    ensures LowerStr(v) == v && PickCase(v, CaseNames) == Some(v)
  {
    SmallWord(v);
    var ns := CaseNames;
    assert !StartsWith(ns[0], v) && !StartsWith(ns[1], v) && !StartsWith(ns[2], v);
    assert ns[1..][1..][1..] == ns[3..];
    assert StartsWith(ns[3], v);
  }

  /** The fields of the fifth case's expected text. */
  const Test5Fields: seq<string> := [
    "background=white", "foreground=blue", "borderwidth=2", "relief=solid", "family=\"Courier New\"",
    "funderline=1", "foverstrike=0", "underline=10", "case=title"]

  /** `o_d` and `f_d` of the fifth case. */
  const Test5Options: Dict := [
    ("background", VStr("white")), ("foreground", VStr("blue")), ("borderwidth", VStr("2")),
    ("relief", VStr("solid")), ("underline", VInt(10))]
  const Test5Font: Dict := [("family", VStr("Courier New")), ("underline", VInt(1)), ("overstrike", VInt(0))]

  lemma {:induction false} Test5FieldsSpelled()
    ensures Test5Fields ==
      ["background" + "=" + "white"] + (["foreground" + "=" + "blue"] + (["borderwidth" + "=" + "2"] +
      (["relief" + "=" + "solid"] + (["family" + "=" + ("\"" + "Courier New" + "\"")] + (["funderline" + "=" + "1"] +
      (["foverstrike" + "=" + "0"] + (["underline" + "=" + "10"] + (["case" + "=" + "title"] + []))))))))
  {
    assert "background" + "=" + "white" == "background=white";
    assert "foreground" + "=" + "blue" == "foreground=blue";
    assert "borderwidth" + "=" + "2" == "borderwidth=2";
    assert "relief" + "=" + "solid" == "relief=solid";
    assert "family" + "=" + ("\"" + "Courier New" + "\"") == "family=\"Courier New\"";
    assert "funderline" + "=" + "1" == "funderline=1";
    assert "foverstrike" + "=" + "0" == "foverstrike=0";
    assert "underline" + "=" + "10" == "underline=10";
    assert "case" + "=" + "title" == "case=title";
  }

  /** A field that takes st to st1, then the rest of the fields. */
  lemma {:induction false} FieldThen(st: Attrs, f: string, fs: seq<string>, st1: Attrs)
    requires ApplyField(st, f, false) == Ok(st1)
    ensures ApplyFields(st, [f] + fs, false) == ApplyFields(st1, fs, false)
  {
    assert ([f] + fs)[0] == f && ([f] + fs)[1..] == fs;
  }

  /** The colour fields of the fifth case. */
  lemma {:induction false} Test5Colors(st: Attrs, fs: seq<string>)
    requires Lacks(st.options, "background") && Lacks(st.options + [("background", VStr("white"))], "foreground")
    ensures ApplyFields(st, ["background" + "=" + "white"] + (["foreground" + "=" + "blue"] + fs), false)
         == ApplyFields(WithOption(WithOption(st, "background", VStr("white")), "foreground", VStr("blue")), fs, false)
  {
    BackgroundStep(st, "background", "white", ["foreground" + "=" + "blue"] + fs);
    ForegroundStep(WithOption(st, "background", VStr("white")), "foreground", "blue", fs);
  }

  /** The border and relief fields of the fifth case. */
  lemma {:induction false} Test5Border(st: Attrs, fs: seq<string>)
    requires Lacks(st.options, "borderwidth") && Lacks(st.options + [("borderwidth", VStr("2"))], "relief")
    ensures ApplyFields(st, ["borderwidth" + "=" + "2"] + (["relief" + "=" + "solid"] + fs), false)
         == ApplyFields(WithOption(WithOption(st, "borderwidth", VStr("2")), "relief", VStr("solid")), fs, false)
  {
    BorderwidthStep(st, "borderwidth", "2", ["relief" + "=" + "solid"] + fs);
    ReliefStep(WithOption(st, "borderwidth", VStr("2")), "relief", "solid", fs);
  }

  /** The family and font-underline fields of the fifth case. */
  lemma {:induction false} Test5Family(st: Attrs, fs: seq<string>)
    requires Lacks(st.font, "family") && Lacks(st.font + [("family", VStr("Courier New"))], "underline")
    ensures ApplyFields(st, ["family" + "=" + ("\"" + "Courier New" + "\"")] + (["funderline" + "=" + "1"] + fs), false)
         == ApplyFields(WithFont(WithFont(st, "family", VStr("Courier New")), "underline", VInt(1)), fs, false)
  {
    FamilyStep(st, "family", "Courier New", ["funderline" + "=" + "1"] + fs);
    FUnderlineStep(WithFont(st, "family", VStr("Courier New")), "funderline", "1", fs);
  }

  /** The font-overstrike and underline fields of the fifth case. */
  lemma {:induction false} Test5Underline(st: Attrs, fs: seq<string>)
    requires Lacks(st.font, "overstrike") && Lacks(st.options, "underline")
    ensures ApplyFields(st, ["foverstrike" + "=" + "0"] + (["underline" + "=" + "10"] + fs), false)
         == ApplyFields(WithOption(WithFont(st, "overstrike", VInt(0)), "underline", VInt(10)), fs, false)
  {
    FOverstrikeStep(st, "foverstrike", "0", ["underline" + "=" + "10"] + fs);
    UnderlineStep(WithFont(st, "overstrike", VInt(0)), "underline", "10", fs);
  }

  /** The states between the fifth case's field pairs. */
  lemma {:induction false} Test5States(o0: (string, Value), o1: (string, Value), o2: (string, Value), o3: (string, Value),
                                        g0: (string, Value), g1: (string, Value))
    requires o0 == ("background", VStr("white")) && o1 == ("foreground", VStr("blue"))
    requires o2 == ("borderwidth", VStr("2")) && o3 == ("relief", VStr("solid"))
    requires g0 == ("family", VStr("Courier New")) && g1 == ("underline", VInt(1))
    ensures Lacks([], o0.0) && Lacks([] + [o0], o1.0) && [] + [o0] + [o1] == [o0, o1]
    ensures Lacks([o0, o1], o2.0) && Lacks([o0, o1] + [o2], o3.0) && [o0, o1] + [o2] + [o3] == [o0, o1, o2, o3]
    ensures Lacks([], g0.0) && Lacks([] + [g0], g1.0) && [] + [g0] + [g1] == [g0, g1]
    ensures Lacks([g0, g1], "overstrike") && Lacks([o0, o1, o2, o3], "underline")
  {
  }

  /** The dicts after the last field pair are the test's dicts. */
  lemma {:induction false} Test5Dicts(o0: (string, Value), o1: (string, Value), o2: (string, Value), o3: (string, Value),
                                       o4: (string, Value), g0: (string, Value), g1: (string, Value), g2: (string, Value))
    requires o0 == ("background", VStr("white")) && o1 == ("foreground", VStr("blue"))
    requires o2 == ("borderwidth", VStr("2")) && o3 == ("relief", VStr("solid")) && o4 == ("underline", VInt(10))
    requires g0 == ("family", VStr("Courier New")) && g1 == ("underline", VInt(1)) && g2 == ("overstrike", VInt(0))
    ensures [o0, o1, o2, o3] + [o4] == Test5Options && [g0, g1] + [g2] == Test5Font
  {
    assert [o0, o1, o2, o3] + [o4] == [o0, o1, o2, o3, o4];
    assert [g0, g1] + [g2] == [g0, g1, g2];
  }

  /** The fields of the fifth case, from empty dicts and no case, give
      the test's options dict, font dict and case. */
  lemma {:induction false} Test5Applied()
    ensures ApplyFields(Attrs([], [], ""), Test5Fields, false) == Ok(Attrs(Test5Options, Test5Font, "title"))
  {
    var o0, o1, o2 := ("background", VStr("white")), ("foreground", VStr("blue")), ("borderwidth", VStr("2"));
    var o3, o4 := ("relief", VStr("solid")), ("underline", VInt(10));
    var g0, g1, g2 := ("family", VStr("Courier New")), ("underline", VInt(1)), ("overstrike", VInt(0));
    Test5States(o0, o1, o2, o3, g0, g1);
    var rest := ["case" + "=" + "title"] + [];
    var s2 := Attrs([o0, o1], [], "");
    var s4 := Attrs([o0, o1, o2, o3], [], "");
    var s6 := Attrs([o0, o1, o2, o3], [g0, g1], "");
    var s8 := Attrs([o0, o1, o2, o3] + [o4], [g0, g1] + [g2], "");
    CaseStep(s8, "case", "title", []);
    Test5Underline(s6, rest);
    Test5Family(s4, ["foverstrike" + "=" + "0"] + (["underline" + "=" + "10"] + rest));
    Test5Border(s2, ["family" + "=" + ("\"" + "Courier New" + "\"")] + (["funderline" + "=" + "1"] + (["foverstrike" + "=" + "0"] + (["underline" + "=" + "10"] + rest))));
    Test5Colors(Attrs([], [], ""), ["borderwidth" + "=" + "2"] + (["relief" + "=" + "solid"] + (["family" + "=" + ("\"" + "Courier New" + "\"")] + (["funderline" + "=" + "1"] + (["foverstrike" + "=" + "0"] + (["underline" + "=" + "10"] + rest))))));
    Test5FieldsSpelled();
    Test5Dicts(o0, o1, o2, o3, o4, g0, g1, g2);
  }

  /** Put of a key no entry has appends the entry. */
  lemma {:induction false} PutAfter(d: Dict, k: string, v: Value)
    requires forall i :: 0 <= i < |d| ==> d[i].0 != k
    ensures Put(d, k, v) == d + [(k, v)]
  {
    PutNew(d, k, v);
  }


  // ---------------------------------------------------------------------
  // The fifth case's expected text split into its fields

  /** The fifth case's `expected_text`. */
  const Test5Text: string :=
    "background=white foreground=blue borderwidth=2 relief=solid family=\"Courier New\" funderline=1 foverstrike=0 underline=10 case=title"

  /** A `key=value` word of small letters and digits is a bare token. */
  lemma {:induction false} BareValid(w: string)
    requires |w| > 0 && w[0] != '=' && w[|w| - 1] != '='
    requires forall i :: 0 <= i < |w| ==> 'a' <= w[i] <= 'z' || '0' <= w[i] <= '9' || w[i] == '='
    ensures ValidToken(Bare(w))
  {
  }

  /** Joining one more token puts a blank and its text at the end. */
  lemma {:induction false} JoinSnoc(toks: seq<AttrToken>, t: AttrToken)
    requires |toks| > 0
    ensures Join(toks + [t]) == Join(toks) + " " + TokenText(t)
    decreases |toks|
  {
    assert (toks + [t])[0] == toks[0];
    if |toks| == 1 {
      assert (toks + [t])[1..] == [t];
    } else {
      var a, j := TokenText(toks[0]) + " ", Join(toks[1..]);
      assert (toks + [t])[1..] == toks[1..] + [t];
      assert Join(toks + [t]) == a + Join(toks[1..] + [t]);
      JoinSnoc(toks[1..], t);
      assert Join(toks) == a + j;
      StrAssoc(a, j + " ", TokenText(t));
      StrAssoc(a, j, " ");
    }
  }

  /** Nine tokens joined, written left to right. */
  lemma {:induction false} Join9(t0: AttrToken, t1: AttrToken, t2: AttrToken, t3: AttrToken, t4: AttrToken,
                                 t5: AttrToken, t6: AttrToken, t7: AttrToken, t8: AttrToken)
    ensures Join([t0, t1, t2, t3, t4, t5, t6, t7, t8])
         == TokenText(t0) + " " + TokenText(t1) + " " + TokenText(t2) + " " + TokenText(t3) + " " + TokenText(t4)
            + " " + TokenText(t5) + " " + TokenText(t6) + " " + TokenText(t7) + " " + TokenText(t8)
  {
    assert Join([t0]) == TokenText(t0);
    JoinSnoc([t0], t1);
    assert [t0] + [t1] == [t0, t1];
    JoinSnoc([t0, t1], t2);
    assert [t0, t1] + [t2] == [t0, t1, t2];
    JoinSnoc([t0, t1, t2], t3);
    assert [t0, t1, t2] + [t3] == [t0, t1, t2, t3];
    JoinSnoc([t0, t1, t2, t3], t4);
    assert [t0, t1, t2, t3] + [t4] == [t0, t1, t2, t3, t4];
    JoinSnoc([t0, t1, t2, t3, t4], t5);
    assert [t0, t1, t2, t3, t4] + [t5] == [t0, t1, t2, t3, t4, t5];
    JoinSnoc([t0, t1, t2, t3, t4, t5], t6);
    assert [t0, t1, t2, t3, t4, t5] + [t6] == [t0, t1, t2, t3, t4, t5, t6];
    JoinSnoc([t0, t1, t2, t3, t4, t5, t6], t7);
    assert [t0, t1, t2, t3, t4, t5, t6] + [t7] == [t0, t1, t2, t3, t4, t5, t6, t7];
    JoinSnoc([t0, t1, t2, t3, t4, t5, t6, t7], t8);
    assert [t0, t1, t2, t3, t4, t5, t6, t7] + [t8] == [t0, t1, t2, t3, t4, t5, t6, t7, t8];
  }

  lemma {:induction false} TextsCons(t: AttrToken, rest: seq<AttrToken>)
    ensures TokenTexts([t] + rest) == [TokenText(t)] + TokenTexts(rest)
  {
    assert ([t] + rest)[1..] == rest;
  }

  /** The texts of nine tokens, one field each. */
  lemma {:induction false} Texts9(t0: AttrToken, t1: AttrToken, t2: AttrToken, t3: AttrToken, t4: AttrToken,
                                  t5: AttrToken, t6: AttrToken, t7: AttrToken, t8: AttrToken)
    ensures TokenTexts([t0, t1, t2, t3, t4, t5, t6, t7, t8])
         == [TokenText(t0)] + ([TokenText(t1)] + ([TokenText(t2)] + ([TokenText(t3)] + ([TokenText(t4)] +
            ([TokenText(t5)] + ([TokenText(t6)] + ([TokenText(t7)] + ([TokenText(t8)] + []))))))))
  {
    var r8 := [t8];
    TextsCons(t8, []);
    var r7 := [t7] + r8;
    TextsCons(t7, r8);
    var r6 := [t6] + r7;
    TextsCons(t6, r7);
    var r5 := [t5] + r6;
    TextsCons(t5, r6);
    var r4 := [t4] + r5;
    TextsCons(t4, r5);
    var r3 := [t3] + r4;
    TextsCons(t3, r4);
    var r2 := [t2] + r3;
    TextsCons(t2, r3);
    var r1 := [t1] + r2;
    TextsCons(t1, r2);
    TextsCons(t0, r1);
    assert [t0] + r1 == [t0, t1, t2, t3, t4, t5, t6, t7, t8];
  }

  /** The fifth case's text as tokens: eight bare fields and the quoted family. */
  const Test5Tokens: seq<AttrToken> := [
    Bare("background=white"), Bare("foreground=blue"), Bare("borderwidth=2"), Bare("relief=solid"),
    Quoted("family=", '"', ["Courier", " ", "New"]), Bare("funderline=1"), Bare("foverstrike=0"),
    Bare("underline=10"), Bare("case=title")]

  lemma {:induction false} Test5OptionTokensValid()
    ensures ValidToken(Bare("background=white")) && ValidToken(Bare("foreground=blue"))
    ensures ValidToken(Bare("borderwidth=2")) && ValidToken(Bare("relief=solid"))
  {
    BareValid("background=white");
    BareValid("foreground=blue");
    BareValid("borderwidth=2");
    BareValid("relief=solid");
  }

  lemma {:induction false} Test5FontTokensValid()
    ensures ValidToken(Bare("funderline=1")) && ValidToken(Bare("foverstrike=0"))
    ensures ValidToken(Bare("underline=10")) && ValidToken(Bare("case=title"))
  {
    BareValid("funderline=1");
    BareValid("foverstrike=0");
    BareValid("underline=10");
    BareValid("case=title");
  }

  lemma {:induction false} Test5TokensValid()
    ensures forall t :: t in Test5Tokens ==> ValidToken(t)
  {
    Test5OptionTokensValid();
    Test5FontTokensValid();
    ExampleQuotedValid();
  }

  /** The joined tokens, up to the family field. */
  lemma {:induction false} Test5JoinHead()
    ensures "background=white" + " " + "foreground=blue" + " " + "borderwidth=2" + " " + "relief=solid"
         == "background=white foreground=blue borderwidth=2 relief=solid"
  {
    assert "background=white" + " " + "foreground=blue" == "background=white foreground=blue";
    assert "background=white foreground=blue" + " " + "borderwidth=2" == "background=white foreground=blue borderwidth=2";
  }

  lemma {:induction false} Test5JoinMiddle()
    ensures "background=white foreground=blue borderwidth=2 relief=solid" + " " + "family=\"Courier New\"" + " " + "funderline=1"
         == "background=white foreground=blue borderwidth=2 relief=solid family=\"Courier New\" funderline=1"
  {
    assert "background=white foreground=blue borderwidth=2 relief=solid" + " " + "family=\"Courier New\""
        == "background=white foreground=blue borderwidth=2 relief=solid family=\"Courier New\"";
  }

  lemma {:induction false} Test5JoinStrike()
    ensures "background=white foreground=blue borderwidth=2 relief=solid family=\"Courier New\" funderline=1" + " " + "foverstrike=0"
         == "background=white foreground=blue borderwidth=2 relief=solid family=\"Courier New\" funderline=1 foverstrike=0"
  {
  }

  lemma {:induction false} Test5JoinTail()
    ensures "background=white foreground=blue borderwidth=2 relief=solid family=\"Courier New\" funderline=1 foverstrike=0" + " " + "underline=10" + " " + "case=title" == Test5Text
  {
    assert "background=white foreground=blue borderwidth=2 relief=solid family=\"Courier New\" funderline=1 foverstrike=0" + " " + "underline=10"
        == "background=white foreground=blue borderwidth=2 relief=solid family=\"Courier New\" funderline=1 foverstrike=0 underline=10";
  }

  lemma {:induction false} Test5Joined()
    ensures Join(Test5Tokens) == Test5Text
  {
    var ts := Test5Tokens;
    Join9(ts[0], ts[1], ts[2], ts[3], ts[4], ts[5], ts[6], ts[7], ts[8]);
    ExampleQuotedText();
    Test5JoinHead();
    Test5JoinMiddle();
    Test5JoinStrike();
    Test5JoinTail();
  }

  /** The fifth case's fields, as the tokens' texts. */
  lemma {:induction false} Test5Split()
    ensures TokenTexts(Test5Tokens) == Test5Fields
  {
    var ts := Test5Tokens;
    Texts9(ts[0], ts[1], ts[2], ts[3], ts[4], ts[5], ts[6], ts[7], ts[8]);
    ExampleQuotedText();
    Test5FieldsListed();
  }

  lemma {:induction false} Test5FieldsListed()
    ensures Test5Fields ==
      ["background=white"] + (["foreground=blue"] + (["borderwidth=2"] + (["relief=solid"] + (["family=\"Courier New\""] +
      (["funderline=1"] + (["foverstrike=0"] + (["underline=10"] + (["case=title"] + []))))))))
  {
  }

  /** parse_tag_attrs(expected_text) of the fifth case returns the case's
      options dict, font dict and case, entry for entry and in order. */
  lemma {:induction false} ParseTest5()
    ensures TagAttrs(Test5Text, Attrs([], [], ""), false) == Ok(Attrs(Test5Options, Test5Font, "title"))
  {
    Test5TokensValid();
    Test5Joined();
    SplitAttrsOfJoin(Test5Tokens);
    Test5Split();
    Test5Applied();
  }
}
