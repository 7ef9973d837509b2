/**
 * The alias registry: the static table of 1-3 letter aliases for option
 * names, the inverse table built from it once at import time, and the two
 * lookups `alias` and `unalias`.
 */
module Aliases {
  import opened Base

  /** `_widget_option_aliases_d.get(a)`: the table, alias to option name
      (`bold_as` and `italic_as` stand for tk_font.BOLD == "bold" and
      tk_font.ITALIC == "italic"). The entries are grouped by the length
      and the first letter of the alias, each group in the order the source
      lists them; a lookup does not depend on the order of the entries,
      and the grouping keeps the number of strings each lookup compares
      small. */
  function Unaliased(a: string): Option<string> {
    if |a| == 1 then
      match a
      case "b" => Some("bold")
      case "h" => Some("height")
      case "i" => Some("italic")
      case "o" => Some("foverstrike")
      case "u" => Some("funderline")
      case "w" => Some("width")
      case _ => None
    else if |a| == 2 && a[0] <= 'p' then
      match a
      case "as" => Some("activestyle")
      case "bg" => Some("background")
      case "bd" => Some("borderwidth")
      case "es" => Some("exportselection")
      case "fg" => Some("foreground")
      case "lv" => Some("listvariable")
      case "lo" => Some("lower")
      case "or" => Some("overrelief")
      case "px" => Some("padx")
      case "py" => Some("pady")
      case _ => None
    else if |a| == 2 then
      match a
      case "rd" => Some("repeatdelay")
      case "ri" => Some("repeatinterval")
      case "sz" => Some("size")
      case "sl" => Some("slant")
      case "sw" => Some("swapcase")
      case "tf" => Some("takefocus")
      case "ti" => Some("title")
      case "tv" => Some("textvariable")
      case "ul" => Some("underline")
      case "up" => Some("upper")
      case "wt" => Some("weight")
      case "wl" => Some("wraplength")
      case _ => None
    else if |a| == 3 && a[0] <= 'c' then
      match a
      case "abg" => Some("activebackground")
      case "afg" => Some("activeforeground")
      case "anc" => Some("anchor")
      case "bit" => Some("bitmap")
      case "cap" => Some("capitalize")
      case "cas" => Some("case")
      case "cmd" => Some("command")
      case "cpd" => Some("compound")
      case "cur" => Some("cursor")
      case _ => None
    else if |a| == 3 && a[0] <= 'h' then
      match a
      case "def" => Some("default")
      case "dfg" => Some("disabledforeground")
      case "fam" => Some("family")
      case "fon" => Some("font")
      case "hlb" => Some("highlightbackground")
      case "hlc" => Some("highlightcolor")
      case "hlt" => Some("highlightthickness")
      case _ => None
    else if |a| == 3 && a[0] <= 'r' then
      match a
      case "img" => Some("image")
      case "ipx" => Some("ipadx")
      case "ipy" => Some("ipady")
      case "jus" => Some("justify")
      case "rel" => Some("relief")
      case _ => None
    else if |a| == 3 then
      match a
      case "sbg" => Some("selectbackground")
      case "sbd" => Some("selectborderwidth")
      case "sfg" => Some("selectforeground")
      case "sta" => Some("state")
      case "txt" => Some("text")
      case "xsc" => Some("xscrollcommand")
      case "ysc" => Some("yscrollcommand")
      case _ => None
    else None
  }


  /** `_widget_option_unaliases_d.get(k)`: the inverse table that
      `{v: k for k, v in _widget_option_aliases_d.items()}` builds, grouped
      by the length of the option name. */
  function Aliased(k: string): Option<string> {
    if |k| == 4 then
      match k
      case "bold" => Some("b")
      case "case" => Some("cas")
      case "font" => Some("fon")
      case "padx" => Some("px")
      case "pady" => Some("py")
      case "size" => Some("sz")
      case "text" => Some("txt")
      case _ => None
    else if |k| == 5 then
      match k
      case "image" => Some("img")
      case "ipadx" => Some("ipx")
      case "ipady" => Some("ipy")
      case "lower" => Some("lo")
      case "slant" => Some("sl")
      case "state" => Some("sta")
      case "title" => Some("ti")
      case "upper" => Some("up")
      case "width" => Some("w")
      case _ => None
    else if |k| == 6 then
      match k
      case "anchor" => Some("anc")
      case "bitmap" => Some("bit")
      case "cursor" => Some("cur")
      case "family" => Some("fam")
      case "height" => Some("h")
      case "italic" => Some("i")
      case "relief" => Some("rel")
      case "weight" => Some("wt")
      case _ => None
    else if |k| == 7 then
      match k
      case "command" => Some("cmd")
      case "default" => Some("def")
      case "justify" => Some("jus")
      case _ => None
    else if |k| == 8 then
      match k
      case "compound" => Some("cpd")
      case "swapcase" => Some("sw")
      case _ => None
    else if |k| == 9 then
      match k
      case "takefocus" => Some("tf")
      case "underline" => Some("ul")
      case _ => None
    else if |k| == 10 then
      match k
      case "background" => Some("bg")
      case "capitalize" => Some("cap")
      case "foreground" => Some("fg")
      case "overrelief" => Some("or")
      case "funderline" => Some("u")
      case "wraplength" => Some("wl")
      case _ => None
    else if |k| == 11 then
      match k
      case "activestyle" => Some("as")
      case "borderwidth" => Some("bd")
      case "foverstrike" => Some("o")
      case "repeatdelay" => Some("rd")
      case _ => None
    else if |k| == 12 then
      match k
      case "listvariable" => Some("lv")
      case "textvariable" => Some("tv")
      case _ => None
    else if |k| == 14 then
      match k
      case "highlightcolor" => Some("hlc")
      case "repeatinterval" => Some("ri")
      case "xscrollcommand" => Some("xsc")
      case "yscrollcommand" => Some("ysc")
      case _ => None
    else if |k| == 15 then
      match k
      case "exportselection" => Some("es")
      case _ => None
    else if |k| == 16 then
      match k
      case "activebackground" => Some("abg")
      case "activeforeground" => Some("afg")
      case "selectbackground" => Some("sbg")
      case "selectforeground" => Some("sfg")
      case _ => None
    else if |k| == 17 then
      match k
      case "selectborderwidth" => Some("sbd")
      case _ => None
    else if |k| == 18 then
      match k
      case "disabledforeground" => Some("dfg")
      case "highlightthickness" => Some("hlt")
      case _ => None
    else if |k| == 19 then
      match k
      case "highlightbackground" => Some("hlb")
      case _ => None
    else None
  }


  /** alias(option): the alias of an option name longer than 3 characters
      when it has one, otherwise the name itself. */
  function Alias(option: string): string {
    if |option| > 3 then
      match Aliased(option)
      case Some(a) => a
      case None => option
    else option
  }

  /** unalias(opt): the option name of a 1-3 character alias when it is one,
      otherwise the argument itself. */
  function Unalias(opt: string): string {
    if 1 <= |opt| <= 3 then
      match Unaliased(opt)
      case Some(k) => k
      case None => opt
    else opt
  }

  // ---------------------------------------------------------------------
  // Lemmas

  /** The inverse table is exactly the inversion of the table: the values
      of the table are distinct, so no entry is lost when inverting. */
  lemma {:induction false} InverseTable(a: string, k: string)
    ensures Unaliased(a) == Some(k) <==> Aliased(k) == Some(a)
  {
    if Unaliased(a) == Some(k) {
      TableInverted(a);
    }
    if Aliased(k) == Some(a) {
      InverseInverted(k);
    }
  }

  lemma {:induction false} TableInverted(a: string)
    requires Unaliased(a).Some?
    ensures Aliased(Unaliased(a).value) == Some(a)
  {
    if |a| == 1 {
      TableInverted1(a);
    } else if |a| == 2 && a[0] <= 'p' {
      TableInverted2A(a);
    } else if |a| == 2 {
      TableInverted2B(a);
    } else if |a| == 3 && a[0] <= 'c' {
      TableInverted3A(a);
    } else if |a| == 3 && a[0] <= 'h' {
      TableInverted3B(a);
    } else if |a| == 3 && a[0] <= 'r' {
      TableInverted3C(a);
    } else {
      TableInverted3D(a);
    }
  }

  lemma {:induction false} TableInverted1(a: string)
    requires Unaliased(a).Some? && |a| == 1
    ensures Aliased(Unaliased(a).value) == Some(a)
  {
  }

  lemma {:induction false} TableInverted2A(a: string)
    requires Unaliased(a).Some? && |a| == 2 && a[0] <= 'p'
    ensures Aliased(Unaliased(a).value) == Some(a)
  {
  }

  lemma {:induction false} TableInverted2B(a: string)
    requires Unaliased(a).Some? && |a| == 2 && a[0] > 'p'
    ensures Aliased(Unaliased(a).value) == Some(a)
  {
  }

  lemma {:induction false} TableInverted3A(a: string)
    requires Unaliased(a).Some? && |a| == 3 && a[0] <= 'c'
    ensures Aliased(Unaliased(a).value) == Some(a)
  {
  }

  lemma {:induction false} TableInverted3B(a: string)
    requires Unaliased(a).Some? && |a| == 3 && 'c' < a[0] <= 'h'
    ensures Aliased(Unaliased(a).value) == Some(a)
  {
  }

  lemma {:induction false} TableInverted3C(a: string)
    requires Unaliased(a).Some? && |a| == 3 && 'h' < a[0] <= 'r'
    ensures Aliased(Unaliased(a).value) == Some(a)
  {
  }

  lemma {:induction false} TableInverted3D(a: string)
    requires Unaliased(a).Some? && |a| == 3 && a[0] > 'r'
    ensures Aliased(Unaliased(a).value) == Some(a)
  {
  }

  lemma {:induction false} InverseInverted(k: string)
    requires Aliased(k).Some?
    ensures Unaliased(Aliased(k).value) == Some(k)
  {
    if |k| <= 5 {
      InverseInverted4To5(k);
    } else if |k| <= 9 {
      InverseInverted6To9(k);
    } else if |k| <= 13 {
      InverseInverted10To13(k);
    } else if |k| <= 16 {
      InverseInverted14To16(k);
    } else {
      InverseInverted17To19(k);
    }
  }

  lemma {:induction false} InverseInverted4To5(k: string)
    requires Aliased(k).Some? && 4 <= |k| <= 5
    ensures Unaliased(Aliased(k).value) == Some(k)
  {
  }

  lemma {:induction false} InverseInverted6To9(k: string)
    requires Aliased(k).Some? && 6 <= |k| <= 9
    ensures Unaliased(Aliased(k).value) == Some(k)
  {
  }

  lemma {:induction false} InverseInverted10To13(k: string)
    requires Aliased(k).Some? && 10 <= |k| <= 13
    ensures Unaliased(Aliased(k).value) == Some(k)
  {
  }

  lemma {:induction false} InverseInverted14To16(k: string)
    requires Aliased(k).Some? && 14 <= |k| <= 16
    ensures Unaliased(Aliased(k).value) == Some(k)
  {
  }

  lemma {:induction false} InverseInverted17To19(k: string)
    requires Aliased(k).Some? && 17 <= |k| <= 19
    ensures Unaliased(Aliased(k).value) == Some(k)
  {
  }

  /** Every alias has 1-3 characters and every option name more than 3. */
  lemma {:induction false} TableShapes(a: string)
    requires Unaliased(a).Some?
    ensures 1 <= |a| <= 3 < |Unaliased(a).value|
  {
  }

  /** For every table entry a -> k: unalias(a) == k and alias(k) == a. */
  lemma {:induction false} AliasSymmetry(a: string, k: string)
    requires Unaliased(a) == Some(k)
    ensures Unalias(a) == k && Alias(k) == a
  {
    InverseTable(a, k);
    TableShapes(a);
  }

  /** alias returns names of at most 3 characters unchanged, and unknown
      names unchanged; what it changes becomes an alias of at most 3. */
  lemma {:induction false} AliasUnchanged(x: string)
    ensures |x| <= 3 ==> Alias(x) == x
    ensures Aliased(x) == None ==> Alias(x) == x
    ensures Alias(x) != x ==> |x| > 3 && 1 <= |Alias(x)| <= 3 && Unaliased(Alias(x)) == Some(x)
  {
    if Aliased(x).Some? {
      InverseTable(Aliased(x).value, x);
      TableShapes(Aliased(x).value);
    }
  }

  /** unalias returns names outside 1-3 characters unchanged, and unknown
      names unchanged; what it changes becomes an option name longer than 3. */
  lemma {:induction false} UnaliasUnchanged(x: string)
    ensures (|x| == 0 || |x| > 3) ==> Unalias(x) == x
    ensures Unaliased(x) == None ==> Unalias(x) == x
    ensures Unalias(x) != x ==> 1 <= |x| <= 3 && |Unalias(x)| > 3 && Aliased(Unalias(x)) == Some(x)
  {
    if Unaliased(x).Some? {
      InverseTable(x, Unaliased(x).value);
      TableShapes(x);
    }
  }

  /** The round trips: whatever alias changes, unalias restores, and the
      other way round. */
  lemma {:induction false} AliasRoundTrip(x: string)
    ensures Alias(x) != x ==> Unalias(Alias(x)) == x
    ensures Unalias(x) != x ==> Alias(Unalias(x)) == x
  {
    AliasUnchanged(x);
    UnaliasUnchanged(x);
    if Alias(x) != x {
      AliasSymmetry(Alias(x), x);
    }
    if Unalias(x) != x {
      AliasSymmetry(x, Unalias(x));
    }
  }
}
