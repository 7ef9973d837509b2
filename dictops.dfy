/**
 * The small dict helpers of the engine: renaming the font facets so that a
 * font dict can share one dict with the widget options, paring a dict
 * against a reference, merging dicts, and splitting a combined dict back
 * into options, font attributes and a case.
 *
 * The helpers are dict comprehensions.  A comprehension builds its dict by
 * assigning its entries in order, so each one is a fold of `Put` from the
 * empty dict.
 */
module DictOps {
  import opened Base
  import opened Dicts

  /** underline -> funderline, overstrike -> foverstrike, others unchanged. */
  function ToOptionKey(k: string): string {
    if k == "underline" || k == "overstrike" then "f" + k else k
  }

  /** funderline -> underline, foverstrike -> overstrike, others unchanged. */
  function ToFontKey(k: string): string {
    if k == "funderline" || k == "foverstrike" then k[1..] else k
  }

  /** {f(k): v for k, v in d.items()}: each entry assigned in turn, so a
      renamed key that collides with an earlier one overwrites it in place. */
  function Rename(d: Dict, f: string -> string): (r: Dict)
    ensures |r| <= |d|
    decreases |d|
  {
    if d == [] then [] else Put(Rename(d[..|d| - 1], f), f(d[|d| - 1].0), d[|d| - 1].1)
  }

  /** d with f applied to each key, entry by entry. */
  function RenameKeys(d: Dict, f: string -> string): (r: Dict)
    ensures |r| == |d|
    ensures forall i :: 0 <= i < |d| ==> r[i] == (f(d[i].0), d[i].1)
  {
    if d == [] then [] else [(f(d[0].0), d[0].1)] + RenameKeys(d[1..], f)
  }

  /** convert_font_dict_to_ttoptions_dict */
  function FontToOptions(d: Dict): Dict {
    Rename(d, ToOptionKey)
  }

  /** convert_ttoptions_dict_to_font_dict */
  function OptionsToFont(d: Dict): Dict {
    Rename(d, ToFontKey)
  }

  /** _merge_dicts(d1, *dX): d1, then each of dX in turn applied by update. */
  function MergeDicts(d1: Dict, ds: seq<Dict>): Dict
    decreases |ds|
  {
    if ds == [] then d1 else MergeDicts(Update(d1, ds[0]), ds[1..])
  }

  /** The entry k: v survives paring against ref. */
  predicate Kept(ref: Dict, k: string, v: Value, strict: bool) {
    if strict then Get(ref, k).Some? && Get(ref, k) != Some(v)
    else Get(ref, k) != Some(v)
  }

  /** pare_dict(d, ref, strict): drops the entries ref repeats, and with
      strict also the keys ref does not have. */
  function PareDict(d: Dict, ref: Dict, strict: bool): (r: Dict)
    ensures |r| <= |d|
    decreases |d|
  {
    if d == [] then []
    else
      var r := PareDict(d[..|d| - 1], ref, strict);
      var (k, v) := d[|d| - 1];
      if Kept(ref, k, v, strict) then Put(r, k, v) else r
  }

  /** The six keys of the engine's font facets, as they appear in an
      options dict. */
  const TTFontKeys: seq<string> := ["family", "size", "weight", "slant", "funderline", "foverstrike"]

  /** The keys that select a case. */
  const CaseKeys: seq<string> := ["case", "upper", "lower", "title", "swapcase", "capitalize"]

  /** split_dict_into_options_fontattrs_and_case: the case dict. */
  function CaseDict(d: Dict): Dict
    decreases |d|
  {
    if d == [] then []
    else
      var r := CaseDict(d[..|d| - 1]);
      var (k, v) := d[|d| - 1];
      if k in CaseKeys then Put(r, "case", if k == "case" then v else VStr(k)) else r
  }

  /** ... the font dict. */
  function FontPart(d: Dict): Dict
    decreases |d|
  {
    if d == [] then []
    else
      var r := FontPart(d[..|d| - 1]);
      var (k, v) := d[|d| - 1];
      if k in TTFontKeys then Put(r, ToFontKey(k), v) else r
  }

  /** ... the options dict. */
  function OptionsPart(d: Dict): Dict
    decreases |d|
  {
    if d == [] then []
    else
      var r := OptionsPart(d[..|d| - 1]);
      var (k, v) := d[|d| - 1];
      if k !in TTFontKeys && k !in CaseKeys then Put(r, k, v) else r
  }

  /** split_dict_into_options_fontattrs_and_case(d); the case defaults to "". */
  function SplitDict(d: Dict): (Dict, Dict, Value) {
    var c := Get(CaseDict(d), "case");
    (OptionsPart(d), FontPart(d), if c.Some? then c.value else VStr(""))
  }

  // ---------------------------------------------------------------------
  // Lemmas

  lemma {:induction false} UniquePrefix(d: Dict)
    requires d != [] && UniqueKeys(d)
    ensures UniqueKeys(d[..|d| - 1])
    ensures d[|d| - 1].0 !in Keys(d[..|d| - 1])
  {
    var p := d[..|d| - 1];
    forall i, j | 0 <= i < j < |p| ensures p[i].0 != p[j].0 {
      assert p[i] == d[i] && p[j] == d[j];
    }
    forall i | 0 <= i < |p| ensures Keys(p)[i] != d[|d| - 1].0 {
      assert p[i] == d[i];
    }
  }

  /** Assigning a key the dict does not have appends it. */
  lemma {:induction false} PutNew(r: Dict, k: string, v: Value)
    requires k !in Keys(r)
    ensures Put(r, k, v) == r + [(k, v)]
    decreases |r|
  {
    if r != [] {
      assert Keys(r) == [r[0].0] + Keys(r[1..]);
      PutNew(r[1..], k, v);
    }
  }

  /** When no two renamed keys collide, the comprehension renames the
      entries in place. */
  lemma {:induction false} RenameNoCollision(d: Dict, f: string -> string)
    requires UniqueKeys(RenameKeys(d, f))
    ensures Rename(d, f) == RenameKeys(d, f)
    decreases |d|
  {
    if d != [] {
      var p := d[..|d| - 1];
      var rk := RenameKeys(d, f);
      RenameKeysLast(d, f);
      UniquePrefix(rk);
      RenameNoCollision(p, f);
      PutNew(RenameKeys(p, f), f(d[|d| - 1].0), d[|d| - 1].1);
    }
  }

  lemma {:induction false} RenameKeysLast(d: Dict, f: string -> string)
    requires d != []
    ensures RenameKeys(d[..|d| - 1], f) == RenameKeys(d, f)[..|d| - 1]
    ensures RenameKeys(d, f) == RenameKeys(d[..|d| - 1], f) + [(f(d[|d| - 1].0), d[|d| - 1].1)]
  {
    var rk, rp := RenameKeys(d, f), RenameKeys(d[..|d| - 1], f);
    assert |rp| == |d| - 1;
    forall i | 0 <= i < |d| - 1 ensures rp[i] == rk[i] {
      assert d[..|d| - 1][i] == d[i];
    }
    assert rk == rk[..|d| - 1] + [rk[|d| - 1]];
  }

  lemma {:induction false} OptionKeyBack(k: string)
    requires k != "funderline" && k != "foverstrike"
    ensures ToFontKey(ToOptionKey(k)) == k
  {
    if k == "underline" {
      assert "f" + k == "funderline";
    } else if k == "overstrike" {
      assert "f" + k == "foverstrike";
    }
  }

  lemma {:induction false} FontKeyBack(k: string)
    requires k != "underline" && k != "overstrike"
    ensures ToOptionKey(ToFontKey(k)) == k
  {
    if k == "funderline" {
      assert "f" + k[1..] == k;
    } else if k == "foverstrike" {
      assert "f" + k[1..] == k;
    }
  }

  /** Renaming with f keeps the keys of d apart when g undoes f on them. */
  lemma {:induction false} RenameKeysUnique(d: Dict, f: string -> string, g: string -> string)
    requires UniqueKeys(d)
    requires forall i :: 0 <= i < |d| ==> g(f(d[i].0)) == d[i].0
    ensures UniqueKeys(RenameKeys(d, f))
    ensures RenameKeys(RenameKeys(d, f), g) == d
  {
    var e := RenameKeys(d, f);
    forall i, j | 0 <= i < j < |e| ensures e[i].0 != e[j].0 {
      assert g(e[i].0) == d[i].0 && g(e[j].0) == d[j].0;
    }
    var r := RenameKeys(e, g);
    forall i | 0 <= i < |d| ensures r[i] == d[i] {
    }
  }

  /** Renaming the font facets for the options dict and back restores a
      font dict that does not already use the option spellings. */
  lemma {:induction false} FontOptionsRoundTrip(d: Dict)
    requires UniqueKeys(d) && "funderline" !in Keys(d) && "foverstrike" !in Keys(d)
    ensures OptionsToFont(FontToOptions(d)) == d
  {
    forall i | 0 <= i < |d| ensures ToFontKey(ToOptionKey(d[i].0)) == d[i].0 {
      assert Keys(d)[i] == d[i].0;
      OptionKeyBack(d[i].0);
    }
    RenameKeysUnique(d, ToOptionKey, ToFontKey);
    RenameNoCollision(d, ToOptionKey);
    RenameNoCollision(RenameKeys(d, ToOptionKey), ToFontKey);
  }

  /** Renaming the option spellings for a font dict and back restores an
      options dict that has no plain underline or overstrike key. */
  lemma {:induction false} OptionsFontRoundTrip(d: Dict)
    requires UniqueKeys(d) && "underline" !in Keys(d) && "overstrike" !in Keys(d)
    ensures FontToOptions(OptionsToFont(d)) == d
  {
    forall i | 0 <= i < |d| ensures ToOptionKey(ToFontKey(d[i].0)) == d[i].0 {
      assert Keys(d)[i] == d[i].0;
      FontKeyBack(d[i].0);
    }
    RenameKeysUnique(d, ToFontKey, ToOptionKey);
    RenameNoCollision(d, ToFontKey);
    RenameNoCollision(RenameKeys(d, ToFontKey), ToOptionKey);
  }

  /** A key of the pared dict reads as in d when the entry is kept, and is
      absent otherwise. */
  lemma {:induction false} PareGet(d: Dict, ref: Dict, strict: bool, k: string)
    requires UniqueKeys(d)
    ensures Get(PareDict(d, ref, strict), k)
         == if Get(d, k).Some? && Kept(ref, k, Get(d, k).value, strict) then Get(d, k) else None
    decreases |d|
  {
    if d != [] {
      var p := d[..|d| - 1];
      assert d == p + [d[|d| - 1]];
      UniquePrefix(d);
      PareGet(p, ref, strict, k);
      GetAppend(p, d[|d| - 1], k);
      var (k', v) := d[|d| - 1];
      if Kept(ref, k', v, strict) {
        PutGet(PareDict(p, ref, strict), k', v, k);
      }
    }
  }

  /** Options part: every key that is neither a font facet nor a case key,
      with its value. */
  lemma {:induction false} OptionsPartGet(d: Dict, k: string)
    requires UniqueKeys(d)
    ensures Get(OptionsPart(d), k) == if k in TTFontKeys || k in CaseKeys then None else Get(d, k)
    decreases |d|
  {
    if d != [] {
      var p := d[..|d| - 1];
      assert d == p + [d[|d| - 1]];
      UniquePrefix(d);
      OptionsPartGet(p, k);
      GetAppend(p, d[|d| - 1], k);
      var (k', v) := d[|d| - 1];
      if k' !in TTFontKeys && k' !in CaseKeys {
        PutGet(OptionsPart(p), k', v, k);
      }
    }
  }

  /** The font attribute names, as a font dict has them. */
  const FontNames: seq<string> := ["family", "size", "weight", "slant", "underline", "overstrike"]

  /** A facet key lands on the font name n exactly when it is n's
      option spelling. */
  lemma {:induction false} FontKeyMatch(k: string, n: string)
    requires k in TTFontKeys
    ensures (ToFontKey(k) == n) == (n in FontNames && k == ToOptionKey(n))
  {
    if n == "underline" {
      assert ToOptionKey(n) == "funderline";
    } else if n == "overstrike" {
      assert ToOptionKey(n) == "foverstrike";
    }
  }

  /** Font part: the six font facets, funderline and foverstrike under
      their font names underline and overstrike, and nothing else. */
  lemma {:induction false} FontPartGet(d: Dict, n: string)
    requires UniqueKeys(d)
    ensures Get(FontPart(d), n) == if n in FontNames then Get(d, ToOptionKey(n)) else None
    decreases |d|
  {
    if d != [] {
      var p := d[..|d| - 1];
      var e := d[|d| - 1];
      assert d == p + [e];
      UniquePrefix(d);
      FontPartGet(p, n);
      if e.0 in TTFontKeys {
        assert FontPart(d) == Put(FontPart(p), ToFontKey(e.0), e.1);
        FontKeyMatch(e.0, n);
        PutGet(FontPart(p), ToFontKey(e.0), e.1, n);
      } else {
        assert FontPart(d) == FontPart(p);
      }
      if n in FontNames {
        FontNameKey(n);
        GetAppend(p, e, ToOptionKey(n));
      }
    }
  }

  lemma {:induction false} FontNameKey(n: string)
    requires n in FontNames
    ensures ToOptionKey(n) in TTFontKeys
  {
    if n == "underline" {
      assert ToOptionKey(n) == "funderline";
    } else if n == "overstrike" {
      assert ToOptionKey(n) == "foverstrike";
    }
  }

  /** No case key: the case dict is empty. */
  lemma {:induction false} CaseDictEmpty(d: Dict)
    requires forall i :: 0 <= i < |d| ==> d[i].0 !in CaseKeys
    ensures CaseDict(d) == []
    decreases |d|
  {
    if d != [] {
      CaseDictEmpty(d[..|d| - 1]);
    }
  }

  /** The case is "" when d has no case key, and otherwise the last case
      key's: the value of `case`, or the name of a flag such as `upper`. */
  lemma {:induction false} SplitDictCase(d: Dict)
    ensures (forall i :: 0 <= i < |d| ==> d[i].0 !in CaseKeys) ==> SplitDict(d).2 == VStr("")
    ensures d != [] && d[|d| - 1].0 in CaseKeys ==>
      SplitDict(d).2 == if d[|d| - 1].0 == "case" then d[|d| - 1].1 else VStr(d[|d| - 1].0)
  {
    if forall i :: 0 <= i < |d| ==> d[i].0 !in CaseKeys {
      CaseDictEmpty(d);
    }
    if d != [] && d[|d| - 1].0 in CaseKeys {
      var (k, v) := d[|d| - 1];
      PutGet(CaseDict(d[..|d| - 1]), "case", if k == "case" then v else VStr(k), "case");
    }
  }
}
