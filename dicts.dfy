/**
 * Python dicts of attribute values.  A dict remembers insertion order (the
 * encoder walks its keys in that order and the tests compare exact strings),
 * so it is an association list: `d[k] = v` replaces the value of an existing
 * key where it stands and appends a new key at the end.
 */
module Dicts {
  import opened Base
  import opened Strs

  type Dict = seq<(string, Value)>

  function Keys(d: Dict): (ks: seq<string>)
    ensures |ks| == |d|
    ensures forall i :: 0 <= i < |d| ==> ks[i] == d[i].0
  {
    if d == [] then [] else [d[0].0] + Keys(d[1..])
  }

  /** No key occurs twice: every dict built by Put has this shape. */
  predicate UniqueKeys(d: Dict) {
    forall i, j :: 0 <= i < j < |d| ==> d[i].0 != d[j].0
  }

  /** d.get(k) */
  function Get(d: Dict, k: string): (r: Option<Value>)
    ensures r.Some? <==> k in Keys(d)
  {
    if d == [] then None else if d[0].0 == k then Some(d[0].1) else Get(d[1..], k)
  }

  /** d[k] = v */
  function Put(d: Dict, k: string, v: Value): (r: Dict)
    ensures Keys(r) == if k in Keys(d) then Keys(d) else Keys(d) + [k]
  {
    if d == [] then [(k, v)]
    else if d[0].0 == k then [(k, v)] + d[1..]
    else [d[0]] + Put(d[1..], k, v)
  }

  /** d.pop(k, None), keeping only the new dict. */
  function Remove(d: Dict, k: string): (r: Dict)
    ensures |r| <= |d|
  {
    if d == [] then []
    else if d[0].0 == k then d[1..]
    else [d[0]] + Remove(d[1..], k)
  }

  /** d.update(e): each entry of e, in e's order, by Put. */
  function Update(d: Dict, e: Dict): Dict
    decreases |e|
  {
    if e == [] then d else Update(Put(d, e[0].0, e[0].1), e[1..])
  }

  /** The dict as a map: what Python's == compares. */
  function ToMap(d: Dict): map<string, Value> {
    if d == [] then map[] else ToMap(d[1..])[d[0].0 := d[0].1]
  }

  /** Python truthiness of a value. */
  predicate Truthy(v: Value) {
    match v
    case VStr(s) => s != []
    case VInt(i) => i != 0
    case VNone => false
  }

  /** str(v) */
  function ValueStr(v: Value): string {
    match v
    case VStr(s) => s
    case VInt(i) => IntToStr(i)
    case VNone => "None"
  }

  // ---------------------------------------------------------------------
  // Lemmas

  lemma {:induction false} PutGet(d: Dict, k: string, v: Value, k': string)
    ensures Get(Put(d, k, v), k') == if k' == k then Some(v) else Get(d, k')
  {
    if d != [] && d[0].0 != k {
      PutGet(d[1..], k, v, k');
    }
  }

  lemma {:induction false} PutUnique(d: Dict, k: string, v: Value)
    requires UniqueKeys(d)
    ensures UniqueKeys(Put(d, k, v))
  {
    var r := Put(d, k, v);
    var ks := Keys(r);
    forall i, j | 0 <= i < j < |r| ensures r[i].0 != r[j].0 {
      assert ks[i] == r[i].0 && ks[j] == r[j].0;
      if k !in Keys(d) && j == |d| {
        assert ks[i] == Keys(d)[i];
      } else {
        assert ks[i] == Keys(d)[i] && ks[j] == Keys(d)[j];
      }
    }
  }

  lemma {:induction false} ToMapGet(d: Dict, k: string)
    ensures k in ToMap(d) <==> k in Keys(d)
    ensures k in ToMap(d) ==> Get(d, k) == Some(ToMap(d)[k])
  {
    if d != [] {
      ToMapGet(d[1..], k);
    }
  }

  /** Two dicts compare equal in Python exactly when every key reads the same. */
  lemma {:induction false} ToMapExt(d: Dict, e: Dict)
    requires forall k :: Get(d, k) == Get(e, k)
    ensures ToMap(d) == ToMap(e)
  {
    forall k ensures (k in ToMap(d)) == (k in ToMap(e)) && (k in ToMap(d) ==> ToMap(d)[k] == ToMap(e)[k]) {
      ToMapGet(d, k);
      ToMapGet(e, k);
    }
  }

  lemma {:induction false} GetAppend(p: Dict, e: (string, Value), k: string)
    ensures Get(p + [e], k) == if k in Keys(p) then Get(p, k) else if e.0 == k then Some(e.1) else None
    decreases |p|
  {
    if p != [] {
      assert (p + [e])[1..] == p[1..] + [e];
      GetAppend(p[1..], e, k);
    }
  }

  /** d.update(e) for a dict e: the keys of e read as in e, the others as
      in d. */
  lemma {:induction false} UpdateGet(d: Dict, e: Dict, k: string)
    requires UniqueKeys(e)
    ensures Get(Update(d, e), k) == if k in Keys(e) then Get(e, k) else Get(d, k)
    decreases |e|
  {
    if e != [] {
      var t := e[1..];
      assert UniqueKeys(t) by {
        forall i, j | 0 <= i < j < |t| ensures t[i].0 != t[j].0 {
          assert t[i] == e[i + 1] && t[j] == e[j + 1];
        }
      }
      assert Keys(e) == [e[0].0] + Keys(t);
      assert e[0].0 !in Keys(t) by {
        forall i | 0 <= i < |t| ensures Keys(t)[i] != e[0].0 {
          assert t[i] == e[i + 1];
        }
      }
      UpdateGet(Put(d, e[0].0, e[0].1), t, k);
      PutGet(d, e[0].0, e[0].1, k);
    }
  }
}
