/** Decoded JSON values and the insertion-ordered dictionaries built from them.
    A Python dict keeps its keys in insertion order, and that order becomes the
    column order of the exported rows, so a dictionary is modelled as the
    sequence of its entries. */
module Json {

  datatype Option<+T> = None | Some(value: T)

  /** A decoded JSON value (floating-point numbers are not modelled). */
  datatype Value =
    | Null
    | Bool(b: bool)
    | Int(i: int)
    | Str(s: string)
    | List(items: seq<Value>)
    | Object(fields: seq<(string, Value)>)

  /** A dictionary: its (key, value) entries in insertion order. */
  type Dict = seq<(string, Value)>

  /** Python's truth value of a decoded JSON value. */
  predicate Truthy(v: Value) {
    match v
    case Null => false
    case Bool(b) => b
    case Int(i) => i != 0
    case Str(s) => s != []
    case List(xs) => xs != []
    case Object(fs) => fs != []
  }

  /** `list(d.keys())` */
  function Keys(d: Dict): seq<string> {
    seq(|d|, i requires 0 <= i < |d| => d[i].0)
  }

  /** `list(d.values())` */
  function Values(d: Dict): seq<Value> {
    seq(|d|, i requires 0 <= i < |d| => d[i].1)
  }

  /** Keys of a Python dict are pairwise different. */
  ghost predicate DistinctKeys(d: Dict) {
    forall i, j :: 0 <= i < j < |d| ==> d[i].0 != d[j].0
  }

  /** `d.get(k)`: the value stored under `k`, if any. */
  function Get(d: Dict, k: string): Option<Value> {
    if d == [] then None
    else if d[0].0 == k then Some(d[0].1)
    else Get(d[1..], k)
  }

  /** Overwrites, in place, the value of every entry stored under `k`. */
  function Replace(d: Dict, k: string, v: Value): Dict {
    if d == [] then []
    else [if d[0].0 == k then (k, v) else d[0]] + Replace(d[1..], k, v)
  }

  /** `d[k] = v`: an existing key keeps its position, a new key goes last. */
  function Set(d: Dict, k: string, v: Value): Dict {
    if Get(d, k).Some? then Replace(d, k, v) else d + [(k, v)]
  }

  /** `del d[k]` */
  function Delete(d: Dict, k: string): Dict {
    if d == [] then []
    else if d[0].0 == k then Delete(d[1..], k)
    else [d[0]] + Delete(d[1..], k)
  }

  /** `d.update(e)`: the entries of `e`, in order, stored into `d`. */
  function Update(d: Dict, e: Dict): Dict
    decreases |e|
  {
    if e == [] then d else Update(Set(d, e[0].0, e[0].1), e[1..])
  }

  /** What a key reads as after `base.update(top)`: `top` wins. */
  function Overlay(base: Dict, top: Dict, k: string): Option<Value> {
    if Get(top, k).Some? then Get(top, k) else Get(base, k)
  }

  lemma {:induction false} GetIsKey(d: Dict, k: string)
    ensures Get(d, k).Some? <==> k in Keys(d)
  {
    if d != [] {
      GetIsKey(d[1..], k);
      assert Keys(d) == [d[0].0] + Keys(d[1..]);
    }
  }

  lemma {:induction false} GetReplace(d: Dict, k: string, v: Value, k': string)
    ensures Get(Replace(d, k, v), k') ==
            if k' == k && Get(d, k).Some? then Some(v) else Get(d, k')
    ensures Keys(Replace(d, k, v)) == Keys(d)
  {
    if d != [] {
      GetReplace(d[1..], k, v, k');
      var r := Replace(d, k, v);
      assert r[1..] == Replace(d[1..], k, v);
      assert Keys(r) == [r[0].0] + Keys(r[1..]);
      assert Keys(d) == [d[0].0] + Keys(d[1..]);
    }
  }

  lemma GetAppend(d: Dict, k: string, v: Value, k': string)
    requires Get(d, k).None?
    ensures Get(d + [(k, v)], k') == if k' == k then Some(v) else Get(d, k')
    decreases |d|
  {
    if d != [] {
      assert (d + [(k, v)])[1..] == d[1..] + [(k, v)];
      GetAppend(d[1..], k, v, k');
    }
  }

  /** Assigning a key: that key reads as the new value, every other key is
      untouched, and the key order only grows by the key when it is new. */
  lemma GetSet(d: Dict, k: string, v: Value, k': string)
    ensures Get(Set(d, k, v), k') == if k' == k then Some(v) else Get(d, k')
    ensures Keys(Set(d, k, v)) == if Get(d, k).Some? then Keys(d) else Keys(d) + [k]
  {
    if Get(d, k).Some? {
      GetReplace(d, k, v, k');
    } else {
      GetAppend(d, k, v, k');
    }
  }

  /** Deleting a key removes it and leaves every other key as it was. */
  lemma {:induction false} GetDelete(d: Dict, k: string, k': string)
    ensures Get(Delete(d, k), k') == if k' == k then None else Get(d, k')
  {
    if d != [] {
      GetDelete(d[1..], k, k');
    }
  }

  /** After `base.update(top)` every key reads as in `top` when `top` has it
      and as in `base` otherwise. */
  lemma {:induction false} GetUpdate(base: Dict, top: Dict, k: string)
    requires DistinctKeys(top)
    ensures Get(Update(base, top), k) == Overlay(base, top, k)
    decreases |top|
  {
    if top != [] {
      var b' := Set(base, top[0].0, top[0].1);
      assert DistinctKeys(top[1..]) by {
        forall i, j | 0 <= i < j < |top[1..]| ensures top[1..][i].0 != top[1..][j].0 {
          assert top[1..][i] == top[i + 1] && top[1..][j] == top[j + 1];
        }
      }
      GetUpdate(b', top[1..], k);
      GetSet(base, top[0].0, top[0].1, k);
      if top[0].0 == k {
        assert Get(top[1..], k).None? by { GetAbsent(top[1..], k, top); }
      }
    }
  }

  /** No entry after the first of a dictionary with distinct keys shares the
      first entry's key. */
  lemma GetAbsent(rest: Dict, k: string, top: Dict)
    requires top != [] && rest == top[1..] && top[0].0 == k && DistinctKeys(top)
    ensures Get(rest, k).None?
  {
    GetIsKey(rest, k);
    assert forall i :: 0 <= i < |rest| ==> Keys(rest)[i] == top[i + 1].0;
  }

  /** An entry whose key no earlier entry has is what its key reads as. */
  lemma {:induction false} GetAt(d: Dict, i: nat)
    requires i < |d| && forall q :: 0 <= q < i ==> d[q].0 != d[i].0
    ensures Get(d, d[i].0) == Some(d[i].1)
  {
    if i > 0 {
      assert d[1..][i - 1] == d[i];
      assert forall q :: 0 <= q < i - 1 ==> d[1..][q] == d[q + 1];
      GetAt(d[1..], i - 1);
    }
  }

  /** In a dictionary with distinct keys every entry is what its key reads as. */
  lemma GetDistinct(d: Dict, i: nat)
    requires DistinctKeys(d) && i < |d|
    ensures Get(d, d[i].0) == Some(d[i].1)
  {
    GetAt(d, i);
  }

  /** Entry `i` is the first entry of `d` stored under `k`. */
  ghost predicate FirstAt(d: Dict, k: string, i: int) {
    0 <= i < |d| && d[i].0 == k && forall q :: 0 <= q < i ==> d[q].0 != k
  }

  /** A key that reads as some value is stored at a first entry holding that value. */
  lemma {:induction false} GetFirst(d: Dict, k: string)
    requires Get(d, k).Some?
    ensures exists i :: FirstAt(d, k, i) && d[i].1 == Get(d, k).value
  {
    if d[0].0 == k {
      assert FirstAt(d, k, 0);
    } else {
      GetFirst(d[1..], k);
      var i :| FirstAt(d[1..], k, i) && d[1..][i].1 == Get(d[1..], k).value;
      assert forall q :: 1 <= q < i + 1 ==> d[q] == d[1..][q - 1];
      assert FirstAt(d, k, i + 1);
    }
  }

  /** Assigning a key keeps the keys of a dictionary distinct. */
  lemma SetDistinct(d: Dict, k: string, v: Value)
    requires DistinctKeys(d)
    ensures DistinctKeys(Set(d, k, v))
  {
    GetSet(d, k, v, k);
    var d' := Set(d, k, v);
    assert |d'| == |Keys(d')|;
    if Get(d, k).None? {
      GetIsKey(d, k);
      forall i, j | 0 <= i < j < |d'| ensures d'[i].0 != d'[j].0 {
        assert Keys(d')[i] == d'[i].0 && Keys(d')[j] == d'[j].0;
        if j == |d| {
          assert Keys(d)[i] == d[i].0;
        } else {
          assert Keys(d)[i] == d'[i].0 && Keys(d)[j] == d'[j].0;
        }
      }
    } else {
      forall i, j | 0 <= i < j < |d'| ensures d'[i].0 != d'[j].0 {
        assert Keys(d')[i] == d'[i].0 && Keys(d')[j] == d'[j].0;
        assert Keys(d)[i] == d[i].0 && Keys(d)[j] == d[j].0;
      }
    }
  }
}
