/**
 * The JSON-like values the issue models exchange with the Jira library, and
 * Python's `dict` as an ordered association list: assigning to a key that is
 * present replaces its value in place, assigning to a new key appends it, and
 * `update` assigns the other dictionary's entries in their order.
 */
module JsonDict {
  import opened Wrappers

  /** A value of a request or response body. */
  datatype Json =
    | JNull
    | JBool(b: bool)
    | JInt(i: int)
    | JStr(s: string)
    | JList(items: seq<Json>)
    | JObj(entries: seq<(string, Json)>)

  /** A dictionary from strings, in insertion order. */
  type Dict = seq<(string, Json)>

  /** The keys of a dictionary, in insertion order. */
  function Keys(d: Dict): (r: seq<string>)
    ensures |r| == |d|
  {
    if d == [] then [] else [d[0].0] + Keys(d[1..])
  }

  /** No key appears twice: what every Python dictionary satisfies. */
  predicate UniqueKeys(d: Dict)
  {
    forall i, j :: 0 <= i < j < |d| ==> d[i].0 != d[j].0
  }

  /** `d.get(k)`. */
  function Get(d: Dict, k: string): Option<Json>
  {
    if d == [] then None else if d[0].0 == k then Some(d[0].1) else Get(d[1..], k)
  }

  /** `d[k] = v`: replaces the value of a present key where it stands, or appends a new entry. */
  function Set(d: Dict, k: string, v: Json): Dict
  {
    if d == [] then [(k, v)]
    else if d[0].0 == k then [(k, v)] + d[1..]
    else [d[0]] + Set(d[1..], k, v)
  }

  /** `d.update(e)`: assigns every entry of `e`, in order. */
  function Update(d: Dict, e: Dict): Dict
  {
    if e == [] then d else Set(Update(d, e[..|e| - 1]), e[|e| - 1].0, e[|e| - 1].1)
  }

  // ---------------------------------------------------------------------------
  // Lookup after assignment.

  /** A key is present exactly when it is among the keys. */
  lemma {:induction false} GetKeys(d: Dict, k: string)
    ensures Get(d, k).Some? <==> k in Keys(d)
  {
    if d != [] {
      GetKeys(d[1..], k);
      assert Keys(d) == [d[0].0] + Keys(d[1..]);
    }
  }

  /** After `d[k] = v`, `k` maps to `v` and every other key to what it mapped to before. */
  lemma {:induction false} SetGet(d: Dict, k: string, v: Json, q: string)
    ensures Get(Set(d, k, v), q) == if q == k then Some(v) else Get(d, q)
  {
    if d != [] && d[0].0 != k {
      SetGet(d[1..], k, v, q);
    }
  }

  /** Assignment keeps the order of the keys and appends a key that was not there. */
  lemma {:induction false} SetKeys(d: Dict, k: string, v: Json)
    ensures Keys(Set(d, k, v)) == if k in Keys(d) then Keys(d) else Keys(d) + [k]
  {
    if d != [] {
      assert Keys(d) == [d[0].0] + Keys(d[1..]);
      if d[0].0 == k {
        assert Keys(Set(d, k, v)) == [k] + Keys(d[1..]);
      } else {
        SetKeys(d[1..], k, v);
        assert Keys(Set(d, k, v)) == [d[0].0] + Keys(Set(d[1..], k, v));
      }
    }
  }

  /** Assignment keeps the keys unique. */
  lemma SetUnique(d: Dict, k: string, v: Json)
    requires UniqueKeys(d)
    ensures UniqueKeys(Set(d, k, v))
  {
    var s := Set(d, k, v);
    SetKeys(d, k, v);
    forall i, j | 0 <= i < j < |s|
      ensures s[i].0 != s[j].0
    {
      KeyAt(s, i);
      KeyAt(s, j);
      if j < |d| {
        KeyAt(d, i);
        KeyAt(d, j);
      } else {
        KeyAt(d, i);
        assert Keys(s)[j] == k && k !in Keys(d);
      }
    }
  }

  /** The i-th key is the key of the i-th entry. */
  lemma {:induction false} KeyAt(d: Dict, i: nat)
    requires i < |d|
    ensures Keys(d)[i] == d[i].0
  {
    if i > 0 {
      KeyAt(d[1..], i - 1);
    }
  }

  /** After `d.update(e)` a key of `e` maps to its value in `e`, and any other key to its value in `d`. */
  lemma {:induction false} UpdateGet(d: Dict, e: Dict, q: string)
    requires UniqueKeys(e)
    ensures Get(Update(d, e), q) == if Get(e, q).Some? then Get(e, q) else Get(d, q)
  {
    if e != [] {
      var init := e[..|e| - 1];
      var last := e[|e| - 1];
      UpdateGet(d, init, q);
      SetGet(Update(d, init), last.0, last.1, q);
      LastEntry(e, q);
    }
  }

  /** Looking up a key in a dictionary with unique keys: the last entry, or else the ones before it. */
  lemma {:induction false} LastEntry(e: Dict, q: string)
    requires e != [] && UniqueKeys(e)
    ensures UniqueKeys(e[..|e| - 1])
    ensures Get(e, q) == if q == e[|e| - 1].0 then Some(e[|e| - 1].1) else Get(e[..|e| - 1], q)
  {
    if |e| > 1 {
      var tail := e[1..];
      assert tail[..|tail| - 1] == e[..|e| - 1][1..];
      LastEntry(tail, q);
      if q == e[|e| - 1].0 {
        assert e[0].0 != e[|e| - 1].0;
      }
    }
  }

  /** `update` keeps the keys the dictionary had in their places; it only appends new ones. */
  lemma {:induction false} UpdateKeys(d: Dict, e: Dict)
    ensures |Keys(Update(d, e))| >= |Keys(d)|
    ensures Keys(Update(d, e))[..|Keys(d)|] == Keys(d)
  {
    if e != [] {
      var init := e[..|e| - 1];
      var last := e[|e| - 1];
      UpdateKeys(d, init);
      SetKeys(Update(d, init), last.0, last.1);
      var before := Keys(Update(d, init));
      assert before[..|Keys(d)|] == Keys(d);
      if last.0 !in before {
        assert (before + [last.0])[..|Keys(d)|] == before[..|Keys(d)|];
      }
    }
  }

  /** `update` keeps the keys unique. */
  lemma {:induction false} UpdateUnique(d: Dict, e: Dict)
    requires UniqueKeys(d)
    ensures UniqueKeys(Update(d, e))
  {
    if e != [] {
      UpdateUnique(d, e[..|e| - 1]);
      SetUnique(Update(d, e[..|e| - 1]), e[|e| - 1].0, e[|e| - 1].1);
    }
  }
}
