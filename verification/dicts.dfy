/**
 * A Python `dict` from strings to strings. Since Python 3.7 a dict
 * remembers the order in which keys were first inserted; storing to an
 * existing key replaces its value and keeps its position. `order` holds
 * that insertion order, `entries` the key/value association.
 */
module Dicts {

  datatype Dict = Dict(order: seq<string>, entries: map<string, string>)

  ghost predicate Distinct(s: seq<string>) {
    forall i, j :: 0 <= i < j < |s| ==> s[i] != s[j]
  }

  /** Every key appears once in the order, and the order lists exactly the keys. */
  ghost predicate Valid(d: Dict) {
    && Distinct(d.order)
    && (forall k :: k in d.entries <==> k in d.order)
  }

  const Empty: Dict := Dict([], map[])

  /**
   * `d[k] = v`: an existing key keeps its place, a new key goes last, `k`
   * then maps to `v` and every other key keeps its value.
   */
  function Put(d: Dict, k: string, v: string): (r: Dict)
    ensures k in d.entries ==> r.order == d.order
    ensures k !in d.entries ==> r.order == d.order + [k]
    ensures k in r.entries && r.entries[k] == v
    ensures r.entries.Keys == d.entries.Keys + {k}
    ensures r.entries - {k} == d.entries - {k}
  {
    Dict(if k in d.entries then d.order else d.order + [k], d.entries[k := v])
  }

  /**
   * Storing keeps the dict well formed: a new key goes last, an existing
   * key keeps its place, and only `k`'s value changes.
   */
  lemma PutKeepsValid(d: Dict, k: string, v: string)
    requires Valid(d)
    ensures Valid(Put(d, k, v))
    ensures Put(d, k, v).order[..|d.order|] == d.order
  {
  }

  /** The keys of `s` in order of their first occurrence, each once. */
  function FirstOccurrences(s: seq<string>): (r: seq<string>)
    ensures Distinct(r)
    ensures forall x :: x in r <==> x in s
    ensures |r| <= |s|
  {
    if s == [] then []
    else
      var p := FirstOccurrences(s[..|s| - 1]);
      if s[|s| - 1] in s[..|s| - 1] then p else p + [s[|s| - 1]]
  }

  /** Appending a key adds it at the end unless it was already present. */
  lemma FirstOccurrencesSnoc(s: seq<string>, x: string)
    ensures FirstOccurrences(s + [x]) == if x in s then FirstOccurrences(s) else FirstOccurrences(s) + [x]
  {
    assert (s + [x])[..|s|] == s;
  }

  /** A sequence with no repeated element is its own list of first occurrences. */
  lemma {:induction false} FirstOccurrencesOfDistinct(s: seq<string>)
    requires Distinct(s)
    ensures FirstOccurrences(s) == s
  {
    if s != [] {
      var init := s[..|s| - 1];
      assert Distinct(init);
      FirstOccurrencesOfDistinct(init);
      assert s[|s| - 1] !in init;
      assert init + [s[|s| - 1]] == s;
    }
  }

  /** No occurrence of `keys[i]` comes after position `i`. */
  predicate LastOccurrence(keys: seq<string>, i: int)
    requires 0 <= i < |keys|
  {
    forall j :: i < j < |keys| ==> keys[j] != keys[i]
  }

  /** The dict built by storing `keys[i]: values[i]` for i = 0, 1, ... in turn. */
  function FromPairs(keys: seq<string>, values: seq<string>): Dict
    requires |keys| == |values|
  {
    if keys == [] then Empty
    else Put(FromPairs(keys[..|keys| - 1], values[..|values| - 1]), keys[|keys| - 1], values[|values| - 1])
  }

  /** The built dict is well formed. */
  lemma {:induction false} FromPairsValid(keys: seq<string>, values: seq<string>)
    requires |keys| == |values|
    ensures Valid(FromPairs(keys, values))
  {
    if keys != [] {
      var n := |keys| - 1;
      FromPairsValid(keys[..n], values[..n]);
      PutKeepsValid(FromPairs(keys[..n], values[..n]), keys[n], values[n]);
    }
  }

  /** The keys of the built dict are the distinct keys, in order of first appearance. */
  lemma {:induction false} FromPairsOrder(keys: seq<string>, values: seq<string>)
    requires |keys| == |values|
    ensures FromPairs(keys, values).order == FirstOccurrences(keys)
  {
    if keys != [] {
      var init, last := keys[..|keys| - 1], keys[|keys| - 1];
      FromPairsValid(init, values[..|values| - 1]);
      FromPairsOrder(init, values[..|values| - 1]);
      assert init + [last] == keys;
      FirstOccurrencesSnoc(init, last);
    }
  }

  /** When a key is stored more than once, the last value stored wins. */
  lemma {:induction false} FromPairsLastWins(keys: seq<string>, values: seq<string>, i: int)
    requires |keys| == |values|
    requires 0 <= i < |keys| && LastOccurrence(keys, i)
    ensures keys[i] in FromPairs(keys, values).entries
    ensures FromPairs(keys, values).entries[keys[i]] == values[i]
  {
    var n := |keys| - 1;
    if i < n {
      assert keys[n] != keys[i];
      FromPairsLastWins(keys[..n], values[..n], i);
    }
  }

  /** Every stored key is present. */
  lemma {:induction false} FromPairsKeys(keys: seq<string>, values: seq<string>)
    requires |keys| == |values|
    ensures forall k :: k in FromPairs(keys, values).entries <==> k in keys
  {
    FromPairsValid(keys, values);
    FromPairsOrder(keys, values);
  }
}
