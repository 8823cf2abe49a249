/**
 * An insertion-ordered dictionary, as the preset loader's `config` dict:
 * assigning to a present key replaces its value where it stands, assigning a
 * new key appends it, and `update` assigns pair by pair.
 */
module Dicts {
  import opened Wrappers
  import opened Values

  /** `d.get(k)`: the value stored under `k`, if any. */
  function Get(d: Mapping, k: string): (r: Option<Value>)
    ensures r.Some? <==> k in Keys(d)
  {
    if d == [] then None
    else if d[0].0 == k then Some(d[0].1)
    else Get(d[1..], k)
  }

  /** No key occurs twice. */
  predicate Distinct(d: Mapping) {
    forall i, j :: 0 <= i < j < |d| ==> d[i].0 != d[j].0
  }

  /** `d[k] = v`. */
  function Set(d: Mapping, k: string, v: Value): (r: Mapping)
    ensures Keys(r) == Keys(d) + {k}
    ensures |r| == if k in Keys(d) then |d| else |d| + 1
    ensures forall i :: 0 <= i < |d| ==> r[i].0 == d[i].0
  {
    if d == [] then [(k, v)]
    else if d[0].0 == k then [(k, v)] + d[1..]
    else [d[0]] + Set(d[1..], k, v)
  }

  /** `d.update(kw)`: the pairs of `kw` assigned in order. Keys already in
      `d` keep their position; new keys follow in first-assignment order. */
  function Update(d: Mapping, kw: Mapping): (r: Mapping)
    ensures Keys(r) == Keys(d) + Keys(kw)
    ensures |d| <= |r|
    ensures forall i :: 0 <= i < |d| ==> r[i].0 == d[i].0
    decreases |kw|
  {
    if kw == [] then d
    else Update(Set(d, kw[0].0, kw[0].1), kw[1..])
  }

  /** After an assignment, the key maps to the new value and every other
      key to what it mapped to before. */
  lemma {:induction false} GetAfterSet(d: Mapping, k: string, v: Value, k': string)
    ensures Get(Set(d, k, v), k') == if k' == k then Some(v) else Get(d, k')
  {
    if d != [] && d[0].0 != k {
      GetAfterSet(d[1..], k, v, k');
    }
  }

  /** After `update`, a key named in `kw` holds the last value `kw` gives it;
      any other key keeps its value. */
  lemma {:induction false} GetAfterUpdate(d: Mapping, kw: Mapping, k: string)
    ensures Get(Update(d, kw), k) == if k in Keys(kw) then Some(LastValue(kw, k)) else Get(d, k)
    decreases |kw|
  {
    if kw != [] {
      GetAfterUpdate(Set(d, kw[0].0, kw[0].1), kw[1..], k);
      GetAfterSet(d, kw[0].0, kw[0].1, k);
    }
  }

  /** Assignment keeps the keys distinct. */
  lemma {:induction false} SetDistinct(d: Mapping, k: string, v: Value)
    requires Distinct(d)
    ensures Distinct(Set(d, k, v))
  {
    if d != [] && d[0].0 != k {
      SetDistinct(d[1..], k, v);
      var r := Set(d, k, v);
      forall i, j | 0 <= i < j < |r|
        ensures r[i].0 != r[j].0
      {
        if i == 0 {
          KeysMembership(d[1..], d[0].0);
          KeysMembership(r[1..], r[j].0);
        }
      }
    }
  }

  /** So does `update`: the result is a dictionary whatever `kw` holds. */
  lemma {:induction false} UpdateDistinct(d: Mapping, kw: Mapping)
    requires Distinct(d)
    ensures Distinct(Update(d, kw))
    decreases |kw|
  {
    if kw != [] {
      SetDistinct(d, kw[0].0, kw[0].1);
      UpdateDistinct(Set(d, kw[0].0, kw[0].1), kw[1..]);
    }
  }
}
