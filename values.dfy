/**
 * Attribute values and ordered key/value mappings: the Python dicts, keyword
 * argument lists and parsed JSON objects that the configuration reads from.
 */
module Values {

  /** The values a configuration attribute can hold: None, a bool, an int, a
      string, or (for `ignore_object`) a list of strings. */
  datatype Value = Null | Bool(b: bool) | Int(i: int) | Str(s: string) | StrList(items: seq<string>)

  /** Python truthiness, as used by `if self.perturbation and ...`. */
  predicate Truthy(v: Value)
    ensures !Truthy(v) <==> v in {Null, Bool(false), Int(0), Str(""), StrList([])}
  {
    match v
    case Null => false
    case Bool(b) => b
    case Int(i) => i != 0
    case Str(s) => s != ""
    case StrList(xs) => xs != []
  }

  /** An insertion-ordered mapping, traversed front to back. */
  type Mapping = seq<(string, Value)>

  /** The set of keys of a mapping. */
  function Keys(kv: Mapping): set<string> {
    if kv == [] then {} else {kv[0].0} + Keys(kv[1..])
  }

  /** The value of the LAST pair carrying key `k`: what a sequence of
      assignments in mapping order leaves behind. */
  function LastValue(kv: Mapping, k: string): Value
    requires k in Keys(kv)
  {
    if k in Keys(kv[1..]) then LastValue(kv[1..], k) else kv[0].1
  }

  /** A key belongs to the mapping exactly when some pair carries it. */
  lemma {:induction false} KeysMembership(kv: Mapping, k: string)
    ensures k in Keys(kv) <==> exists j :: 0 <= j < |kv| && kv[j].0 == k
  {
    if kv != [] {
      KeysMembership(kv[1..], k);
      if k in Keys(kv[1..]) {
        var j :| 0 <= j < |kv[1..]| && kv[1..][j].0 == k;
        assert kv[j + 1].0 == k;
      }
      if exists j :: 0 <= j < |kv| && kv[j].0 == k {
        var j :| 0 <= j < |kv| && kv[j].0 == k;
        if j > 0 { assert kv[1..][j - 1].0 == k; }
      }
    }
  }

  /** A prefix mentions no key the whole mapping does not. */
  lemma {:induction false} KeysPrefix(kv: Mapping, n: nat)
    requires n <= |kv|
    ensures Keys(kv[..n]) <= Keys(kv)
  {
    if n > 0 {
      assert kv[..n][1..] == kv[1..][..n - 1];
      KeysPrefix(kv[1..], n - 1);
    }
  }

  /** Last writer wins: the value left for `k` is that of the pair with key
      `k` that no later pair with key `k` follows. */
  lemma {:induction false} LastValueIsLast(kv: Mapping, k: string, j: nat)
    requires j < |kv| && kv[j].0 == k
    requires forall j' :: j < j' < |kv| ==> kv[j'].0 != k
    ensures k in Keys(kv) && LastValue(kv, k) == kv[j].1
  {
    KeysMembership(kv, k);
    KeysMembership(kv[1..], k);
    if j > 0 {
      LastValueIsLast(kv[1..], k, j - 1);
    }
  }

  /** If every pair with key `k` carries `v`, the last one does too. */
  lemma {:induction false} LastValueUniform(kv: Mapping, k: string, v: Value)
    requires k in Keys(kv)
    requires forall j :: 0 <= j < |kv| && kv[j].0 == k ==> kv[j].1 == v
    ensures LastValue(kv, k) == v
  {
    if k in Keys(kv[1..]) {
      forall j | 0 <= j < |kv[1..]| && kv[1..][j].0 == k ensures kv[1..][j].1 == v {
        assert kv[j + 1] == kv[1..][j];
      }
      LastValueUniform(kv[1..], k, v);
    }
  }
}
