/**
 * A Python dict whose iteration order is insertion order, as a sequence of
 * (key, value) entries. Class namespaces, keyword arguments and bound
 * arguments are all of this shape.
 */
module Namespace {
  import opened Wrappers

  function Keys<V>(ns: seq<(string, V)>): (ks: seq<string>)
    ensures |ks| == |ns|
    ensures forall i :: 0 <= i < |ns| ==> ks[i] == ns[i].0
  {
    seq(|ns|, i requires 0 <= i < |ns| => ns[i].0)
  }

  /** The position of the first entry with that key, if any. */
  function IndexOf<V>(ns: seq<(string, V)>, key: string): (r: Option<nat>)
    ensures r.None? <==> key !in Keys(ns)
    ensures r.Some? ==> r.value < |ns| && ns[r.value].0 == key
                        && forall j :: 0 <= j < r.value ==> ns[j].0 != key
  {
    if ns == [] then None
    else if ns[0].0 == key then
      assert Keys(ns)[0] == key;
      Some(0)
    else
      KeysCons(ns[0], ns[1..]);
      assert ns == [ns[0]] + ns[1..];
      match IndexOf(ns[1..], key)
      case None => None
      case Some(i) =>
        assert forall j :: 1 <= j <= i + 1 ==> ns[j] == ns[1..][j - 1];
        Some(i + 1)
  }

  /** `d.get(key)`: the value of the first entry with that key, if any. */
  function Lookup<V(==)>(ns: seq<(string, V)>, key: string): (r: Option<V>)
    ensures r.None? <==> key !in Keys(ns)
    ensures r.Some? ==> exists i :: 0 <= i < |ns| && ns[i] == (key, r.value)
                                    && forall j :: 0 <= j < i ==> ns[j].0 != key
  {
    match IndexOf(ns, key)
    case None => None
    case Some(i) =>
      assert ns[i] == (key, ns[i].1);
      Some(ns[i].1)
  }

  /**
   * `d[key] = v`: an existing key keeps its place and takes the new value,
   * a new key is appended at the end.
   */
  function Assign<V(==)>(ns: seq<(string, V)>, key: string, v: V): (r: seq<(string, V)>)
    ensures Keys(r) == if key in Keys(ns) then Keys(ns) else Keys(ns) + [key]
  {
    if ns == [] then
      [(key, v)]
    else if ns[0].0 == key then
      KeysCons(ns[0], ns[1..]);
      KeysCons((key, v), ns[1..]);
      assert ns == [ns[0]] + ns[1..];
      [(key, v)] + ns[1..]
    else
      var rest := Assign(ns[1..], key, v);
      KeysCons(ns[0], ns[1..]);
      KeysCons(ns[0], rest);
      assert ns == [ns[0]] + ns[1..];
      [ns[0]] + rest
  }

  lemma KeysCons<V>(e: (string, V), rest: seq<(string, V)>)
    ensures Keys([e] + rest) == [e.0] + Keys(rest)
  {
  }

  lemma LookupCons<V>(e: (string, V), rest: seq<(string, V)>, k: string)
    ensures Lookup([e] + rest, k) == if k == e.0 then Some(e.1) else Lookup(rest, k)
  {
    var ns := [e] + rest;
    assert ns[0] == e && ns[1..] == rest;
    if k != e.0 {
      match IndexOf(rest, k)
      case None =>
      case Some(i) => assert ns[i + 1] == rest[i];
    }
  }

  /** After the assignment the key looks up the value just assigned. */
  lemma {:induction false} AssignSetsKey<V>(ns: seq<(string, V)>, key: string, v: V)
    ensures Lookup(Assign(ns, key, v), key) == Some(v)
  {
    if ns != [] {
      if ns[0].0 == key {
        LookupCons((key, v), ns[1..], key);
      } else {
        AssignSetsKey(ns[1..], key, v);
        LookupCons(ns[0], Assign(ns[1..], key, v), key);
      }
    }
  }

  /** Assigning one key leaves what every other key looks up unchanged. */
  lemma {:induction false} AssignKeepsOtherKeys<V>(ns: seq<(string, V)>, key: string, v: V, k: string)
    requires k != key
    ensures Lookup(Assign(ns, key, v), k) == Lookup(ns, k)
  {
    if ns != [] {
      assert ns == [ns[0]] + ns[1..];
      LookupCons(ns[0], ns[1..], k);
      if ns[0].0 == key {
        LookupCons((key, v), ns[1..], k);
      } else {
        AssignKeepsOtherKeys(ns[1..], key, v, k);
        LookupCons(ns[0], Assign(ns[1..], key, v), k);
      }
    }
  }

  lemma KeysAppend<V>(a: seq<(string, V)>, b: seq<(string, V)>)
    ensures Keys(a + b) == Keys(a) + Keys(b)
  {
  }
}
