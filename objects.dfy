/**
  JavaScript plain objects as the program uses them: a list of (key, value)
  entries in insertion order. For keys that are not array indices (such as
  "0" or "42") this is the order `Object.entries`, `Object.keys` and
  `for ... in` visit them in; JavaScript lists array-index keys first, in
  numeric order, and that is not modelled. A real object never holds a key twice; the
  functions here are total anyway and always act on the first entry with a key.
*/
module Objects {
  import opened Wrappers

  /** `Object.keys(e)`: the keys, in order. */
  function Keys<V>(e: seq<(string, V)>): (ks: seq<string>)
    ensures |ks| == |e|
    ensures forall i :: 0 <= i < |e| ==> ks[i] == e[i].0
  {
    if e == [] then [] else [e[0].0] + Keys(e[1..])
  }

  /** `e[key]`: the value of the first entry with that key, or None when there is none. */
  function Lookup<V(==)>(e: seq<(string, V)>, key: string): (r: Option<V>)
    ensures r.None? <==> key !in Keys(e)
    ensures r.Some? ==> exists i :: 0 <= i < |e| && e[i] == (key, r.value) && FirstWithKey(e, key, i)
  {
    if e == [] then None
    else if e[0].0 == key then
      assert FirstWithKey(e, key, 0);
      Some(e[0].1)
    else
      var r := Lookup(e[1..], key);
      assert forall i: nat :: FirstWithKey(e[1..], key, i) ==> FirstWithKey(e, key, i + 1) by {
        forall i: nat | FirstWithKey(e[1..], key, i)
          ensures FirstWithKey(e, key, i + 1)
        {
          assert forall j :: 1 <= j < i + 1 ==> e[j] == e[1..][j - 1];
        }
      }
      r
  }

  /** Entry `i` holds `key` and no earlier entry does. */
  ghost predicate FirstWithKey<V>(e: seq<(string, V)>, key: string, i: nat)
  {
    i < |e| && e[i].0 == key && forall j :: 0 <= j < i ==> e[j].0 != key
  }

  /**
    The `rest` of `const { key, ...rest } = e`: every entry whose key differs
    from `key`, in the same order.
  */
  function Without<V(==)>(e: seq<(string, V)>, key: string): (r: seq<(string, V)>)
    ensures |r| <= |e|
    ensures key !in Keys(r)
    ensures forall i :: 0 <= i < |r| ==> r[i] in e && r[i].0 != key
    ensures forall i :: 0 <= i < |e| && e[i].0 != key ==> e[i] in r
  {
    if e == [] then []
    else if e[0].0 == key then Without(e[1..], key)
    else
      var rest := Without(e[1..], key);
      assert Keys([e[0]] + rest) == [e[0].0] + Keys(rest);
      [e[0]] + rest
  }

  /**
    Stripping works entry by entry and keeps the order: with the one-entry
    case below, this determines Without on every list.
  */
  lemma {:induction false} WithoutConcat<V>(a: seq<(string, V)>, b: seq<(string, V)>, key: string)
    ensures Without(a + b, key) == Without(a, key) + Without(b, key)
    ensures forall p: (string, V) :: Without([p], key) == if p.0 == key then [] else [p]
  {
    if a != [] {
      assert (a + b)[1..] == a[1..] + b;
      WithoutConcat(a[1..], b, key);
    } else {
      assert a + b == b;
    }
  }

  /**
    `{ ...e, [key]: v }`: an existing key keeps its place and takes the new
    value; a new key is appended at the end (for a key that is not an
    array index).
  */
  function Set<V(==)>(e: seq<(string, V)>, key: string, v: V): (r: seq<(string, V)>)
    ensures key in Keys(e) ==> Keys(r) == Keys(e)
    ensures key !in Keys(e) ==> r == e + [(key, v)]
  {
    if e == [] then [(key, v)]
    else if e[0].0 == key then [(key, v)] + e[1..]
    else
      var rest := Set(e[1..], key, v);
      assert Keys(e) == [e[0].0] + Keys(e[1..]);
      assert Keys([e[0]] + rest) == [e[0].0] + Keys(rest);
      [e[0]] + rest
  }

  /** Reading back the key just written gives the new value. */
  lemma {:induction false} LookupSetSame<V>(e: seq<(string, V)>, key: string, v: V)
    ensures Lookup(Set(e, key, v), key) == Some(v)
  {
    if e != [] && e[0].0 != key {
      LookupSetSame(e[1..], key, v);
    }
  }

  /** Every other key reads as before. */
  lemma {:induction false} LookupSetOther<V>(e: seq<(string, V)>, key: string, v: V, other: string)
    requires other != key
    ensures Lookup(Set(e, key, v), other) == Lookup(e, other)
  {
    if e != [] && e[0].0 != key && e[0].0 != other {
      LookupSetOther(e[1..], key, v, other);
    }
  }

  /** Removing one key leaves the value of every other key as it was. */
  lemma {:induction false} LookupWithout<V>(e: seq<(string, V)>, key: string, other: string)
    requires other != key
    ensures Lookup(Without(e, key), other) == Lookup(e, other)
  {
    if e != [] {
      LookupWithout(e[1..], key, other);
    }
  }
}
