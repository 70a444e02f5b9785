/**
 * JavaScript's `Map` as an insertion-ordered dictionary: `set` of a new key
 * appends it after every key already present, `set` of a present key replaces
 * its value and keeps its position, `delete` drops the key (a no-op when it is
 * absent), and `values()` yields the values in key order.
 */
module OrderedMaps {
  import opened Wrappers

  /** No element occurs twice. */
  predicate Distinct(s: seq<string>) {
    forall i, j :: 0 <= i < j < |s| ==> s[i] != s[j]
  }

  /** `s` with every occurrence of `x` dropped, the rest in its order. */
  function Without(s: seq<string>, x: string): (r: seq<string>)
    ensures forall y :: y in r <==> y in s && y != x
    ensures |r| <= |s|
    ensures x !in s ==> r == s
    ensures Distinct(s) ==> Distinct(r)
  {
    if s == [] then []
    else if s[0] == x then Without(s[1..], x)
    else
      var rest := Without(s[1..], x);
      assert Distinct(s) ==> Distinct(s[1..]) && s[0] !in s[1..] && s[0] !in rest;
      [s[0]] + rest
  }

  /** In a sequence without repetitions, dropping the element at `i` is cutting position `i` out. */
  lemma {:induction false} WithoutAt(s: seq<string>, i: nat)
    requires Distinct(s) && i < |s|
    ensures Without(s, s[i]) == s[..i] + s[i + 1..]
  {
    if i == 0 {
      assert s[0] !in s[1..];
      assert s[..0] + s[1..] == s[1..];
    } else {
      var t := s[1..];
      assert Distinct(t);
      WithoutAt(t, i - 1);
      assert t[i - 1] == s[i] && s[0] != s[i];
      calc {
        Without(s, s[i]);
        [s[0]] + Without(t, s[i]);
        [s[0]] + (t[..i - 1] + t[i..]);
        { assert t[..i - 1] == s[1..i] && t[i..] == s[i + 1..]; }
        [s[0]] + (s[1..i] + s[i + 1..]);
        { assert [s[0]] + s[1..i] == s[..i]; }
        s[..i] + s[i + 1..];
      }
    }
  }

  /** String keys in first-insertion order, and the value stored under each key. */
  datatype OrderedMap<V> = OrderedMap(keys: seq<string>, entries: map<string, V>) {

    /** Each key is listed once, and exactly the listed keys have a value. */
    ghost predicate Valid() {
      Distinct(keys) && forall k :: k in entries <==> k in keys
    }

    /** `map.get(k)`: the stored value, or `None` for `undefined`. */
    function Get(k: string): (r: Option<V>)
      requires Valid()
      ensures r.Some? <==> k in keys
      ensures r.Some? ==> r.value == entries[k]
    {
      if k in entries then Some(entries[k]) else None
    }

    /** `map.set(k, v)`. */
    function Set(k: string, v: V): (m: OrderedMap<V>)
      requires Valid()
      ensures m.Valid()
      ensures m.Get(k) == Some(v)
      ensures forall j :: j != k ==> m.Get(j) == Get(j)
      // a present key keeps its position and the size does not grow
      ensures k in keys ==> m.keys == keys
      // a new key goes last
      ensures k !in keys ==> m.keys == keys + [k]
    {
      OrderedMap(if k in entries then keys else keys + [k], entries[k := v])
    }

    /** `map.delete(k)`. */
    function Delete(k: string): (m: OrderedMap<V>)
      requires Valid()
      ensures m.Valid()
      ensures m.Get(k) == None
      ensures forall j :: j != k ==> m.Get(j) == Get(j)
      ensures k !in keys ==> m == this
      ensures forall i :: 0 <= i < |keys| && keys[i] == k ==> m.keys == keys[..i] + keys[i + 1..]
    {
      var m := OrderedMap(Without(keys, k), entries - {k});
      assert k !in keys ==> entries - {k} == entries;
      forall i | 0 <= i < |keys| && keys[i] == k
        ensures m.keys == keys[..i] + keys[i + 1..]
      {
        WithoutAt(keys, i);
      }
      m
    }

    /** `Array.from(map.values())`: the value of each key, in key order. */
    function Values(): (vs: seq<V>)
      requires Valid()
      ensures |vs| == |keys|
      ensures forall i :: 0 <= i < |keys| ==> vs[i] == entries[keys[i]]
    {
      seq(|keys|, i requires 0 <= i < |keys| => entries[keys[i]])
    }
  }

  /** `new Map()`. */
  function Empty<V>(): (m: OrderedMap<V>)
    ensures m.Valid() && m.keys == []
    ensures forall k :: m.Get(k) == None
  {
    OrderedMap([], map[])
  }
}
