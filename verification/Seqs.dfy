/** Filtering and grouping of sequences, in the order the source's loops append. */
module Seqs {

  datatype Option<+T> = None | Some(value: T)

  /** The elements of `s` that satisfy `f`, in order. */
  function Filter<T(!new)>(s: seq<T>, f: T -> bool): (r: seq<T>)
    ensures forall x :: x in r <==> x in s && f(x)
    ensures |r| <= |s|
  {
    if |s| == 0 then []
    else Filter(s[..|s| - 1], f) + (if f(s[|s| - 1]) then [s[|s| - 1]] else [])
  }

  lemma {:induction false} FilterConcat<T(!new)>(a: seq<T>, b: seq<T>, f: T -> bool)
    ensures Filter(a + b, f) == Filter(a, f) + Filter(b, f)
  {
    if |b| == 0 {
      assert a + b == a;
    } else {
      assert (a + b)[..|a + b| - 1] == a + b[..|b| - 1];
      FilterConcat(a, b[..|b| - 1], f);
    }
  }

  lemma {:induction false} FilterTwice<T(!new)>(s: seq<T>, f: T -> bool, g: T -> bool, h: T -> bool)
    requires forall x :: x in s ==> (h(x) <==> f(x) && g(x))
    ensures Filter(Filter(s, f), g) == Filter(s, h)
  {
    if |s| > 0 {
      var init, x := s[..|s| - 1], s[|s| - 1];
      FilterTwice(init, f, g, h);
      FilterConcat(Filter(init, f), if f(x) then [x] else [], g);
    }
  }

  lemma {:induction false} FilterSame<T(!new)>(s: seq<T>, f: T -> bool, g: T -> bool)
    requires forall x :: x in s ==> (f(x) <==> g(x))
    ensures Filter(s, f) == Filter(s, g)
  {
    if |s| > 0 {
      FilterSame(s[..|s| - 1], f, g);
    }
  }

  lemma {:induction false} FilterAll<T(!new)>(s: seq<T>, f: T -> bool)
    requires forall x :: x in s ==> f(x)
    ensures Filter(s, f) == s
  {
    if |s| > 0 {
      var init, x := s[..|s| - 1], s[|s| - 1];
      assert s == init + [x];
      assert x in s;
      FilterAll(init, f);
    }
  }

  lemma FilterNone<T(!new)>(s: seq<T>, f: T -> bool)
    requires forall x :: x in s ==> !f(x)
    ensures Filter(s, f) == []
  {
  }

  function Map<T, U>(s: seq<T>, f: T -> U): (r: seq<U>)
    ensures |r| == |s| && forall i :: 0 <= i < |s| ==> r[i] == f(s[i])
  {
    seq(|s|, i requires 0 <= i < |s| => f(s[i]))
  }

  /** "has key `k`", as a filter */
  function Keyed<T(!new), K(==)>(key: T -> K, k: K): T -> bool {
    x => key(x) == k
  }

  /** What a Go map lookup of a slice yields: nil for a missing key. */
  function Lookup<K, V>(m: map<K, seq<V>>, k: K): seq<V> {
    if k in m then m[k] else []
  }

  function KeysOf<T, K(==)>(s: seq<T>, key: T -> K): set<K> {
    set i | 0 <= i < |s| :: key(s[i])
  }

  lemma FilterPrefix<T(!new)>(s: seq<T>, i: nat, f: T -> bool)
    requires i < |s|
    ensures Filter(s[..i + 1], f) == if f(s[i]) then Filter(s[..i], f) + [s[i]] else Filter(s[..i], f)
  {
    assert s[..i + 1][..i] == s[..i];
  }

  lemma KeysOfPrefix<T, K>(s: seq<T>, i: nat, key: T -> K)
    requires i < |s|
    ensures KeysOf(s[..i + 1], key) == KeysOf(s[..i], key) + {key(s[i])}
  {
  }

  lemma GroupOneMore<T(!new), K>(groups: map<K, seq<T>>, s: seq<T>, i: nat, key: T -> K, k: K)
    requires i < |s| && Lookup(groups, k) == Filter(s[..i], Keyed(key, k))
    ensures Lookup(groups[key(s[i]) := Lookup(groups, key(s[i])) + [s[i]]], k) == Filter(s[..i + 1], Keyed(key, k))
  {
    hide Filter;
    FilterPrefix(s, i, Keyed(key, k));
  }

  lemma NoKeys<T, K>(s: seq<T>, key: T -> K)
    requires |s| == 0
    ensures KeysOf(s, key) == {}
  {
  }

  /** The grouping loops: every element is appended to the slice of its key. */
  method GroupBy<T(!new), K(==)>(s: seq<T>, key: T -> K) returns (groups: map<K, seq<T>>)
    ensures groups.Keys == KeysOf(s, key)
    ensures forall k :: Lookup(groups, k) == Filter(s, Keyed(key, k))
  {
    hide Filter, KeysOf;
    groups := map[];
    assert KeysOf(s[..0], key) == {} by { NoKeys(s[..0], key); }
    forall k ensures Filter(s[..0], Keyed(key, k)) == [] {
      FilterNone(s[..0], Keyed(key, k));
    }
    for i := 0 to |s|
      invariant groups.Keys == KeysOf(s[..i], key)
      invariant forall k :: Lookup(groups, k) == Filter(s[..i], Keyed(key, k))
    {
      forall k ensures Lookup(groups[key(s[i]) := Lookup(groups, key(s[i])) + [s[i]]], k)
          == Filter(s[..i + 1], Keyed(key, k)) {
        GroupOneMore(groups, s, i, key, k);
      }
      KeysOfPrefix(s, i, key);
      groups := groups[key(s[i]) := Lookup(groups, key(s[i])) + [s[i]]];
    }
    assert s[..|s|] == s;
  }
}
