/**
 * The sequence operations the two pages lean on: JavaScript's `filter` and
 * `find`, and the ordering a query's `order(...)` asks of the data store.
 * Each is defined once, generically, with the facts the pages need.
 */
module Seqs {

  datatype Option<T> = None | Some(value: T)

  /** `s.filter(p)`: the elements of `s` that satisfy `p`, in their order. */
  function Filter<T(!new)>(s: seq<T>, p: T -> bool): (r: seq<T>)
    ensures |r| <= |s|
    ensures forall x :: x in r <==> x in s && p(x)
  {
    if s == [] then []
    else
      assert s == [s[0]] + s[1..];
      if p(s[0]) then [s[0]] + Filter(s[1..], p) else Filter(s[1..], p)
  }

  /** Filtering keeps each kept element as often as it occurs. */
  lemma {:induction false} FilterMultiset<T(!new)>(s: seq<T>, p: T -> bool)
    ensures forall x :: multiset(Filter(s, p))[x] == if p(x) then multiset(s)[x] else 0
  {
    if s != [] {
      FilterMultiset(s[1..], p);
      assert s == [s[0]] + s[1..];
    }
  }

  lemma {:induction false} FilterConcat<T(!new)>(a: seq<T>, b: seq<T>, p: T -> bool)
    ensures Filter(a + b, p) == Filter(a, p) + Filter(b, p)
  {
    if a == [] {
      assert a + b == b;
    } else {
      assert (a + b)[0] == a[0];
      assert (a + b)[1..] == a[1..] + b;
      FilterConcat(a[1..], b, p);
    }
  }

  /** `ix` lists, in increasing order, the positions of `s` that make up `r`. */
  ghost predicate IsEmbedding<T>(ix: seq<nat>, r: seq<T>, s: seq<T>)
  {
    && |ix| == |r|
    && (forall k :: 0 <= k < |ix| ==> ix[k] < |s| && r[k] == s[ix[k]])
    && (forall k, l :: 0 <= k < l < |ix| ==> ix[k] < ix[l])
  }

  /** `r` is `s` with some elements dropped and the rest in their original order. */
  ghost predicate Subsequence<T>(r: seq<T>, s: seq<T>)
  {
    exists ix :: IsEmbedding(ix, r, s)
  }

  function Shift(ix: seq<nat>): (r: seq<nat>)
    ensures |r| == |ix|
    ensures forall k :: 0 <= k < |ix| ==> r[k] == ix[k] + 1
  {
    seq(|ix|, k requires 0 <= k < |ix| => ix[k] + 1)
  }

  /** Positions of the elements that `Filter(s, p)` keeps. */
  ghost function FilterPositions<T(!new)>(s: seq<T>, p: T -> bool): seq<nat>
  {
    if s == [] then []
    else if p(s[0]) then [0] + Shift(FilterPositions(s[1..], p))
    else Shift(FilterPositions(s[1..], p))
  }

  /** An embedding into the tail of `s` is, shifted by one, an embedding into `s`. */
  lemma EmbedShift<T>(ix: seq<nat>, r: seq<T>, s: seq<T>)
    requires s != [] && IsEmbedding(ix, r, s[1..])
    ensures IsEmbedding(Shift(ix), r, s)
  {
    var sh := Shift(ix);
    forall k | 0 <= k < |sh|
      ensures sh[k] < |s| && r[k] == s[sh[k]]
    {
      assert r[k] == s[1..][ix[k]];
    }
  }

  /** Position 0 in front of an embedding that avoids position 0 embeds one more element. */
  lemma EmbedCons<T>(ix: seq<nat>, r: seq<T>, s: seq<T>)
    requires s != [] && IsEmbedding(ix, r, s) && forall k :: 0 <= k < |ix| ==> 0 < ix[k]
    ensures IsEmbedding([0] + ix, [s[0]] + r, s)
  {
    var jx, q := [0] + ix, [s[0]] + r;
    forall k | 0 <= k < |jx|
      ensures jx[k] < |s| && q[k] == s[jx[k]]
    {
      if k > 0 {
        assert jx[k] == ix[k - 1] && q[k] == r[k - 1];
      }
    }
    forall k, l | 0 <= k < l < |jx|
      ensures jx[k] < jx[l]
    {
      assert jx[l] == ix[l - 1];
      if k > 0 {
        assert jx[k] == ix[k - 1];
      }
    }
  }

  lemma {:induction false} FilterPositionsEmbed<T(!new)>(s: seq<T>, p: T -> bool)
    ensures IsEmbedding(FilterPositions(s, p), Filter(s, p), s)
  {
    if s != [] {
      var t := s[1..];
      FilterPositionsEmbed(t, p);
      var sh := Shift(FilterPositions(t, p));
      EmbedShift(FilterPositions(t, p), Filter(t, p), s);
      if p(s[0]) {
        EmbedCons(sh, Filter(t, p), s);
      }
    }
  }

  /** Filtering only drops elements: the survivors keep their relative order. */
  lemma FilterIsSubsequence<T(!new)>(s: seq<T>, p: T -> bool)
    ensures Subsequence(Filter(s, p), s)
  {
    FilterPositionsEmbed(s, p);
    var ix := FilterPositions(s, p);
    assert IsEmbedding(ix, Filter(s, p), s);
  }

  lemma {:induction false} FilterAll<T(!new)>(s: seq<T>, p: T -> bool)
    requires forall x :: x in s ==> p(x)
    ensures Filter(s, p) == s
  {
    if s != [] {
      FilterAll(s[1..], p);
    }
  }

  /** Filtering a sequence extended by one element. */
  lemma FilterSnoc<T(!new)>(s: seq<T>, x: T, p: T -> bool)
    ensures Filter(s + [x], p) == Filter(s, p) + (if p(x) then [x] else [])
  {
    assert [x][1..] == [];
    FilterConcat(s, [x], p);
  }

  /** When no element satisfies `p`, filtering leaves nothing. */
  lemma {:induction false} FilterNone<T(!new)>(s: seq<T>, p: T -> bool)
    requires forall x :: x in s ==> !p(x)
    ensures Filter(s, p) == []
  {
    if s != [] {
      assert s[0] in s;
      assert forall x :: x in s[1..] ==> x in s;
      FilterNone(s[1..], p);
    }
  }

  /** Filtering out one element that sits between two runs the filter keeps whole. */
  lemma FilterDropsOne<T(!new)>(before: seq<T>, x: T, after: seq<T>, p: T -> bool)
    requires Filter(before, p) == before && Filter(after, p) == after && !p(x)
    ensures Filter(before + [x] + after, p) == before + after
  {
    assert before + [x] + after == before + ([x] + after);
    assert ([x] + after)[1..] == after;
    FilterConcat(before, [x] + after, p);
  }

  /** `s.find(p)`: the first element satisfying `p`, if there is one. */
  function Find<T(!new)>(s: seq<T>, p: T -> bool): (r: Option<T>)
    ensures r.None? <==> forall x :: x in s ==> !p(x)
    ensures r.Some? ==> exists i :: 0 <= i < |s| && s[i] == r.value && p(s[i]) && forall j :: 0 <= j < i ==> !p(s[j])
  {
    if s == [] then None
    else if p(s[0]) then Some(s[0])
    else
      var r := Find(s[1..], p);
      assert r.Some? ==> exists i :: 1 <= i < |s| && s[i] == r.value && p(s[i]) && forall j :: 0 <= j < i ==> !p(s[j]) by {
        if r.Some? {
          var i :| 0 <= i < |s[1..]| && s[1..][i] == r.value && p(s[1..][i]) && forall j :: 0 <= j < i ==> !p(s[1..][j]);
          assert forall j :: 1 <= j < i + 1 ==> s[j] == s[1..][j - 1];
        }
      }
      r
  }

  /**
   * Looking for `p` among the elements kept by `q` finds what looking in the
   * whole sequence finds, when every match of `p` is kept by `q`.
   */
  lemma {:induction false} FindInFiltered<T(!new)>(s: seq<T>, q: T -> bool, p: T -> bool)
    requires forall x :: x in s && p(x) ==> q(x)
    ensures Find(Filter(s, q), p) == Find(s, p)
  {
    if s != [] {
      FindInFiltered(s[1..], q, p);
    }
  }

  ghost predicate SortedBy<T>(s: seq<T>, key: T -> int)
  {
    forall i, j :: 0 <= i < j < |s| ==> key(s[i]) <= key(s[j])
  }

  /** Every element of a rearrangement of `t` plus `x` is at or above `h` when `t`'s and `x` are. */
  lemma AllAbove<T>(h: T, x: T, t: seq<T>, rest: seq<T>, key: T -> int)
    requires multiset(rest) == multiset(t) + multiset{x}
    requires key(h) <= key(x) && forall k :: 0 <= k < |t| ==> key(h) <= key(t[k])
    ensures forall k :: 0 <= k < |rest| ==> key(h) <= key(rest[k])
  {
    forall k | 0 <= k < |rest|
      ensures key(h) <= key(rest[k])
    {
      var y := rest[k];
      assert y in multiset(rest);
      if y != x {
        assert y in multiset(t);
        var j :| 0 <= j < |t| && t[j] == y;
      }
    }
  }

  /** A sorted sequence stays sorted with an element in front that is at or below all of it. */
  lemma ConsSorted<T>(h: T, rest: seq<T>, key: T -> int)
    requires SortedBy(rest, key) && forall k :: 0 <= k < |rest| ==> key(h) <= key(rest[k])
    ensures SortedBy([h] + rest, key)
  {
    var q := [h] + rest;
    forall i, j | 0 <= i < j < |q|
      ensures key(q[i]) <= key(q[j])
    {
      if i > 0 {
        assert q[i] == rest[i - 1];
      }
      assert q[j] == rest[j - 1];
    }
  }

  function InsertBy<T>(x: T, s: seq<T>, key: T -> int): (r: seq<T>)
    requires SortedBy(s, key)
    ensures SortedBy(r, key)
    ensures multiset(r) == multiset(s) + multiset{x}
  {
    if s == [] then [x]
    else if key(x) <= key(s[0]) then [x] + s
    else
      var t := s[1..];
      var rest := InsertBy(x, t, key);
      assert s == [s[0]] + t;
      AllAbove(s[0], x, t, rest, key);
      ConsSorted(s[0], rest, key);
      assert multiset([s[0]] + rest) == multiset{s[0]} + multiset(rest);
      [s[0]] + rest
  }

  /** A query's `order(key)`: the same elements, ascending by `key`. */
  function SortBy<T>(s: seq<T>, key: T -> int): (r: seq<T>)
    ensures SortedBy(r, key)
    ensures multiset(r) == multiset(s)
    ensures |r| == |s|
  {
    if s == [] then []
    else
      assert s == [s[0]] + s[1..];
      InsertBy(s[0], SortBy(s[1..], key), key)
  }

  function KeysOf<T>(s: seq<T>, key: T -> int): (r: seq<int>)
    ensures |r| == |s|
    ensures forall i :: 0 <= i < |s| ==> r[i] == key(s[i])
  {
    seq(|s|, i requires 0 <= i < |s| => key(s[i]))
  }

  lemma MultisetRemove<T>(b: seq<T>, i: nat)
    requires i < |b|
    ensures multiset(b[..i] + b[i + 1..]) == multiset(b) - multiset{b[i]}
  {
    assert b == b[..i] + [b[i]] + b[i + 1..];
  }

  lemma MultisetTail<T>(b: seq<T>)
    requires b != []
    ensures multiset(b[1..]) == multiset(b) - multiset{b[0]}
  {
    assert b == [b[0]] + b[1..];
  }

  lemma KeysOfDrop<T>(b: seq<T>, i: nat, key: T -> int)
    requires i < |b|
    ensures KeysOf(b[..i] + b[i + 1..], key) == KeysOf(b, key)[..i] + KeysOf(b, key)[i + 1..]
  {
    var k, r := KeysOf(b, key), b[..i] + b[i + 1..];
    forall j | 0 <= j < |r|
      ensures KeysOf(r, key)[j] == (k[..i] + k[i + 1..])[j]
    {
      if j >= i {
        assert r[j] == b[j + 1];
      }
    }
  }

  lemma KeysOfRemove<T>(b: seq<T>, i: nat, key: T -> int)
    requires i < |b|
    ensures multiset(KeysOf(b, key)) == multiset(KeysOf(b[..i] + b[i + 1..], key)) + multiset{key(b[i])}
  {
    var k := KeysOf(b, key);
    KeysOfDrop(b, i, key);
    MultisetRemove(k, i);
    assert k[i] in multiset(k);
  }

  /** Rearranging a sequence rearranges its keys. */
  lemma {:induction false} KeysOfPermutation<T>(a: seq<T>, b: seq<T>, key: T -> int)
    requires multiset(a) == multiset(b)
    ensures multiset(KeysOf(a, key)) == multiset(KeysOf(b, key))
    decreases |a|
  {
    if a == [] {
      assert |multiset(b)| == 0;
    } else {
      var h := a[0];
      assert h in multiset(b);
      var i :| 0 <= i < |b| && b[i] == h;
      var rest := b[..i] + b[i + 1..];
      MultisetTail(a);
      MultisetRemove(b, i);
      assert multiset(a[1..]) == multiset(rest);
      KeysOfPermutation(a[1..], rest, key);
      assert KeysOf(a, key) == [key(h)] + KeysOf(a[1..], key);
      assert multiset(KeysOf(a, key)) == multiset{key(h)} + multiset(KeysOf(a[1..], key));
      KeysOfRemove(b, i, key);
    }
  }

  /**
   * `SortedBy` with the identity key, stated on the numbers themselves so
   * that the uniqueness induction below reasons about sequence elements alone
   * and needs no applications of a key function.
   */
  ghost predicate Ascending(s: seq<int>)
  {
    forall i, j :: 0 <= i < j < |s| ==> s[i] <= s[j]
  }

  lemma AscendingTail(u: seq<int>)
    requires Ascending(u) && u != []
    ensures Ascending(u[1..])
  {
    forall i, j | 0 <= i < j < |u| - 1
      ensures u[1..][i] <= u[1..][j]
    {
      assert u[1..][i] == u[i + 1] && u[1..][j] == u[j + 1];
    }
  }

  lemma AscendingFirstLeast(u: seq<int>, x: int)
    requires Ascending(u) && x in multiset(u)
    ensures u != [] && u[0] <= x
  {
    var j :| 0 <= j < |u| && u[j] == x;
  }

  /** Two ascending sequences holding the same numbers start alike and go on with the same numbers. */
  lemma AscendingHeads(u: seq<int>, v: seq<int>)
    requires Ascending(u) && Ascending(v) && u != []
    requires multiset(u) == multiset(v)
    ensures v != [] && u[0] == v[0]
    ensures multiset(u[1..]) == multiset(v[1..]) && Ascending(u[1..]) && Ascending(v[1..])
  {
    AscendingFirstLeast(v, u[0]);
    AscendingFirstLeast(u, v[0]);
    MultisetTail(u);
    MultisetTail(v);
    AscendingTail(u);
    AscendingTail(v);
  }

  /** An ascending sequence of numbers is determined by the numbers it holds. */
  lemma {:induction false} AscendingUnique(u: seq<int>, v: seq<int>)
    requires Ascending(u) && Ascending(v)
    requires multiset(u) == multiset(v)
    ensures u == v
  {
    if u == [] {
      assert |multiset(v)| == 0;
    } else {
      AscendingHeads(u, v);
      AscendingUnique(u[1..], v[1..]);
      assert u == [u[0]] + u[1..] && v == [v[0]] + v[1..];
    }
  }

  /**
   * Order-by is insensitive to the order rows were stored in: two
   * rearrangements of the same rows come back with the same key sequence.
   */
  lemma SortByOrderIndependent<T>(a: seq<T>, b: seq<T>, key: T -> int)
    requires multiset(a) == multiset(b)
    ensures KeysOf(SortBy(a, key), key) == KeysOf(SortBy(b, key), key)
  {
    var sa, sb := SortBy(a, key), SortBy(b, key);
    KeysOfPermutation(sa, sb, key);
    AscendingUnique(KeysOf(sa, key), KeysOf(sb, key));
  }
}
