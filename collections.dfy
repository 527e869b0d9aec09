/**
 * `filter` and stable `sort` on sequences, as the store's list queries use them.
 * Records are selected and ordered by integer keys read off them by a function.
 */
module Collections {

  /** `s.filter(x => key(x) === v)` */
  function FilterBy<T(==,!new)>(s: seq<T>, key: T -> int, v: int): (r: seq<T>)
    ensures forall x :: x in r <==> x in s && key(x) == v
    ensures forall i :: 0 <= i < |r| ==> key(r[i]) == v
    ensures |r| <= |s|
  {
    if s == [] then []
    else if key(s[0]) == v then [s[0]] + FilterBy(s[1..], key, v)
    else FilterBy(s[1..], key, v)
  }

  /** `s.filter(x => key(x) >= lo)` */
  function FilterFrom<T(==,!new)>(s: seq<T>, key: T -> int, lo: int): (r: seq<T>)
    ensures forall x :: x in r <==> x in s && key(x) >= lo
    ensures |r| <= |s|
  {
    if s == [] then []
    else if key(s[0]) >= lo then [s[0]] + FilterFrom(s[1..], key, lo)
    else FilterFrom(s[1..], key, lo)
  }

  lemma {:induction false} FilterByAppend<T(!new)>(s: seq<T>, t: seq<T>, key: T -> int, v: int)
    ensures FilterBy(s + t, key, v) == FilterBy(s, key, v) + FilterBy(t, key, v)
  {
    if s != [] {
      assert (s + t)[0] == s[0] && (s + t)[1..] == s[1..] + t;
      FilterByAppend(s[1..], t, key, v);
      if key(s[0]) == v {
        assert FilterBy(s + t, key, v) == [s[0]] + FilterBy(s[1..] + t, key, v);
      }
    } else {
      assert s + t == t;
    }
  }

  /** Each element occurs in the filtered sequence as often as in the input when it passes, else never. */
  lemma {:induction false} FilterByMultiplicity<T(!new)>(s: seq<T>, key: T -> int, v: int, x: T)
    ensures multiset(FilterBy(s, key, v))[x] == if key(x) == v then multiset(s)[x] else 0
  {
    if s != [] {
      FilterByMultiplicity(s[1..], key, v, x);
      assert s == [s[0]] + s[1..];
    }
  }

  /** Filtering commutes with reordering: permutations have permuted filters. */
  lemma FilterByPermutation<T(!new)>(s: seq<T>, t: seq<T>, key: T -> int, v: int)
    requires multiset(s) == multiset(t)
    ensures multiset(FilterBy(s, key, v)) == multiset(FilterBy(t, key, v))
    ensures |FilterBy(s, key, v)| == |FilterBy(t, key, v)|
  {
    forall x ensures multiset(FilterBy(s, key, v))[x] == multiset(FilterBy(t, key, v))[x] {
      FilterByMultiplicity(s, key, v, x);
      FilterByMultiplicity(t, key, v, x);
    }
    assert multiset(FilterBy(s, key, v)) == multiset(FilterBy(t, key, v));
    assert |multiset(FilterBy(s, key, v))| == |FilterBy(s, key, v)|;
    assert |multiset(FilterBy(t, key, v))| == |FilterBy(t, key, v)|;
  }

  /** `a` goes no later than `b`: newest first means larger keys first. */
  predicate Precedes(a: int, b: int, newestFirst: bool) {
    if newestFirst then a >= b else a <= b
  }

  predicate Ordered<T>(s: seq<T>, key: T -> int, newestFirst: bool) {
    forall i, j :: 0 <= i < j < |s| ==> Precedes(key(s[i]), key(s[j]), newestFirst)
  }

  /** Inserts `x` after every element it does not strictly precede, so equal keys keep their order. */
  function Insert<T(==,!new)>(x: T, s: seq<T>, key: T -> int, newestFirst: bool): (r: seq<T>)
    requires Ordered(s, key, newestFirst)
    ensures Ordered(r, key, newestFirst)
    ensures multiset(r) == multiset(s) + multiset{x}
  {
    if s == [] then [x]
    else if !Precedes(key(s[0]), key(x), newestFirst) then
      ConsOrdered(x, s, key, newestFirst);
      [x] + s
    else
      var rest := Insert(x, s[1..], key, newestFirst);
      assert s == [s[0]] + s[1..];
      HeadPrecedesInsert(s[0], x, s[1..], rest, key, newestFirst);
      ConsOrdered(s[0], rest, key, newestFirst);
      [s[0]] + rest
  }

  lemma ConsOrdered<T>(h: T, s: seq<T>, key: T -> int, newestFirst: bool)
    requires Ordered(s, key, newestFirst)
    requires forall y :: y in s ==> Precedes(key(h), key(y), newestFirst)
    ensures Ordered([h] + s, key, newestFirst)
  {
    forall i, j | 0 <= i < j < |[h] + s|
      ensures Precedes(key(([h] + s)[i]), key(([h] + s)[j]), newestFirst)
    {
      if i > 0 {
        assert ([h] + s)[i] == s[i - 1] && ([h] + s)[j] == s[j - 1];
      } else {
        assert ([h] + s)[j] in s;
      }
    }
  }

  lemma HeadPrecedesInsert<T>(h: T, x: T, s: seq<T>, rest: seq<T>, key: T -> int, newestFirst: bool)
    requires Ordered([h] + s, key, newestFirst) && Precedes(key(h), key(x), newestFirst)
    requires multiset(rest) == multiset(s) + multiset{x}
    ensures forall y :: y in rest ==> Precedes(key(h), key(y), newestFirst)
  {
    forall y | y in rest ensures Precedes(key(h), key(y), newestFirst) {
      assert y in multiset(rest);
      if y != x {
        assert y in multiset(s);
        var j :| 0 <= j < |s| && s[j] == y;
        assert ([h] + s)[0] == h && ([h] + s)[j + 1] == y;
        assert Precedes(key(([h] + s)[0]), key(([h] + s)[j + 1]), newestFirst);
      }
    }
  }

  /** `[...s].sort((a, b) => ...)`, a stable sort by `key`; newest first or oldest first. */
  function SortBy<T(==,!new)>(s: seq<T>, key: T -> int, newestFirst: bool): (r: seq<T>)
    ensures Ordered(r, key, newestFirst)
    ensures multiset(r) == multiset(s)
    ensures |r| == |s|
    ensures forall x :: x in r <==> x in s
  {
    if s == [] then []
    else
      assert s == s[..|s| - 1] + [s[|s| - 1]];
      var r := Insert(s[|s| - 1], SortBy(s[..|s| - 1], key, newestFirst), key, newestFirst);
      assert |multiset(r)| == |r| && |multiset(s)| == |s|;
      assert forall x :: x in r <==> x in multiset(r);
      r
  }
}
