/** `Array.prototype.filter` and `Array.prototype.sort` as the storefront
    pages use them: a filter that keeps order, and a stable insertion sort
    under a comparator that is a total preorder. */
module Seqs {

  /** The comparator is total and transitive, as every comparator the pages
      pass to `sort` is. */
  ghost predicate TotalPreorder<T(!new)>(le: (T, T) -> bool)
  {
    && (forall a, b :: le(a, b) || le(b, a))
    && (forall a, b, c :: le(a, b) && le(b, c) ==> le(a, c))
  }

  ghost predicate SortedBy<T>(le: (T, T) -> bool, s: seq<T>)
  {
    forall i, j :: 0 <= i < j < |s| ==> le(s[i], s[j])
  }

  /** `s.filter(keep)`. */
  function Filter<T(!new)>(s: seq<T>, keep: T -> bool): (r: seq<T>)
    ensures |r| <= |s|
    ensures forall x :: x in r <==> x in s && keep(x)
  {
    if s == [] then []
    else
      var rest := Filter(s[1..], keep);
      assert s == [s[0]] + s[1..];
      if keep(s[0]) then [s[0]] + rest else rest
  }

  lemma FilterCons<T(!new)>(x: T, s: seq<T>, keep: T -> bool)
    ensures Filter([x] + s, keep) == (if keep(x) then [x] else []) + Filter(s, keep)
  {
    assert ([x] + s)[1..] == s;
  }

  lemma {:induction false} FilterAll<T(!new)>(s: seq<T>, keep: T -> bool)
    requires forall x :: x in s ==> keep(x)
    ensures Filter(s, keep) == s
  {
    if s != [] {
      FilterAll(s[1..], keep);
    }
  }

  lemma {:induction false} FilterNone<T(!new)>(s: seq<T>, keep: T -> bool)
    requires forall x :: x in s ==> !keep(x)
    ensures Filter(s, keep) == []
  {
    if s != [] {
      FilterNone(s[1..], keep);
    }
  }

  lemma {:induction false} FilterAppend<T(!new)>(s: seq<T>, t: seq<T>, keep: T -> bool)
    ensures Filter(s + t, keep) == Filter(s, keep) + Filter(t, keep)
  {
    if s == [] {
      assert s + t == t;
    } else {
      assert (s + t)[1..] == s[1..] + t;
      FilterAppend(s[1..], t, keep);
    }
  }

  /** Filtering out the one element the predicate rejects leaves the rest as
      it was, in order. */
  lemma {:induction false} FilterDropsOne<T(!new)>(a: seq<T>, x: T, b: seq<T>, keep: T -> bool)
    requires !keep(x)
    requires forall y :: y in a + b ==> keep(y)
    ensures Filter(a + [x] + b, keep) == a + b
  {
    if a == [] {
      assert a + [x] + b == [x] + b;
      assert ([x] + b)[1..] == b;
      FilterAll(b, keep);
    } else {
      assert (a + [x] + b)[1..] == a[1..] + [x] + b;
      assert a[0] in a + b;
      forall y | y in a[1..] + b
        ensures keep(y)
      {
        assert y in a + b;
      }
      FilterDropsOne(a[1..], x, b, keep);
      assert a + b == [a[0]] + (a[1..] + b);
    }
  }

  /** Inserts `x` in front of the first element it does not follow, so that
      equal elements keep their relative order. */
  function Insert<T(!new)>(x: T, s: seq<T>, le: (T, T) -> bool): (r: seq<T>)
    requires TotalPreorder(le)
    requires SortedBy(le, s)
    ensures SortedBy(le, r)
    ensures multiset(r) == multiset(s) + multiset{x}
  {
    if s == [] then [x]
    else if le(x, s[0]) then [x] + s
    else
      var rest := Insert(x, s[1..], le);
      assert s == [s[0]] + s[1..];
      assert forall k :: 0 <= k < |rest| ==> le(s[0], rest[k]) by {
        forall k | 0 <= k < |rest|
          ensures le(s[0], rest[k])
        {
          assert rest[k] in multiset(rest);
          if rest[k] != x {
            assert rest[k] in multiset(s[1..]);
            var j :| 0 <= j < |s[1..]| && s[1..][j] == rest[k];
            assert s[j + 1] == rest[k];
          }
        }
      }
      [s[0]] + rest
  }

  /** `[...s].sort(cmp)` for a comparator whose "not after" relation is `le`. */
  function SortBy<T(!new)>(s: seq<T>, le: (T, T) -> bool): (r: seq<T>)
    requires TotalPreorder(le)
    ensures SortedBy(le, r)
    ensures multiset(r) == multiset(s)
    ensures |r| == |s|
  {
    if s == [] then []
    else
      assert s == [s[0]] + s[1..];
      Insert(s[0], SortBy(s[1..], le), le)
  }

  /** The elements `le` ranks level with `z`. */
  function Tied<T>(le: (T, T) -> bool, z: T): T -> bool
  {
    (y: T) => le(z, y) && le(y, z)
  }

  /** `r` lists every group of level elements in the order `s` lists it. */
  ghost predicate StableFor<T(!new)>(le: (T, T) -> bool, r: seq<T>, s: seq<T>)
  {
    forall z :: Filter(r, Tied(le, z)) == Filter(s, Tied(le, z))
  }

  /** Inserting `x` puts it in front of every element level with it, so
      among the elements level with any `z` it comes first. */
  lemma {:induction false} InsertKeepsTies<T(!new)>(x: T, s: seq<T>, le: (T, T) -> bool, z: T)
    requires TotalPreorder(le)
    requires SortedBy(le, s)
    ensures Filter(Insert(x, s, le), Tied(le, z)) == (if Tied(le, z)(x) then [x] else []) + Filter(s, Tied(le, z))
  {
    var tied := Tied(le, z);
    if s == [] {
      FilterCons(x, s, tied);
      assert [x] + s == [x];
    } else if le(x, s[0]) {
      FilterCons(x, s, tied);
    } else {
      assert SortedBy(le, s[1..]) by {
        forall i, j | 0 <= i < j < |s[1..]|
          ensures le(s[1..][i], s[1..][j])
        {
          assert s[1..][i] == s[i + 1] && s[1..][j] == s[j + 1];
        }
      }
      InsertKeepsTies(x, s[1..], le, z);
      FilterCons(s[0], Insert(x, s[1..], le), tied);
      FilterCons(s[0], s[1..], tied);
      assert s == [s[0]] + s[1..];
      assert !(tied(x) && tied(s[0]));
    }
  }

  /** `SortBy` is stable: level elements keep their order. */
  lemma {:induction false} SortByStable<T(!new)>(s: seq<T>, le: (T, T) -> bool)
    requires TotalPreorder(le)
    ensures StableFor(le, SortBy(s, le), s)
  {
    if s != [] {
      SortByStable(s[1..], le);
      forall z
        ensures Filter(SortBy(s, le), Tied(le, z)) == Filter(s, Tied(le, z))
      {
        InsertKeepsTies(s[0], SortBy(s[1..], le), le, z);
        assert s == [s[0]] + s[1..];
        FilterCons(s[0], s[1..], Tied(le, z));
      }
    }
  }

  lemma SortedTail<T>(le: (T, T) -> bool, s: seq<T>)
    requires SortedBy(le, s) && s != []
    ensures SortedBy(le, s[1..])
  {
    forall i, j | 0 <= i < j < |s[1..]|
      ensures le(s[1..][i], s[1..][j])
    {
      assert s[1..][i] == s[i + 1] && s[1..][j] == s[j + 1];
    }
  }

  /** The first elements of two sorted permutations of each other are
      level. */
  lemma SortedHeadsLevel<T(!new)>(a: seq<T>, b: seq<T>, le: (T, T) -> bool)
    requires TotalPreorder(le)
    requires SortedBy(le, a) && SortedBy(le, b)
    requires multiset(a) == multiset(b) && a != [] && b != []
    ensures Tied(le, a[0])(b[0])
  {
    var z := a[0];
    assert le(z, z) || le(z, z);
    assert z in multiset(b);
    var j :| 0 <= j < |b| && b[j] == z;
    assert j == 0 || le(b[0], b[j]);
    assert b[0] in multiset(a);
    var i :| 0 <= i < |a| && a[i] == b[0];
    assert i == 0 || le(a[0], a[i]);
  }

  /** Dropping the same first element keeps the groups of level elements in
      the same order. */
  lemma StableTails<T(!new)>(a: seq<T>, b: seq<T>, le: (T, T) -> bool)
    requires a != [] && b != [] && a[0] == b[0]
    requires StableFor(le, a, b)
    ensures StableFor(le, a[1..], b[1..])
  {
    assert a == [a[0]] + a[1..];
    assert b == [b[0]] + b[1..];
    forall y
      ensures Filter(a[1..], Tied(le, y)) == Filter(b[1..], Tied(le, y))
    {
      FilterCons(a[0], a[1..], Tied(le, y));
      FilterCons(b[0], b[1..], Tied(le, y));
      var head := if Tied(le, y)(a[0]) then [a[0]] else [];
      assert Filter(a, Tied(le, y)) == Filter(b, Tied(le, y));
      assert (head + Filter(a[1..], Tied(le, y)))[|head|..] == Filter(a[1..], Tied(le, y));
      assert (head + Filter(b[1..], Tied(le, y)))[|head|..] == Filter(b[1..], Tied(le, y));
    }
  }

  /** Two sorted permutations of each other that list every group of level
      elements in the same order are the same list. */
  lemma {:induction false} SortedStableUnique<T(!new)>(a: seq<T>, b: seq<T>, le: (T, T) -> bool)
    requires TotalPreorder(le)
    requires SortedBy(le, a) && SortedBy(le, b)
    requires multiset(a) == multiset(b)
    requires StableFor(le, a, b)
    ensures a == b
  {
    assert |a| == |multiset(a)| == |multiset(b)| == |b|;
    if a != [] {
      assert a == [a[0]] + a[1..];
      assert b == [b[0]] + b[1..];
      var z := a[0];
      SortedHeadsLevel(a, b, le);
      FilterCons(a[0], a[1..], Tied(le, z));
      FilterCons(b[0], b[1..], Tied(le, z));
      assert Tied(le, z)(a[0]) by { assert le(z, z) || le(z, z); }
      assert Filter(a, Tied(le, z))[0] == a[0];
      assert Filter(b, Tied(le, z))[0] == b[0];
      assert Filter(a, Tied(le, z)) == Filter(b, Tied(le, z));
      assert a[0] == b[0];
      StableTails(a, b, le);
      assert multiset(a[1..]) == multiset(b[1..]) by {
        assert multiset(a) == multiset([a[0]]) + multiset(a[1..]);
        assert multiset(b) == multiset([b[0]]) + multiset(b[1..]);
        assert multiset(a[1..]) == multiset(a) - multiset([a[0]]);
        assert multiset(b[1..]) == multiset(b) - multiset([b[0]]);
      }
      SortedTail(le, a);
      SortedTail(le, b);
      SortedStableUnique(a[1..], b[1..], le);
    }
  }
}
