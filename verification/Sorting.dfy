/** Stable sorting and duplicate removal, as the services use them:
    list.sort with a key, sorted(set(...)), list(dict.fromkeys(...)). */
module Sorting {

  ghost predicate TotalPreorder<T(!new)>(leq: (T, T) -> bool) {
    && (forall x, y :: leq(x, y) || leq(y, x))
    && (forall x, y, z :: leq(x, y) && leq(y, z) ==> leq(x, z))
  }

  /** No two different elements of xs have the same rank. */
  ghost predicate AntisymmetricOn<T>(leq: (T, T) -> bool, xs: seq<T>) {
    forall i, j | 0 <= i < |xs| && 0 <= j < |xs| :: leq(xs[i], xs[j]) && leq(xs[j], xs[i]) ==> xs[i] == xs[j]
  }

  ghost predicate Sorted<T>(xs: seq<T>, leq: (T, T) -> bool) {
    forall i, j | 0 <= i < j < |xs| :: leq(xs[i], xs[j])
  }

  predicate Distinct<T(==)>(xs: seq<T>) {
    forall i, j | 0 <= i < j < |xs| :: xs[i] != xs[j]
  }

  /** Puts x before the first element it does not exceed, so equals keep their order. */
  function Insert<T>(x: T, xs: seq<T>, leq: (T, T) -> bool): seq<T> {
    if xs == [] || leq(x, xs[0]) then [x] + xs else [xs[0]] + Insert(x, xs[1..], leq)
  }

  function Sort<T>(xs: seq<T>, leq: (T, T) -> bool): seq<T> {
    if xs == [] then [] else Insert(xs[0], Sort(xs[1..], leq), leq)
  }

  lemma {:induction false} InsertPermutes<T>(x: T, xs: seq<T>, leq: (T, T) -> bool)
    ensures multiset(Insert(x, xs, leq)) == multiset{x} + multiset(xs)
  {
    if xs == [] || leq(x, xs[0]) {
    } else {
      InsertPermutes(x, xs[1..], leq);
      assert xs == [xs[0]] + xs[1..];
    }
  }

  lemma {:induction false} SortPermutes<T>(xs: seq<T>, leq: (T, T) -> bool)
    ensures multiset(Sort(xs, leq)) == multiset(xs)
    ensures |Sort(xs, leq)| == |xs|
    ensures forall x :: x in Sort(xs, leq) <==> x in xs
  {
    if xs == [] {
    } else {
      SortPermutes(xs[1..], leq);
      InsertPermutes(xs[0], Sort(xs[1..], leq), leq);
      assert xs == [xs[0]] + xs[1..];
    }
    SameElements(Sort(xs, leq), xs);
  }

  lemma SameElements<T>(xs: seq<T>, ys: seq<T>)
    requires multiset(xs) == multiset(ys)
    ensures |xs| == |ys|
    ensures forall x :: x in xs <==> x in ys
  {
    assert |multiset(xs)| == |xs|;
    forall x ensures x in xs <==> x in ys {
      assert x in xs <==> x in multiset(xs);
      assert x in ys <==> x in multiset(ys);
    }
  }

  /** Sorting with key A a list already sorted by B sorts it by A and, within A, by B. */
  function Lex<T>(a: (T, T) -> bool, b: (T, T) -> bool): (T, T) -> bool {
    (x: T, y: T) => a(x, y) && (a(y, x) ==> b(x, y))
  }

  lemma LexTotal<T(!new)>(a: (T, T) -> bool, b: (T, T) -> bool)
    requires TotalPreorder(a) && TotalPreorder(b)
    ensures TotalPreorder(Lex(a, b))
  {
  }

  lemma {:induction false} InsertKeepsLex<T(!new)>(x: T, zs: seq<T>, a: (T, T) -> bool, b: (T, T) -> bool)
    requires TotalPreorder(a) && TotalPreorder(b)
    requires Sorted(zs, Lex(a, b))
    requires forall y | y in zs :: b(x, y)
    ensures Sorted(Insert(x, zs, a), Lex(a, b))
  {
    LexTotal(a, b);
    if zs == [] {
    } else if a(x, zs[0]) {
      forall j | 0 <= j < |zs| ensures Lex(a, b)(x, zs[j]) {
        assert zs[j] in zs;
        assert a(zs[0], zs[j]) by { if j != 0 { assert Lex(a, b)(zs[0], zs[j]); } }
      }
    } else {
      var rest := Insert(x, zs[1..], a);
      InsertKeepsLex(x, zs[1..], a, b);
      InsertPermutes(x, zs[1..], a);
      forall y | y in rest ensures Lex(a, b)(zs[0], y) {
        assert y in multiset(rest);
        if y != x { assert y in zs[1..]; }
      }
    }
  }

  lemma {:induction false} SortKeepsLex<T(!new)>(xs: seq<T>, a: (T, T) -> bool, b: (T, T) -> bool)
    requires TotalPreorder(a) && TotalPreorder(b)
    requires Sorted(xs, b)
    ensures Sorted(Sort(xs, a), Lex(a, b))
  {
    if xs != [] {
      SortKeepsLex(xs[1..], a, b);
      SortPermutes(xs[1..], a);
      forall y | y in Sort(xs[1..], a) ensures b(xs[0], y) {
        assert y in xs[1..];
      }
      InsertKeepsLex(xs[0], Sort(xs[1..], a), a, b);
    }
  }

  lemma SortSorted<T(!new)>(xs: seq<T>, leq: (T, T) -> bool)
    requires TotalPreorder(leq)
    ensures Sorted(Sort(xs, leq), leq)
  {
    var any := (x: T, y: T) => true;
    SortKeepsLex(xs, leq, any);
    var r := Sort(xs, leq);
    forall i, j | 0 <= i < j < |r| ensures leq(r[i], r[j]) {
      assert Lex(leq, any)(r[i], r[j]);
    }
  }

  lemma HeadsAgree<T>(xs: seq<T>, ys: seq<T>, leq: (T, T) -> bool)
    requires AntisymmetricOn(leq, xs) && Sorted(xs, leq) && Sorted(ys, leq)
    requires xs != [] && ys != [] && ys[0] in xs && xs[0] in ys
    ensures xs[0] == ys[0]
  {
    var i :| 0 <= i < |xs| && xs[i] == ys[0];
    var j :| 0 <= j < |ys| && ys[j] == xs[0];
    if i > 0 && j > 0 {
      assert leq(xs[0], xs[i]) && leq(ys[0], ys[j]);
    }
  }

  /** Elements in rank order are determined by which elements they are. */
  lemma {:induction false} SortedUnique<T>(xs: seq<T>, ys: seq<T>, leq: (T, T) -> bool)
    requires AntisymmetricOn(leq, xs)
    requires Sorted(xs, leq) && Sorted(ys, leq) && multiset(xs) == multiset(ys)
    ensures xs == ys
  {
    SameElements(xs, ys);
    if xs != [] {
      assert ys[0] in xs && xs[0] in ys;
      HeadsAgree(xs, ys, leq);
      TailsAgree(xs, ys);
      SortedUnique(xs[1..], ys[1..], leq);
      assert xs == [xs[0]] + xs[1..] && ys == [ys[0]] + ys[1..];
    }
  }

  lemma TailsAgree<T>(xs: seq<T>, ys: seq<T>)
    requires xs != [] && ys != [] && xs[0] == ys[0] && multiset(xs) == multiset(ys)
    ensures multiset(xs[1..]) == multiset(ys[1..])
  {
    assert xs == [xs[0]] + xs[1..] && ys == [ys[0]] + ys[1..];
    assert multiset(xs[1..]) == multiset(xs) - multiset{xs[0]};
    assert multiset(ys[1..]) == multiset(ys) - multiset{ys[0]};
  }

  lemma AntisymmetricMember<T>(leq: (T, T) -> bool, xs: seq<T>, x: T, y: T)
    requires AntisymmetricOn(leq, xs) && x in xs && y in xs && leq(x, y) && leq(y, x)
    ensures x == y
  {
  }

  lemma AntisymmetricTransfer<T>(leq: (T, T) -> bool, xs: seq<T>, ys: seq<T>)
    requires AntisymmetricOn(leq, xs) && (forall y :: y in ys ==> y in xs)
    ensures AntisymmetricOn(leq, ys)
  {
    forall i, j | 0 <= i < |ys| && 0 <= j < |ys| && leq(ys[i], ys[j]) && leq(ys[j], ys[i])
      ensures ys[i] == ys[j]
    {
      assert ys[i] in ys && ys[j] in ys;
      AntisymmetricMember(leq, xs, ys[i], ys[j]);
    }
  }

  lemma SortIgnoresOrder<T(!new)>(xs: seq<T>, ys: seq<T>, leq: (T, T) -> bool)
    requires TotalPreorder(leq) && AntisymmetricOn(leq, xs)
    requires multiset(xs) == multiset(ys)
    ensures Sort(xs, leq) == Sort(ys, leq)
  {
    SortSorted(xs, leq);
    SortSorted(ys, leq);
    SortPermutes(xs, leq);
    SortPermutes(ys, leq);
    AntisymmetricTransfer(leq, xs, Sort(xs, leq));
    SortedUnique(Sort(xs, leq), Sort(ys, leq), leq);
  }

  /** Two stable passes, least significant key first, are one pass over the pair of keys. */
  lemma StablePasses<T(!new)>(xs: seq<T>, a: (T, T) -> bool, b: (T, T) -> bool)
    requires TotalPreorder(a) && TotalPreorder(b)
    requires AntisymmetricOn(Lex(a, b), xs)
    ensures Sort(Sort(xs, b), a) == Sort(xs, Lex(a, b))
  {
    LexTotal(a, b);
    SortSorted(xs, b);
    SortKeepsLex(Sort(xs, b), a, b);
    SortPermutes(xs, b);
    SortPermutes(Sort(xs, b), a);
    SortPermutes(xs, Lex(a, b));
    SortSorted(xs, Lex(a, b));
    AntisymmetricTransfer(Lex(a, b), xs, Sort(Sort(xs, b), a));
    SortedUnique(Sort(Sort(xs, b), a), Sort(xs, Lex(a, b)), Lex(a, b));
  }

  /** First occurrences, in order. */
  function Unique<T(==, !new)>(xs: seq<T>): (r: seq<T>)
    ensures Distinct(r)
    ensures forall x :: x in r <==> x in xs
  {
    if xs == [] then [] else
      var init := Unique(xs[..|xs| - 1]);
      var last := xs[|xs| - 1];
      assert xs == xs[..|xs| - 1] + [last];
      if last in init then init else init + [last]
  }

  lemma {:induction false} DistinctCount<T>(xs: seq<T>)
    requires Distinct(xs)
    ensures multiset(xs) == multiset(set x | x in xs)
    ensures |xs| == |set x | x in xs|
  {
    if xs != [] {
      var init, last := xs[..|xs| - 1], xs[|xs| - 1];
      DistinctCount(init);
      assert xs == init + [last];
      assert (set x | x in xs) == (set x | x in init) + {last};
      assert last !in init;
    }
  }

  lemma CountOfPair<T>(xs: seq<T>, i: nat, j: nat)
    requires i < j < |xs|
    ensures multiset(xs)[xs[i]] >= if xs[i] == xs[j] then 2 else 1
  {
    assert xs == xs[..i] + [xs[i]] + xs[i + 1..j] + [xs[j]] + xs[j + 1..];
  }

  lemma PermutedDistinct<T>(xs: seq<T>, ys: seq<T>)
    requires Distinct(xs) && multiset(xs) == multiset(ys)
    ensures Distinct(ys)
  {
    DistinctCount(xs);
    forall i, j | 0 <= i < j < |ys| ensures ys[i] != ys[j] { CountOfPair(ys, i, j); }
  }

  /** sorted(set(...)) depends on nothing but the set. */
  lemma SortedSetIsCanonical<T(!new)>(xs: seq<T>, ys: seq<T>, leq: (T, T) -> bool)
    requires TotalPreorder(leq) && AntisymmetricOn(leq, xs)
    requires forall x :: x in xs <==> x in ys
    ensures Sort(Unique(xs), leq) == Sort(Unique(ys), leq)
  {
    DistinctCount(Unique(xs));
    DistinctCount(Unique(ys));
    assert (set x | x in Unique(xs)) == (set x | x in Unique(ys));
    AntisymmetricTransfer(leq, xs, Unique(xs));
    SortIgnoresOrder(Unique(xs), Unique(ys), leq);
  }

  /** A list comprehension over all of xs. */
  function Mapped<A, B>(xs: seq<A>, f: A -> B): (r: seq<B>)
    ensures |r| == |xs| && forall k | 0 <= k < |r| :: r[k] == f(xs[k])
  {
    if xs == [] then [] else Mapped(xs[..|xs| - 1], f) + [f(xs[|xs| - 1])]
  }

  function Filter<T(!new)>(xs: seq<T>, p: T -> bool): (r: seq<T>)
    ensures forall x :: x in r <==> x in xs && p(x)
    ensures |r| <= |xs|
  {
    if xs == [] then [] else
      var init := Filter(xs[..|xs| - 1], p);
      var last := xs[|xs| - 1];
      assert xs == xs[..|xs| - 1] + [last];
      if p(last) then init + [last] else init
  }

  lemma {:induction false} FilterCount<T(!new)>(xs: seq<T>, p: T -> bool, x: T)
    ensures multiset(Filter(xs, p))[x] == if p(x) then multiset(xs)[x] else 0
  {
    if xs != [] {
      FilterCount(xs[..|xs| - 1], p, x);
      assert xs == xs[..|xs| - 1] + [xs[|xs| - 1]];
    }
  }

  lemma FilterIgnoresOrder<T(!new)>(xs: seq<T>, ys: seq<T>, p: T -> bool)
    requires multiset(xs) == multiset(ys)
    ensures multiset(Filter(xs, p)) == multiset(Filter(ys, p))
  {
    forall x ensures multiset(Filter(xs, p))[x] == multiset(Filter(ys, p))[x] {
      FilterCount(xs, p, x);
      FilterCount(ys, p, x);
    }
  }

  lemma {:induction false} FilterDistinct<T(!new)>(xs: seq<T>, p: T -> bool)
    requires Distinct(xs)
    ensures Distinct(Filter(xs, p))
  {
    if xs != [] {
      var init, last := xs[..|xs| - 1], xs[|xs| - 1];
      FilterDistinct(init, p);
      assert forall i | 0 <= i < |init| :: init[i] == xs[i] && xs[i] != xs[|xs| - 1];
      assert last !in Filter(init, p);
    }
  }

  lemma {:induction false} FilterKeepsOrder<T(!new)>(xs: seq<T>, p: T -> bool, leq: (T, T) -> bool)
    requires Sorted(xs, leq)
    ensures Sorted(Filter(xs, p), leq)
  {
    if xs != [] {
      var init, last := xs[..|xs| - 1], xs[|xs| - 1];
      FilterKeepsOrder(init, p, leq);
      forall y | y in Filter(init, p) ensures leq(y, last) {
        assert y in init;
      }
    }
  }

  function Take<T>(xs: seq<T>, n: int): seq<T> { if n <= 0 then [] else if |xs| <= n then xs else xs[..n] }

  /** `top` are the n best of xs: none left out ranks before any of them. */
  ghost predicate IsTop<T(!new)>(top: seq<T>, xs: seq<T>, leq: (T, T) -> bool, n: nat) {
    && |top| == (if |xs| < n then |xs| else n) && Sorted(top, leq)
    && (forall x | x in top :: x in xs)
    && (forall kept, left | kept in top && left in xs && left !in top :: leq(kept, left))
  }

  /** Sorting and cutting keeps the best. */
  lemma CutIsTop<T(!new)>(xs: seq<T>, leq: (T, T) -> bool, n: nat)
    requires TotalPreorder(leq)
    ensures IsTop(Take(Sort(xs, leq), n), xs, leq, n)
  {
    hide *;
    SortSorted(xs, leq);
    SortPermutes(xs, leq);
    PrefixIsTop(xs, Sort(xs, leq), leq, n);
  }

  lemma PrefixIsTop<T(!new)>(xs: seq<T>, sorted: seq<T>, leq: (T, T) -> bool, n: nat)
    requires Sorted(sorted, leq) && |sorted| == |xs| && forall x :: x in sorted <==> x in xs
    ensures IsTop(Take(sorted, n), xs, leq, n)
  {
    var top := Take(sorted, n);
    var rest := sorted[|top|..];
    assert sorted == top + rest;
    forall kept, left | kept in top && left in xs && left !in top ensures leq(kept, left) {
      var i :| 0 <= i < |top| && top[i] == kept;
      assert left in sorted && left in rest;
      var j :| 0 <= j < |rest| && rest[j] == left;
      assert sorted[i] == kept && sorted[|top| + j] == left;
    }
  }

  /** Lexicographic order of strings by code point. */
  predicate StringLeq(a: string, b: string) {
    a == [] || (b != [] && (a[0] < b[0] || (a[0] == b[0] && StringLeq(a[1..], b[1..]))))
  }

  lemma {:induction false} StringLeqTotal(a: string, b: string)
    ensures StringLeq(a, b) || StringLeq(b, a)
    ensures StringLeq(a, b) && StringLeq(b, a) ==> a == b
  {
    if a != [] && b != [] && a[0] == b[0] {
      StringLeqTotal(a[1..], b[1..]);
      assert a == [a[0]] + a[1..] && b == [b[0]] + b[1..];
    }
  }

  lemma {:induction false} StringLeqTransitive(a: string, b: string, c: string)
    requires StringLeq(a, b) && StringLeq(b, c)
    ensures StringLeq(a, c)
  {
    if a != [] && a[0] == b[0] && b[0] == c[0] {
      StringLeqTransitive(a[1..], b[1..], c[1..]);
    }
  }

  /** Orders values by a string key. */
  function ByString<T>(key: T -> string): (T, T) -> bool {
    (x: T, y: T) => StringLeq(key(x), key(y))
  }

  lemma ByStringTotal<T(!new)>(key: T -> string)
    ensures TotalPreorder(ByString(key))
    ensures forall x, y :: ByString(key)(x, y) && ByString(key)(y, x) ==> key(x) == key(y)
  {
    var leq := ByString(key);
    forall x, y ensures (leq(x, y) || leq(y, x)) && (leq(x, y) && leq(y, x) ==> key(x) == key(y)) {
      StringLeqTotal(key(x), key(y));
    }
    forall x, y, z | leq(x, y) && leq(y, z) ensures leq(x, z) {
      StringLeqTransitive(key(x), key(y), key(z));
    }
  }

  /** Orders values by a number, smallest first. */
  function ByNumber<T>(key: T -> real): (T, T) -> bool {
    (x: T, y: T) => key(x) <= key(y)
  }

  /** The opposite order (reverse=True). */
  function Reverse<T>(leq: (T, T) -> bool): (T, T) -> bool {
    (x: T, y: T) => leq(y, x)
  }
}
