/** Filtering, mapping and summing sequences, and ordered permutations: what the sort package promises,
    and when that determines the result. Sums are exact; those of the program are checked and may fail.
    Sorting is stable, and its result is pinned down where the order tells the elements apart, which is
    what makes the order of a Go map invisible. */
module Sequences {
  import opened Text

  lemma ConcatAssociative<T>(a: seq<T>, b: seq<T>, c: seq<T>)
    ensures (a + b) + c == a + (b + c)
  {
  }

  lemma SameHeadAndTail<T>(s: seq<T>, t: seq<T>)
    requires s != [] && t != [] && s[0] == t[0] && s[1..] == t[1..]
    ensures s == t
  {
    assert s == [s[0]] + s[1..] && t == [t[0]] + t[1..];
  }

  function Filter<T(!new)>(p: T -> bool, s: seq<T>): (r: seq<T>)
    ensures forall x :: x in r <==> x in s && p(x)
  {
    if s == [] then []
    else
      assert s == [s[0]] + s[1..];
      if p(s[0]) then [s[0]] + Filter(p, s[1..]) else Filter(p, s[1..])
  }

  lemma {:induction false} FilterConcat<T(!new)>(p: T -> bool, a: seq<T>, b: seq<T>)
    ensures Filter(p, a + b) == Filter(p, a) + Filter(p, b)
  {
    if a == [] {
      assert a + b == b;
    } else {
      FilterConcat(p, a[1..], b);
      assert (a + b)[1..] == a[1..] + b;
    }
  }

  lemma FilterSnoc<T(!new)>(p: T -> bool, s: seq<T>, x: T)
    ensures Filter(p, s + [x]) == Filter(p, s) + (if p(x) then [x] else [])
  {
    FilterConcat(p, s, [x]);
    assert [x][1..] == [];
  }

  /** Filtering twice is filtering once by the conjunction. */
  lemma {:induction false} FilterFilter<T(!new)>(p: T -> bool, q: T -> bool, both: T -> bool, s: seq<T>)
    requires forall x | x in s :: both(x) <==> p(x) && q(x)
    ensures Filter(p, Filter(q, s)) == Filter(both, s)
  {
    if s != [] {
      FilterFilter(p, q, both, s[1..]);
      assert ([s[0]] + Filter(q, s[1..]))[1..] == Filter(q, s[1..]);
    }
  }

  lemma {:induction false} FilterAgree<T(!new)>(p: T -> bool, q: T -> bool, s: seq<T>)
    requires forall x | x in s :: p(x) == q(x)
    ensures Filter(p, s) == Filter(q, s)
  {
    if s != [] {
      FilterAgree(p, q, s[1..]);
    }
  }

  lemma {:induction false} FilterAll<T(!new)>(p: T -> bool, s: seq<T>)
    requires forall x | x in s :: p(x)
    ensures Filter(p, s) == s
  {
    if s != [] {
      FilterAll(p, s[1..]);
    }
  }

  lemma FilterNone<T(!new)>(p: T -> bool, s: seq<T>)
    requires forall x | x in s :: !p(x)
    ensures Filter(p, s) == []
  {
    if Filter(p, s) != [] {
      assert Filter(p, s)[0] in Filter(p, s);
    }
  }

  function Map<T, U>(f: T -> U, s: seq<T>): (r: seq<U>)
    ensures |r| == |s|
    ensures forall i | 0 <= i < |s| :: r[i] == f(s[i])
  {
    seq(|s|, i requires 0 <= i < |s| => f(s[i]))
  }

  lemma MapTail<T, U>(f: T -> U, s: seq<T>)
    requires s != []
    ensures Map(f, s) == [f(s[0])] + Map(f, s[1..]) && Map(f, s)[1..] == Map(f, s[1..])
  {
  }

  lemma MapMap<T, U, V>(g: U -> V, f: T -> U, h: T -> V, s: seq<T>)
    requires forall x | x in s :: g(f(x)) == h(x)
    ensures Map(g, Map(f, s)) == Map(h, s)
  {
  }

  // ----- Exact sums

  function Sum<T>(w: T -> int, s: seq<T>): int {
    if s == [] then 0 else w(s[0]) + Sum(w, s[1..])
  }

  lemma {:induction false} SumConcat<T>(w: T -> int, a: seq<T>, b: seq<T>)
    ensures Sum(w, a + b) == Sum(w, a) + Sum(w, b)
  {
    if a == [] {
      assert a + b == b;
    } else {
      SumConcat(w, a[1..], b);
      assert (a + b)[1..] == a[1..] + b;
    }
  }

  lemma SumSnoc<T>(w: T -> int, s: seq<T>, x: T)
    ensures Sum(w, s + [x]) == Sum(w, s) + w(x)
  {
    SumConcat(w, s, [x]);
    assert [x][1..] == [];
  }

  lemma {:induction false} SumAgree<T>(v: T -> int, w: T -> int, s: seq<T>)
    requires forall x | x in s :: v(x) == w(x)
    ensures Sum(v, s) == Sum(w, s)
  {
    if s != [] {
      SumAgree(v, w, s[1..]);
    }
  }

  lemma {:induction false} SumAdd<T>(u: T -> int, v: T -> int, w: T -> int, s: seq<T>)
    requires forall x | x in s :: u(x) == v(x) + w(x)
    ensures Sum(u, s) == Sum(v, s) + Sum(w, s)
  {
    if s != [] {
      SumAdd(u, v, w, s[1..]);
    }
  }

  lemma {:induction false} SumZero<T>(w: T -> int, s: seq<T>)
    requires forall x | x in s :: w(x) == 0
    ensures Sum(w, s) == 0
  {
    if s != [] {
      SumZero(w, s[1..]);
    }
  }

  /** The two parts of `t` around an occurrence of the head of a rearrangement of it. */
  lemma RemoveOne<T>(s: seq<T>, t: seq<T>) returns (before: seq<T>, after: seq<T>)
    requires s != [] && multiset(s) == multiset(t)
    ensures t == before + ([s[0]] + after)
    ensures multiset(before + after) == multiset(s[1..])
  {
    assert s == [s[0]] + s[1..];
    assert s[0] in multiset(t);
    var k :| 0 <= k < |t| && t[k] == s[0];
    before, after := t[..k], t[k + 1..];
    assert t == before + ([s[0]] + after);
    assert multiset(before + after) == multiset(t) - multiset{s[0]};
    assert multiset(s[1..]) == multiset(s) - multiset{s[0]};
  }

  /** A sum depends only on the multiset of what is summed. */
  lemma {:induction false} SumPermutation<T>(w: T -> int, s: seq<T>, t: seq<T>)
    requires multiset(s) == multiset(t)
    ensures Sum(w, s) == Sum(w, t)
  {
    if s == [] {
      assert |multiset(t)| == 0;
    } else {
      var before, after := RemoveOne(s, t);
      SumPermutation(w, s[1..], before + after);
      SumConcat(w, before, [s[0]] + after);
      SumConcat(w, before, after);
      assert ([s[0]] + after)[1..] == after;
    }
  }

  lemma {:induction false} CountDistinct<T>(s: seq<T>, x: T)
    requires forall i, j | 0 <= i < j < |s| :: s[i] != s[j]
    ensures multiset(s)[x] == if x in s then 1 else 0
  {
    if s != [] {
      CountDistinct(s[1..], x);
      assert s == [s[0]] + s[1..];
    }
  }

  lemma CountedTwice<T>(s: seq<T>, i: nat, j: nat)
    requires i < j < |s|
    ensures s[i] == s[j] ==> multiset(s)[s[i]] >= 2
  {
    assert s == s[..i] + [s[i]] + s[i + 1..j] + [s[j]] + s[j + 1..];
  }

  /** Filtering commutes with rearranging, as far as multisets go. */
  lemma {:induction false} FilterMultiset<T(!new)>(p: T -> bool, s: seq<T>, x: T)
    ensures multiset(Filter(p, s))[x] == if p(x) then multiset(s)[x] else 0
  {
    if s != [] {
      FilterMultiset(p, s[1..], x);
      assert s == [s[0]] + s[1..];
    }
  }

  lemma FilterPermutation<T(!new)>(p: T -> bool, s: seq<T>, t: seq<T>)
    requires multiset(s) == multiset(t)
    ensures multiset(Filter(p, s)) == multiset(Filter(p, t))
  {
    forall x
      ensures multiset(Filter(p, s))[x] == multiset(Filter(p, t))[x]
    {
      FilterMultiset(p, s, x);
      FilterMultiset(p, t, x);
    }
  }

  lemma MapConcat<T, U>(f: T -> U, a: seq<T>, b: seq<T>)
    ensures Map(f, a + b) == Map(f, a) + Map(f, b)
  {
  }

  lemma {:induction false} MapMultiset<T, U>(f: T -> U, s: seq<T>, t: seq<T>)
    requires multiset(s) == multiset(t)
    ensures multiset(Map(f, s)) == multiset(Map(f, t))
  {
    if s == [] {
      assert |multiset(t)| == 0;
      assert t == [];
    } else {
      var x := s[0];
      var before, after := RemoveOne(s, t);
      MapMultiset(f, s[1..], before + after);
      assert s == [x] + s[1..];
      MapConcat(f, [x], s[1..]);
      MapConcat(f, before, [x] + after);
      MapConcat(f, [x], after);
      MapConcat(f, before, after);
    }
  }

  lemma {:induction false} FilterMap<T(!new), U(!new)>(p: U -> bool, q: T -> bool, f: T -> U, s: seq<T>)
    requires forall x | x in s :: p(f(x)) == q(x)
    ensures Filter(p, Map(f, s)) == Map(f, Filter(q, s))
  {
    if s != [] {
      var x, rest := s[0], s[1..];
      assert forall y | y in rest :: y in s;
      FilterMap(p, q, f, rest);
      MapTail(f, s);
      FilterConcat(p, [f(x)], Map(f, rest));
      FilterOne(p, f(x));
      FilterConcat(q, [x], rest);
      FilterOne(q, x);
      assert [x] + rest == s && x in s;
      MapConcat(f, if q(x) then [x] else [], Filter(q, rest));
    }
  }

  lemma FilterOne<T(!new)>(p: T -> bool, x: T)
    ensures Filter(p, [x]) == if p(x) then [x] else []
  {
    assert [x][1..] == [];
  }

  /** Putting one part of a sequence first rearranges it. */
  lemma PartsRearrange<T(!new)>(p: T -> bool, q: T -> bool, s: seq<T>)
    requires forall x :: p(x) == !q(x)
    ensures multiset(Filter(p, s) + Filter(q, s)) == multiset(s)
  {
    forall x
      ensures multiset(Filter(p, s) + Filter(q, s))[x] == multiset(s)[x]
    {
      FilterMultiset(p, s, x);
      FilterMultiset(q, s, x);
    }
  }

  lemma DropMiddle<T>(s: seq<T>, t: seq<T>, before: seq<T>, after: seq<T>)
    requires s != [] && multiset(s) == multiset(t) && t == before + [s[0]] + after
    ensures multiset(s[1..]) == multiset(before + after)
  {
    assert s == [s[0]] + s[1..];
    forall x
      ensures multiset(s[1..])[x] == multiset(before + after)[x]
    {
      assert multiset(s)[x] == multiset([s[0]])[x] + multiset(s[1..])[x];
      assert multiset(t)[x] == multiset(before)[x] + multiset([s[0]])[x] + multiset(after)[x];
    }
  }

  /** An element whose image comes first in a rearrangement of the images, and what is left without it. */
  lemma TakeImage<T, U>(f: T -> U, s: seq<T>, ys: seq<U>) returns (x: T, rest: seq<T>)
    requires ys != [] && multiset(ys) == multiset(Map(f, s))
    ensures f(x) == ys[0] && multiset([x] + rest) == multiset(s)
    ensures multiset(ys[1..]) == multiset(Map(f, rest))
  {
    assert ys[0] in multiset(ys);
    assert ys[0] in Map(f, s);
    var i :| 0 <= i < |s| && f(s[i]) == ys[0];
    x, rest := s[i], s[..i] + s[i + 1..];
    assert s == s[..i] + [s[i]] + s[i + 1..];
    MapConcat(f, s[..i], s[i + 1..]);
    assert Map(f, s) == Map(f, s[..i]) + [ys[0]] + Map(f, s[i + 1..]);
    DropMiddle(ys, Map(f, s), Map(f, s[..i]), Map(f, s[i + 1..]));
  }

  /** A rearrangement of the images is the image of a rearrangement. */
  lemma {:induction false} RearrangeMap<T, U>(f: T -> U, s: seq<T>, ys: seq<U>) returns (t: seq<T>)
    requires multiset(ys) == multiset(Map(f, s))
    ensures multiset(t) == multiset(s) && Map(f, t) == ys
    decreases |ys|
  {
    if ys == [] {
      assert |multiset(Map(f, s))| == 0;
      assert Map(f, s) == [];
      t := [];
    } else {
      var x, rest := TakeImage(f, s, ys);
      var more := RearrangeMap(f, rest, ys[1..]);
      t := [x] + more;
      assert multiset(t) == multiset{x} + multiset(more) == multiset([x] + rest);
      assert Map(f, t) == [f(x)] + Map(f, more) == ys;
    }
  }

  /** `less` orders T as a strict weak order: what a comparison function handed to sort must be. */
  ghost predicate StrictWeakOrder<T(!new)>(less: (T, T) -> bool) {
    && (forall x :: !less(x, x))
    && (forall x, y, z :: less(x, y) && less(y, z) ==> less(x, z))
    && (forall x, y, z :: !less(x, y) && !less(y, z) ==> !less(x, z))
  }

  ghost predicate TotalOrder<T(!new)>(less: (T, T) -> bool) {
    && (forall x :: !less(x, x))
    && (forall x, y :: less(x, y) || x == y || less(y, x))
    && (forall x, y, z :: less(x, y) && less(y, z) ==> less(x, z))
  }

  lemma TotalIsWeak<T(!new)>(less: (T, T) -> bool)
    requires TotalOrder(less)
    ensures StrictWeakOrder(less)
    ensures forall x, y | !less(x, y) && !less(y, x) :: x == y
  {
    forall x, y, z | !less(x, y) && !less(y, z)
      ensures !less(x, z)
    {
      assert less(y, x) || x == y;
      assert less(z, y) || y == z;
    }
  }

  lemma ByteOrderTotal()
    ensures TotalOrder(Less)
  {
    forall a
      ensures !Less(a, a)
    {
      LessIrreflexive(a);
    }
    forall a, b
      ensures Less(a, b) || a == b || Less(b, a)
    {
      LessTotal(a, b);
    }
    forall a, b, c | Less(a, b) && Less(b, c)
      ensures Less(a, c)
    {
      LessTransitive(a, b, c);
    }
  }

  predicate SortedBy<T>(s: seq<T>, less: (T, T) -> bool) {
    forall i, j | 0 <= i < j < |s| :: !less(s[j], s[i])
  }

  ghost predicate IsSortOf<T>(s: seq<T>, original: seq<T>, less: (T, T) -> bool) {
    multiset(s) == multiset(original) && SortedBy(s, less)
  }

  lemma {:induction false} FilterSorted<T(!new)>(p: T -> bool, s: seq<T>, less: (T, T) -> bool)
    requires SortedBy(s, less)
    ensures SortedBy(Filter(p, s), less)
  {
    if s != [] {
      assert SortedBy(s[1..], less);
      FilterSorted(p, s[1..], less);
      var rest := Filter(p, s[1..]);
      forall y | y in rest
        ensures !less(y, s[0])
      {
        var i :| 0 <= i < |s[1..]| && s[1..][i] == y;
        assert s[i + 1] == y;
      }
    }
  }

  /** Elements the order does not tell apart are equal. */
  ghost predicate Separates<T>(s: seq<T>, less: (T, T) -> bool) {
    forall x, y | x in s && y in s && !less(x, y) && !less(y, x) :: x == y
  }

  /** Where `x` goes in a sorted sequence: after everything that is not greater. */
  function Insert<T>(x: T, s: seq<T>, less: (T, T) -> bool): (r: seq<T>)
    ensures multiset(r) == multiset(s) + multiset{x}
  {
    if s == [] || less(x, s[0]) then [x] + s
    else
      assert s == [s[0]] + s[1..];
      [s[0]] + Insert(x, s[1..], less)
  }

  /** Insertion sort; elements that compare equal keep their order, as under sort.SliceStable. */
  function Sort<T>(s: seq<T>, less: (T, T) -> bool): (r: seq<T>)
    ensures multiset(r) == multiset(s)
  {
    if s == [] then []
    else
      assert s == s[..|s| - 1] + [s[|s| - 1]];
      Insert(s[|s| - 1], Sort(s[..|s| - 1], less), less)
  }

  lemma {:induction false} InsertSorted<T(!new)>(x: T, s: seq<T>, less: (T, T) -> bool)
    requires StrictWeakOrder(less) && SortedBy(s, less)
    ensures SortedBy(Insert(x, s, less), less)
  {
    var r := Insert(x, s, less);
    if s != [] && !less(x, s[0]) {
      InsertSorted(x, s[1..], less);
      var t := Insert(x, s[1..], less);
      forall y | y in t
        ensures !less(y, s[0])
      {
        assert y in multiset(t);
        if y != x {
          assert y in multiset(s[1..]);
          assert y in s[1..];
        }
      }
    }
  }

  lemma {:induction false} SortSorts<T(!new)>(s: seq<T>, less: (T, T) -> bool)
    requires StrictWeakOrder(less)
    ensures IsSortOf(Sort(s, less), s, less)
  {
    if s != [] {
      SortSorts(s[..|s| - 1], less);
      InsertSorted(s[|s| - 1], Sort(s[..|s| - 1], less), less);
    }
  }

  /** Two sorted arrangements of the same elements are the same sequence when the order separates them. */
  lemma {:induction false} SortedUnique<T(!new)>(s: seq<T>, t: seq<T>, less: (T, T) -> bool)
    requires multiset(s) == multiset(t)
    requires SortedBy(s, less) && SortedBy(t, less)
    requires Separates(s, less)
    ensures s == t
  {
    if s == [] {
      assert |multiset(t)| == 0;
    } else {
      SameHead(s, t, less);
      TailSorted(s, less);
      TailSorted(t, less);
      SortedUnique(s[1..], t[1..], less);
      SameHeadAndTail(s, t);
    }
  }

  lemma TailSorted<T(!new)>(s: seq<T>, less: (T, T) -> bool)
    requires s != [] && SortedBy(s, less)
    ensures SortedBy(s[1..], less)
    ensures Separates(s, less) ==> Separates(s[1..], less)
    ensures multiset(s[1..]) == multiset(s) - multiset{s[0]}
  {
    assert s == [s[0]] + s[1..];
  }

  lemma SameHead<T(!new)>(s: seq<T>, t: seq<T>, less: (T, T) -> bool)
    requires s != [] && multiset(s) == multiset(t)
    requires SortedBy(s, less) && SortedBy(t, less)
    requires Separates(s, less)
    ensures t != [] && s[0] == t[0]
  {
    assert |multiset(s)| == |multiset(t)|;
    assert s[0] in multiset(t) && t[0] in multiset(s);
    assert s[0] in t && t[0] in s;
    assert !less(s[0], t[0]) || s[0] == t[0];
  }

  /** Sorting forgets the order of its input when the order separates the elements. */
  lemma SortPermutation<T(!new)>(s: seq<T>, t: seq<T>, less: (T, T) -> bool)
    requires StrictWeakOrder(less)
    requires multiset(s) == multiset(t) && Separates(s, less)
    ensures Sort(s, less) == Sort(t, less)
  {
    SortSorts(s, less);
    SortSorts(t, less);
    forall x | x in Sort(s, less)
      ensures x in s
    {
      assert x in multiset(Sort(s, less));
    }
    SortedUnique(Sort(s, less), Sort(t, less), less);
  }
}
