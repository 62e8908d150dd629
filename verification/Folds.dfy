/** Checked running totals: the loops `total, err = money.Add(total, x)` found all over the pipeline. */
module Folds {
  import opened Outcome
  import opened Money
  import opened Sequences

  function CheckedFold(acc: int64, xs: seq<int64>): Result<int64, MoneyError>
    decreases |xs|
  {
    if xs == [] then Ok(acc)
    else
      var v :- Add(acc, xs[0]);
      CheckedFold(v, xs[1..])
  }


  function Identity(): int64 -> int {
    (x: int64) => x as int
  }

  /** The positive and the negative part of a weight: the most and the least that any part of a sum reaches. */
  function Up<T>(w: T -> int): T -> int {
    (x: T) => if w(x) > 0 then w(x) else 0
  }

  function Down<T>(w: T -> int): T -> int {
    (x: T) => if w(x) < 0 then w(x) else 0
  }

  function Positive(): int64 -> int {
    Up<int64>(Identity())
  }

  function Negative(): int64 -> int {
    Down<int64>(Identity())
  }

  /** No prefix of the running total, started at `acc`, leaves 64 bits. */
  predicate PrefixesFit(acc: int, xs: seq<int64>) {
    forall k | 0 <= k <= |xs| :: InInt64(acc + Sum(Identity(), xs[..k]))
  }

  /** A fold succeeds exactly when every prefix fits, and then it is the exact sum. */
  lemma {:induction false} FoldExact(acc: int64, xs: seq<int64>)
    ensures CheckedFold(acc, xs).Ok? <==> PrefixesFit(acc, xs)
    ensures CheckedFold(acc, xs).Ok? ==> CheckedFold(acc, xs).value == acc + Sum(Identity(), xs)
    decreases |xs|
  {
    if xs == [] {
    } else {
      var x, rest := xs[0], xs[1..];
      forall k | 0 <= k <= |rest|
        ensures Sum(Identity(), xs[..k + 1]) == x + Sum(Identity(), rest[..k])
      {
        assert xs[..k + 1][1..] == rest[..k];
      }
      assert xs[..1] == [x];
      if InInt64(acc + x) {
        FoldExact(acc + x, rest);
        assert PrefixesFit(acc + x, rest) ==> PrefixesFit(acc, xs) by {
          forall k | PrefixesFit(acc + x, rest) && 0 <= k <= |xs|
            ensures InInt64(acc + Sum(Identity(), xs[..k]))
          {
            if k > 0 {
              assert InInt64(acc + x + Sum(Identity(), rest[..k - 1]));
            }
          }
        }
        assert PrefixesFit(acc, xs) ==> PrefixesFit(acc + x, rest) by {
          forall k | PrefixesFit(acc, xs) && 0 <= k <= |rest|
            ensures InInt64(acc + x + Sum(Identity(), rest[..k]))
          {
            assert InInt64(acc + Sum(Identity(), xs[..k + 1]));
          }
        }
      } else {
        assert Sum(Identity(), xs[..1]) == x + Sum(Identity(), rest[..0]);
        assert !InInt64(acc + Sum(Identity(), xs[..1]));
      }
    }
  }

  /** Two successful orders of summation agree. */
  lemma FoldOrderAgrees(xs: seq<int64>, ys: seq<int64>)
    requires multiset(xs) == multiset(ys)
    requires CheckedFold(0, xs).Ok? && CheckedFold(0, ys).Ok?
    ensures CheckedFold(0, xs) == CheckedFold(0, ys)
  {
    FoldExact(0, xs);
    FoldExact(0, ys);
    SumPermutation(Identity(), xs, ys);
  }

  lemma {:induction false} PartsBound<T>(w: T -> int, s: seq<T>)
    ensures Sum(Down(w), s) <= 0 <= Sum(Up(w), s) && Sum(Down(w), s) <= Sum(w, s) <= Sum(Up(w), s)
  {
    if s != [] {
      PartsBound(w, s[1..]);
    }
  }

  /** Any prefix weighs between the negative and the positive part of the whole. */
  lemma PrefixBetween<T>(w: T -> int, a: seq<T>, b: seq<T>)
    ensures Sum(Down(w), a + b) <= Sum(w, a) <= Sum(Up(w), a + b)
  {
    SumConcat(Up(w), a, b);
    SumConcat(Down(w), a, b);
    PartsBound(w, a);
    PartsBound(w, b);
  }

  /** Weighing the elements of a part is weighing all with the weights of the others set to zero. */
  lemma {:induction false} SumOfPart<T(!new)>(p: T -> bool, w: T -> int, v: T -> int, s: seq<T>)
    requires forall x | x in s :: v(x) == if p(x) then w(x) else 0
    ensures Sum(w, Filter(p, s)) == Sum(v, s)
  {
    if s != [] {
      SumOfPart(p, w, v, s[1..]);
      assert ([s[0]] + Filter(p, s[1..]))[1..] == Filter(p, s[1..]);
    }
  }

  ghost predicate EveryOrderSucceeds(xs: seq<int64>) {
    forall ys: seq<int64> | multiset(ys) == multiset(xs) :: CheckedFold(0, ys).Ok?
  }

  /** Every order of summation succeeds exactly when the positive amounts alone and the negative amounts
      alone each fit. */
  lemma EveryOrderSucceedsIff(xs: seq<int64>)
    ensures EveryOrderSucceeds(xs) <==> InInt64(Sum(Positive(), xs)) && InInt64(Sum(Negative(), xs))
  {
    if InInt64(Sum(Positive(), xs)) && InInt64(Sum(Negative(), xs)) {
      forall ys: seq<int64> | multiset(ys) == multiset(xs)
        ensures CheckedFold(0, ys).Ok?
      {
        SumPermutation(Positive(), ys, xs);
        SumPermutation(Negative(), ys, xs);
        forall k | 0 <= k <= |ys|
          ensures InInt64(Sum(Identity(), ys[..k]))
        {
          PrefixBetween(Identity(), ys[..k], ys[k..]);
          assert ys[..k] + ys[k..] == ys;
        }
        FoldExact(0, ys);
      }
    }
    if EveryOrderSucceeds(xs) {
      ExtremeFirst((x: int64) => x > 0, (x: int64) => x <= 0, Positive(), xs);
      ExtremeFirst((x: int64) => x < 0, (x: int64) => x >= 0, Negative(), xs);
    }
  }

  /** If the order that puts one part first succeeds, the total of that part fits. */
  lemma ExtremeFirst(p: int64 -> bool, q: int64 -> bool, v: int64 -> int, xs: seq<int64>)
    requires forall x: int64 :: p(x) == !q(x)
    requires forall x: int64 :: v(x) == if p(x) then x as int else 0
    requires EveryOrderSucceeds(xs)
    ensures InInt64(Sum(v, xs))
  {
    var a, b := Filter(p, xs), Filter(q, xs);
    PartsRearrange(p, q, xs);
    assert CheckedFold(0, a + b).Ok?;
    FoldExact(0, a + b);
    assert (a + b)[..|a|] == a;
    SumOfPart(p, Identity(), v, xs);
  }

  /** Folding on. */
  lemma {:induction false} FoldConcat(acc: int64, xs: seq<int64>, ys: seq<int64>)
    ensures CheckedFold(acc, xs + ys) ==
      match CheckedFold(acc, xs) case Err(e) => Err(e) case Ok(v) => CheckedFold(v, ys)
    decreases |xs|
  {
    if xs == [] {
      assert xs + ys == ys;
    } else {
      assert (xs + ys)[1..] == xs[1..] + ys;
      if Add(acc, xs[0]).Ok? {
        FoldConcat(Add(acc, xs[0]).value, xs[1..], ys);
      }
    }
  }
}
