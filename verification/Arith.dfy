/** Decimal arithmetic of the settlement code on scaled integers.

    Money is an integer count of 10^-8 units.  Order rates are hundredths of a
    percent.  Reward rates are integers over a common positive scale. */
module Arith {

  datatype Option<+T> = None | Some(value: T)

  function Min(a: int, b: int): int { if a < b then a else b }

  function Max(a: int, b: int): int { if a > b then a else b }

  /** decimal.Round: to the nearest integer, halves away from zero. */
  function RoundDiv(n: int, d: int): (r: int)
    requires d > 0
    ensures -d <= 2 * n - 2 * (d * r) <= d
    ensures n >= 0 ==> r >= 0
    ensures n <= 0 ==> r <= 0
  {
    if n >= 0 then RoundUp(n, d) else -RoundUp(-n, d)
  }

  /** Nearest integer of a nonnegative quotient, halves up. */
  function RoundUp(n: int, d: int): (r: int)
    requires d > 0 && n >= 0
    ensures 2 * n - d < 2 * (d * r) <= 2 * n + d
    ensures r >= 0
  {
    var q := (2 * n + d) / (2 * d);
    assert 2 * n + d == (2 * d) * q + (2 * n + d) % (2 * d);
    assert (2 * d) * q == 2 * (d * q);
    q
  }

  /** Nothing to round: the quotient itself. */
  lemma RoundDivExact(r: int, d: int)
    requires d > 0
    ensures RoundDiv(d * r, d) == r
  {
    var x := RoundDiv(d * r, d);
    assert d * r - d * x == d * (r - x);
    Multiple(d, r - x);
  }

  lemma Multiple(d: int, k: int)
    requires d > 0
    ensures k >= 1 ==> d * k >= d
    ensures k <= -1 ==> d * k <= -d
  {
    assert k >= 1 ==> d * (k - 1) >= 0;
    assert k <= -1 ==> d * (k + 1) <= 0;
  }

  /** Rounding is monotone, so a larger rate never pays less. */
  lemma RoundDivMonotone(a: int, b: int, d: int)
    requires d > 0 && a <= b
    ensures RoundDiv(a, d) <= RoundDiv(b, d)
  {
    if a >= 0 {
      RoundUpMonotone(a, b, d);
    } else if b < 0 {
      RoundUpMonotone(-b, -a, d);
    }
  }

  lemma RoundUpMonotone(a: int, b: int, d: int)
    requires d > 0 && 0 <= a <= b
    ensures RoundUp(a, d) <= RoundUp(b, d)
  {
    ProductStep(d, RoundUp(b, d), RoundUp(a, d));
  }

  lemma ProductStep(d: int, y: int, x: int)
    requires d > 0
    ensures y < x ==> d * y + d <= d * x
  {
    if y < x {
      assert d * (x - y - 1) >= 0;
    }
  }
}

/** Finite sums over listed ids. */
module Sums {

  ghost predicate Distinct<T>(s: seq<T>)
  {
    forall i, j :: 0 <= i < j < |s| ==> s[i] != s[j]
  }

  ghost predicate Ascending(s: seq<int>)
  {
    forall i, j :: 0 <= i < j < |s| ==> s[i] < s[j]
  }

  function Sum(xs: seq<nat>, f: nat -> int): int
  {
    if xs == [] then 0 else f(xs[0]) + Sum(xs[1..], f)
  }

  lemma {:induction false} SumAppend(xs: seq<nat>, ys: seq<nat>, f: nat -> int)
    ensures Sum(xs + ys, f) == Sum(xs, f) + Sum(ys, f)
  {
    if xs == [] {
      assert xs + ys == ys;
    } else {
      assert (xs + ys)[1..] == xs[1..] + ys;
      SumAppend(xs[1..], ys, f);
    }
  }

  lemma {:induction false} SumCongruent(xs: seq<nat>, f: nat -> int, g: nat -> int)
    requires forall x :: x in xs ==> f(x) == g(x)
    ensures Sum(xs, f) == Sum(xs, g)
  {
    if xs != [] {
      SumCongruent(xs[1..], f, g);
    }
  }

  lemma {:induction false} SumBound(xs: seq<nat>, f: nat -> int, g: nat -> int)
    requires forall x :: x in xs ==> f(x) <= g(x)
    ensures Sum(xs, f) <= Sum(xs, g)
  {
    if xs != [] {
      SumBound(xs[1..], f, g);
    }
  }

  lemma {:induction false} SumLinear(xs: seq<nat>, f: nat -> int, g: nat -> int, h: nat -> int)
    requires forall x :: x in xs ==> h(x) == f(x) + g(x)
    ensures Sum(xs, h) == Sum(xs, f) + Sum(xs, g)
  {
    if xs != [] {
      SumLinear(xs[1..], f, g, h);
    }
  }

  lemma {:induction false} SumZero(xs: seq<nat>, f: nat -> int)
    requires forall x :: x in xs ==> f(x) == 0
    ensures Sum(xs, f) == 0
  {
    if xs != [] {
      SumZero(xs[1..], f);
    }
  }

  /** Summation order does not matter. */
  lemma RemoveOne<T>(a: seq<T>, b: seq<T>, j: nat)
    requires a != [] && j < |b| && b[j] == a[0] && multiset(a) == multiset(b)
    ensures b == b[..j] + [a[0]] + b[j + 1..]
    ensures multiset(a[1..]) == multiset(b[..j] + b[j + 1..])
  {
    var g, rest, before, after := a[0], a[1..], b[..j], b[j + 1..];
    assert a == [g] + rest;
    assert b == before + [g] + after;
    assert multiset(rest) == multiset(a) - multiset{g};
    assert multiset(before + after) == multiset(b) - multiset{g};
  }

  lemma {:induction false} SumPermutation(xs: seq<nat>, ys: seq<nat>, f: nat -> int)
    requires multiset(xs) == multiset(ys)
    ensures Sum(xs, f) == Sum(ys, f)
  {
    if xs == [] {
      assert |multiset(ys)| == 0;
    } else {
      hide Sum;
      var x, rest := xs[0], xs[1..];
      assert x in multiset(ys);
      var j :| 0 <= j < |ys| && ys[j] == x;
      RemoveOne(xs, ys, j);
      SumPermutation(rest, ys[..j] + ys[j + 1..], f);
      SumHead(xs, f);
      SumInsert(ys[..j], x, ys[j + 1..], f);
    }
  }

  lemma SumHead(xs: seq<nat>, f: nat -> int)
    requires xs != []
    ensures Sum(xs, f) == f(xs[0]) + Sum(xs[1..], f)
  {
  }

  lemma SumInsert(a: seq<nat>, x: nat, b: seq<nat>, f: nat -> int)
    ensures Sum(a + [x] + b, f) == f(x) + Sum(a + b, f)
  {
    SumAppend(a, b, f);
    SumAppend(a + [x], b, f);
    SumAppend(a, [x], f);
    assert [x][1..] == [];
  }

  /** Double sums can be taken rows first or columns first. */
  lemma {:induction false} SumExchange(xs: seq<nat>, ys: seq<nat>, f: (nat, nat) -> int)
    ensures Sum(xs, (x: nat) => Sum(ys, (y: nat) => f(x, y))) == Sum(ys, (y: nat) => Sum(xs, (x: nat) => f(x, y)))
  {
    if xs == [] {
      SumZero(ys, (y: nat) => Sum(xs, (x: nat) => f(x, y)));
    } else {
      SumExchange(xs[1..], ys, f);
      SumLinear(ys, (y: nat) => f(xs[0], y), (y: nat) => Sum(xs[1..], (x: nat) => f(x, y)), (y: nat) => Sum(xs, (x: nat) => f(x, y)));
    }
  }

  function Filter(xs: seq<nat>, keep: nat -> bool): seq<nat>
  {
    if xs == [] then [] else (if keep(xs[0]) then [xs[0]] else []) + Filter(xs[1..], keep)
  }

  lemma {:induction false} FilterCount(xs: seq<nat>, keep: nat -> bool, y: nat)
    ensures multiset(Filter(xs, keep))[y] == if keep(y) then multiset(xs)[y] else 0
  {
    if xs != [] {
      assert xs == [xs[0]] + xs[1..];
      FilterCount(xs[1..], keep, y);
    }
  }

  lemma {:induction false} FilterSum(xs: seq<nat>, keep: nat -> bool, f: nat -> int)
    ensures Sum(Filter(xs, keep), f) == Sum(xs, (x: nat) => if keep(x) then f(x) else 0)
  {
    if xs != [] {
      FilterSum(xs[1..], keep, f);
      if keep(xs[0]) {
        assert ([xs[0]] + Filter(xs[1..], keep))[1..] == Filter(xs[1..], keep);
      } else {
        assert [] + Filter(xs[1..], keep) == Filter(xs[1..], keep);
      }
    }
  }

  /** A listing of exactly the kept members sums like the masked sum over everyone. */
  lemma SumOfListing(listing: seq<nat>, xs: seq<nat>, keep: nat -> bool, f: nat -> int)
    requires forall y: nat :: multiset(listing)[y] == if keep(y) then multiset(xs)[y] else 0
    ensures Sum(listing, f) == Sum(xs, (x: nat) => if keep(x) then f(x) else 0)
  {
    forall y: nat
      ensures multiset(listing)[y] == multiset(Filter(xs, keep))[y]
    {
      FilterCount(xs, keep, y);
    }
    SumPermutation(listing, Filter(xs, keep), f);
    FilterSum(xs, keep, f);
  }
}
