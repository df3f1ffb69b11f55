/** Subscription volumes over the invite forest: subtree sums, legs and the small area
    that grades a user (community.go). */
module Volumes {
  import opened Arith
  import opened Sums
  import opened Forest

  type Personal = map<nat, int>

  function Own(personal: Personal, x: nat): int
  {
    if x in personal then personal[x] else 0
  }

  /** Volume of root and everyone below it. */
  function SubtreeTotal(t: Tree, personal: Personal, root: nat): int
    requires t.Rooted()
  {
    Sum(t.ids, (x: nat) => if t.InSubtree(root, x) then Own(personal, x) else 0)
  }

  function LegTotals(t: Tree, personal: Personal, legs: seq<nat>): seq<int>
    requires t.Rooted()
  {
    seq(|legs|, i requires 0 <= i < |legs| => SubtreeTotal(t, personal, legs[i]))
  }

  function Total(xs: seq<int>): int
  {
    if xs == [] then 0 else Total(xs[..|xs| - 1]) + xs[|xs| - 1]
  }

  function Largest(xs: seq<int>): (m: int)
    requires xs != []
    ensures m in xs
    ensures forall x :: x in xs ==> x <= m
  {
    var n := |xs| - 1;
    if n == 0 then xs[0]
    else
      assert forall x :: x in xs ==> x in xs[..n] || x == xs[n];
      Max(Largest(xs[..n]), xs[n])
  }

  /** Everything but the largest leg; nothing with fewer than two legs. */
  function SmallArea(legs: seq<int>): int
  {
    if |legs| <= 1 then 0 else Total(legs) - Largest(legs)
  }

  /** The volume settlement grades u by. */
  function GradingVolume(t: Tree, personal: Personal, u: nat): int
    requires t.Rooted()
  {
    SmallArea(LegTotals(t, personal, t.Kids(u)))
  }

  // ---- growth ----

  ghost predicate Grows(old_: seq<int>, new_: seq<int>)
  {
    && |old_| <= |new_|
    && (forall i :: 0 <= i < |old_| ==> 0 <= old_[i] <= new_[i])
    && (forall i :: 0 <= i < |new_| ==> 0 <= new_[i])
  }

  /** Total without position k, when k is a position. */
  function TotalWithout(xs: seq<int>, k: nat): int
  {
    Total(xs) - if k < |xs| then xs[k] else 0
  }

  lemma {:induction false} TotalWithoutGrows(a: seq<int>, b: seq<int>, k: nat)
    requires Grows(a, b)
    ensures 0 <= TotalWithout(a, k) <= TotalWithout(b, k)
    decreases |b|
  {
    if b != [] {
      var n := |b| - 1;
      if |a| == |b| {
        TotalWithoutGrows(a[..n], b[..n], k);
      } else {
        TotalWithoutGrows(a, b[..n], k);
      }
    }
  }

  /** Larger legs and new legs never shrink the small area. */
  lemma SmallAreaGrows(a: seq<int>, b: seq<int>)
    requires Grows(a, b)
    ensures 0 <= SmallArea(a) <= SmallArea(b)
  {
    if |b| > 1 {
      var k :| 0 <= k < |b| && b[k] == Largest(b);
      TotalWithoutGrows(a, b, k);
      if |a| > 1 {
        var m := Largest(a);
        var j :| 0 <= j < |a| && a[j] == m;
        TotalWithoutGrows(a, a, j);
        if k < |a| {
          assert a[k] in a;
        }
      }
    }
  }

  /** Total is the largest leg plus the small area. */
  lemma AreasAddUp(legs: seq<int>)
    requires legs != []
    ensures Total(legs) == Largest(legs) + SmallArea(legs)
  {
    if |legs| == 1 {
      assert legs[..0] == [];
    }
  }

  // ---- loops of the source ----

  /** Volume still to be collected from a traversal stack. */
  function Pending(t: Tree, personal: Personal, stack: seq<nat>): int
    requires t.Valid() && t.Listed(stack)
  {
    Sum(t.Visit(stack), (x: nat) => Own(personal, x))
  }

  lemma PendingStep(t: Tree, personal: Personal, stack: seq<nat>)
    requires t.Valid() && t.Listed(stack) && stack != []
    ensures var n, rest := stack[|stack| - 1], stack[..|stack| - 1];
            && t.Listed(rest + t.Kids(n))
            && |t.Nodes(rest + t.Kids(n))| < |t.Nodes(stack)|
            && Pending(t, personal, stack) == Own(personal, n) + Pending(t, personal, rest + t.Kids(n))
  {
    t.NodesLast(stack);
  }

  lemma SumOfFirst(x: nat, rest: seq<nat>, f: nat -> int)
    ensures Sum([x] + rest, f) == f(x) + Sum(rest, f)
  {
    assert ([x] + rest)[1..] == rest;
  }

  lemma PendingWhole(t: Tree, personal: Personal, root: nat)
    requires t.Valid() && root in t.ids
    ensures t.Listed(t.Kids(root))
    ensures Own(personal, root) + Pending(t, personal, t.Kids(root)) == SubtreeTotal(t, personal, root)
  {
    hide Tree.InSubtree, Tree.Listed, Sum;
    t.ListedBelowBound(root);
    t.KidsAbove(root);
    var own := (x: nat) => Own(personal, x);
    SumOfFirst(root, t.Visit(t.Kids(root)), own);
    SumCongruent(t.Visit(t.Kids(root)), own, (x: nat) => Own(personal, x));
    t.SubtreeSum(root, own);
    SumCongruent(t.ids, (x: nat) => if t.InSubtree(root, x) then own(x) else 0,
                 (x: nat) => if t.InSubtree(root, x) then Own(personal, x) else 0);
  }

  lemma NothingPending(t: Tree, personal: Personal)
    requires t.Valid() && t.Listed([])
    ensures Pending(t, personal, []) == 0
  {
  }

  method SubtreeVolume(t: Tree, personal: Personal, root: nat) returns (sum: int)
    requires t.Valid() && root in t.ids
    ensures sum == SubtreeTotal(t, personal, root)
  {
    assert t.Rooted();
    hide Tree.Valid, Tree.Rooted, Tree.Nodes, Tree.Visit, Tree.Kids, Tree.Listed, Pending, SubtreeTotal;
    PendingWhole(t, personal, root);
    sum := Own(personal, root);
    var stack := t.Kids(root);
    while |stack| > 0
      invariant t.Listed(stack)
      invariant sum + Pending(t, personal, stack) == SubtreeTotal(t, personal, root)
      decreases |t.Nodes(stack)|
    {
      var n := stack[|stack| - 1];
      PendingStep(t, personal, stack);
      sum := sum + Own(personal, n);
      stack := stack[..|stack| - 1] + t.Kids(n);
    }
    NothingPending(t, personal);
  }

  /** Index of the largest leg, the first on ties. */
  method MaxLegIndex(legs: seq<int>) returns (best: int)
    ensures legs == [] ==> best == -1
    ensures legs != [] ==> 0 <= best < |legs|
                           && (forall j :: 0 <= j < |legs| ==> legs[j] <= legs[best])
                           && (forall j :: 0 <= j < best ==> legs[j] < legs[best])
  {
    if |legs| == 0 {
      return -1;
    }
    best := 0;
    for i := 1 to |legs|
      invariant 0 <= best < i
      invariant forall j :: 0 <= j < i ==> legs[j] <= legs[best]
      invariant forall j :: 0 <= j < best ==> legs[j] < legs[best]
    {
      if legs[i] > legs[best] {
        best := i;
      }
    }
  }

  method SmallAreaVolume(legs: seq<int>) returns (sum: int)
    ensures sum == SmallArea(legs)
  {
    var best := MaxLegIndex(legs);
    if best < 0 || |legs| <= 1 {
      return 0;
    }
    sum := 0;
    for i := 0 to |legs|
      invariant sum == TotalWithout(legs[..i], best)
    {
      assert legs[..i + 1][..i] == legs[..i];
      if i != best {
        sum := sum + legs[i];
      }
    }
    assert legs[..|legs|] == legs;
    assert legs[best] in legs;
    var m :| 0 <= m < |legs| && legs[m] == Largest(legs);
  }
}
