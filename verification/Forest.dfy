/** The invite forest as the settlement sees it: user ids in listing order, the
    parent links and the child lists built from them (record.go, community.go). */
module Forest {
  import opened Sums

  /** Users whose inviter is p, in listing order. */
  function ChildList(ids: seq<nat>, parent: map<nat, nat>, p: nat): seq<nat>
  {
    if ids == [] then []
    else (if ids[0] in parent && parent[ids[0]] == p then [ids[0]] else []) + ChildList(ids[1..], parent, p)
  }

  datatype Tree = Tree(ids: seq<nat>, parent: map<nat, nat>, children: map<nat, seq<nat>>) {

    /** A missing map key reads as the empty slice. */
    function Kids(x: nat): seq<nat>
    {
      if x in children then children[x] else []
    }

    /** Every user was registered after its inviter. */
    ghost predicate Rooted()
    {
      forall x :: x in parent ==> parent[x] < x
    }

    ghost predicate Valid()
    {
      && Rooted()
      && Ascending(ids)
      && (forall x :: x in parent ==> x in ids && parent[x] in ids)
      && (forall p: nat :: Kids(p) == ChildList(ids, parent, p))
    }

    /** The inviters of x, nearest first. */
    function Chain(x: nat): seq<nat>
      requires Rooted()
      decreases x
    {
      if x in parent then [parent[x]] + Chain(parent[x]) else []
    }

    /** a is a proper upline of x. */
    predicate Under(a: nat, x: nat)
      requires Rooted()
      decreases x
    {
      x in parent && (parent[x] == a || Under(a, parent[x]))
    }

    /** The inviter chain of x written root first, x last: what a path row spells out. */
    function Lineage(x: nat): (line: seq<nat>)
      requires Rooted()
      ensures line != [] && line[|line| - 1] == x
      decreases x
    {
      if x in parent then Lineage(parent[x]) + [x] else [x]
    }

    predicate InSubtree(r: nat, x: nat)
      requires Rooted()
    {
      x == r || Under(r, x)
    }

    function Bound(): nat
    {
      if ids == [] then 0 else ids[|ids| - 1] + 1
    }

    ghost predicate Listed(xs: seq<nat>)
    {
      forall x :: x in xs ==> x < Bound()
    }

    function Floor(xs: seq<nat>): (m: nat)
      ensures m <= Bound()
      ensures forall x :: x in xs ==> m <= x
      ensures m == Bound() || m in xs
    {
      if xs == [] then Bound()
      else
        var m := Floor(xs[1..]);
        assert forall x :: x in xs ==> x == xs[0] || x in xs[1..];
        if xs[0] < m then xs[0] else m
    }

    /** Everyone in the subtrees of the listed roots, with multiplicity. */
    ghost function Nodes(xs: seq<nat>): multiset<nat>
      requires Valid() && Listed(xs)
      decreases Bound() - Floor(xs), |xs|
    {
      if xs == [] then multiset{}
      else
        var x := xs[0];
        KidsAbove(x);
        assert x in xs && Floor(xs) <= x && Floor(xs) <= Floor(xs[1..]);
        assert forall y :: y in xs[1..] ==> y in xs;
        multiset{x} + Nodes(Kids(x)) + Nodes(xs[1..])
    }

    lemma KidsAbove(x: nat)
      requires Valid()
      ensures Listed(Kids(x))
      ensures forall c :: c in Kids(x) <==> c in parent && parent[c] == x
      ensures forall c :: c in Kids(x) ==> x < c
      ensures x < Bound() ==> x < Floor(Kids(x))
    {
      ChildListMembers(ids, parent, x);
    }

    // ---- uplines ----

    lemma {:induction false} UnderLess(a: nat, x: nat)
      requires Rooted() && Under(a, x)
      ensures a < x
      decreases x
    {
      if parent[x] != a {
        UnderLess(a, parent[x]);
      }
    }

    /** Two uplines of the same user are on one line. */
    lemma {:induction false} Comparable(a: nat, b: nat, y: nat)
      requires Rooted() && InSubtree(a, y) && InSubtree(b, y)
      ensures InSubtree(a, b) || InSubtree(b, a)
      decreases y
    {
      if a != y && b != y {
        Comparable(a, b, parent[y]);
      }
    }

    /** Someone below x is below exactly the one child of x on the way. */
    lemma {:induction false} ThroughChild(x: nat, y: nat)
      requires Rooted()
      ensures Under(x, y) <==> exists c :: c in parent && parent[c] == x && InSubtree(c, y)
      decreases y
    {
      if y in parent {
        ThroughChild(x, parent[y]);
        forall c | c in parent && parent[c] == x && InSubtree(c, y)
          ensures Under(x, y)
        {
          if c != y {
            assert InSubtree(c, parent[y]);
          }
        }
        if Under(x, y) {
          if parent[y] == x {
            assert InSubtree(y, y);
          } else {
            var c :| c in parent && parent[c] == x && InSubtree(c, parent[y]);
            assert InSubtree(c, y);
          }
        }
      }
    }

    lemma {:induction false} SiblingsApart(c: nat, d: nat, y: nat)
      requires Rooted() && c in parent && d in parent && parent[c] == parent[d] && c != d
      ensures !(InSubtree(c, y) && InSubtree(d, y))
    {
      if InSubtree(c, y) && InSubtree(d, y) {
        Comparable(c, d, y);
        var lo, hi := if InSubtree(c, d) then c else d, if InSubtree(c, d) then d else c;
        assert Under(lo, hi) && InSubtree(lo, parent[hi]);
        if lo != parent[hi] {
          UnderLess(lo, parent[hi]);
        }
        assert false;
      }
    }

    /** How many of the listed roots have y in their subtree. */
    ghost function Cover(xs: seq<nat>, y: nat): nat
      requires Rooted()
    {
      if xs == [] then 0 else (if InSubtree(xs[0], y) then 1 else 0) + Cover(xs[1..], y)
    }

    lemma {:induction false} CoverOnce(xs: seq<nat>, y: nat)
      requires Rooted()
      requires forall i, j :: 0 <= i < j < |xs| ==> !(InSubtree(xs[i], y) && InSubtree(xs[j], y))
      ensures Cover(xs, y) == if exists x :: x in xs && InSubtree(x, y) then 1 else 0
    {
      if xs != [] {
        CoverOnce(xs[1..], y);
        assert forall x :: x in xs ==> x == xs[0] || x in xs[1..];
        assert forall x :: x in xs[1..] ==> x in xs;
        if InSubtree(xs[0], y) {
          assert forall x :: x in xs[1..] ==> !InSubtree(x, y);
        }
      }
    }

    lemma CoverKids(x: nat, y: nat)
      requires Valid()
      ensures (if x == y then 1 else 0) + Cover(Kids(x), y) == if InSubtree(x, y) then 1 else 0
    {
      var kids := Kids(x);
      KidsAbove(x);
      ChildListAscending(ids, parent, x);
      forall i, j | 0 <= i < j < |kids|
        ensures !(InSubtree(kids[i], y) && InSubtree(kids[j], y))
      {
        assert kids[i] in kids && kids[j] in kids;
        SiblingsApart(kids[i], kids[j], y);
      }
      CoverOnce(kids, y);
      ThroughChild(x, y);
      if Under(x, y) {
        UnderLess(x, y);
      }
    }

    /** Walking down child lists meets y once per listed root above it or equal to it. */
    lemma {:induction false} NodesCover(xs: seq<nat>, y: nat)
      requires Valid() && Listed(xs)
      ensures Nodes(xs)[y] == Cover(xs, y)
      decreases Bound() - Floor(xs), |xs|
    {
      if xs != [] {
        var x := xs[0];
        KidsAbove(x);
        assert x in xs && Floor(xs) <= x;
        assert forall z :: z in xs[1..] ==> z in xs;
        NodesCover(Kids(x), y);
        NodesCover(xs[1..], y);
        CoverKids(x, y);
      }
    }

    lemma {:induction false} CoverAppend(xs: seq<nat>, ys: seq<nat>, y: nat)
      requires Rooted()
      ensures Cover(xs + ys, y) == Cover(xs, y) + Cover(ys, y)
    {
      if xs == [] {
        assert xs + ys == ys;
      } else {
        CoverAppend(xs[1..], ys, y);
        assert (xs + ys)[1..] == xs[1..] + ys;
      }
    }

    lemma NodesAppend(xs: seq<nat>, ys: seq<nat>)
      requires Valid() && Listed(xs) && Listed(ys)
      ensures Listed(xs + ys) && Nodes(xs + ys) == Nodes(xs) + Nodes(ys)
    {
      assert Listed(xs + ys) && Rooted();
      hide Valid, Listed, Nodes, Cover, Rooted;
      var all, split := Nodes(xs + ys), Nodes(xs) + Nodes(ys);
      forall y: nat
        ensures all[y] == split[y]
      {
        NodesAppendAt(xs, ys, y);
      }
      SameCounts(all, split);
    }

    lemma NodesAppendAt(xs: seq<nat>, ys: seq<nat>, y: nat)
      requires Valid() && Listed(xs) && Listed(ys) && Listed(xs + ys)
      ensures Nodes(xs + ys)[y] == Nodes(xs)[y] + Nodes(ys)[y]
    {
      assert Rooted();
      hide Valid, Listed, Nodes, Cover, Rooted;
      NodesCover(xs, y);
      NodesCover(ys, y);
      NodesCover(xs + ys, y);
      CoverAppend(xs, ys, y);
    }

    lemma SameCounts(a: multiset<nat>, b: multiset<nat>)
      requires forall y: nat :: a[y] == b[y]
      ensures a == b
    {
    }

    lemma NodesLast(stack: seq<nat>)
      requires Valid() && Listed(stack) && stack != []
      ensures var n, rest := stack[|stack| - 1], stack[..|stack| - 1];
              && n < Bound() && Listed(rest) && Listed(Kids(n)) && Listed(rest + Kids(n))
              && Nodes(stack) == Nodes(rest + Kids(n)) + multiset{n}
    {
      var n, rest := stack[|stack| - 1], stack[..|stack| - 1];
      assert stack == rest + [n];
      assert n in stack && forall x :: x in rest ==> x in stack;
      KidsAbove(n);
      NodesOfOne(n);
      assert Listed(rest) && n < Bound();
      hide Valid, Nodes, Kids, Listed, Bound;
      NodesAppend(rest, [n]);
      NodesAppend(rest, Kids(n));
    }

    lemma NodesOfOne(n: nat)
      requires Valid() && n < Bound()
      ensures Listed([n]) && Listed(Kids(n)) && Nodes([n]) == multiset{n} + Nodes(Kids(n))
    {
      KidsAbove(n);
      assert [n][1..] == [] && Nodes([]) == multiset{};
    }

    /** Visiting order of the explicit-stack traversal: pop the last, push its children. */
    function Visit(stack: seq<nat>): (order: seq<nat>)
      requires Valid() && Listed(stack)
      ensures multiset(order) == Nodes(stack)
      decreases |Nodes(stack)|
    {
      if stack == [] then []
      else
        var n, rest := stack[|stack| - 1], stack[..|stack| - 1];
        NodesLast(stack);
        [n] + Visit(rest + Kids(n))
    }

    /** Root first, then everyone below it in traversal order. */
    function SubtreeOrder(root: nat): seq<nat>
      requires Valid() && root < Bound()
    {
      KidsAbove(root);
      [root] + Visit(Kids(root))
    }

    /** The traversal meets y exactly once when y is in the subtree, and never otherwise. */
    lemma SubtreeOrderExact(root: nat, y: nat)
      requires Valid() && root < Bound()
      ensures multiset(SubtreeOrder(root))[y] == if InSubtree(root, y) then 1 else 0
    {
      KidsAbove(root);
      NodesCover(Kids(root), y);
      CoverKids(root, y);
    }

    /** Everyone below u, leg by leg. */
    function LegsOrder(legs: seq<nat>): seq<nat>
      requires Valid() && Listed(legs)
    {
      if legs == [] then []
      else
        assert legs[0] in legs && forall x :: x in legs[1..] ==> x in legs;
        SubtreeOrder(legs[0]) + LegsOrder(legs[1..])
    }

    lemma {:induction false} LegsOrderCover(legs: seq<nat>, y: nat)
      requires Valid() && Listed(legs)
      ensures multiset(LegsOrder(legs))[y] == Cover(legs, y)
    {
      if legs != [] {
        assert legs[0] in legs && forall x :: x in legs[1..] ==> x in legs;
        SubtreeOrderExact(legs[0], y);
        LegsOrderCover(legs[1..], y);
      }
    }

    function DownlineOrder(u: nat): seq<nat>
      requires Valid()
    {
      KidsAbove(u);
      LegsOrder(Kids(u))
    }

    /** Traversal duality: over all legs of u the walk meets y exactly once when u is on
        y's inviter chain, and never otherwise. */
    lemma DownlineOrderExact(u: nat, y: nat)
      requires Valid()
      ensures multiset(DownlineOrder(u))[y] == if Under(u, y) then 1 else 0
      ensures Under(u, y) <==> u in Chain(y)
    {
      KidsAbove(u);
      LegsOrderCover(Kids(u), y);
      CoverKids(u, y);
      if Under(u, y) {
        UnderLess(u, y);
      }
      ChainMembers(u, y);
    }

    lemma {:induction false} ChainMembers(u: nat, y: nat)
      requires Rooted()
      ensures u in Chain(y) <==> Under(u, y)
      decreases y
    {
      if y in parent {
        ChainMembers(u, parent[y]);
      }
    }

    /** A sum along the traversal is the sum over everyone below u. */
    lemma DownlineSum(u: nat, f: nat -> int)
      requires Valid()
      ensures Sum(DownlineOrder(u), f) == Sum(ids, (x: nat) => if Under(u, x) then f(x) else 0)
    {
      var keep := (x: nat) => Under(u, x);
      forall y: nat
        ensures multiset(DownlineOrder(u))[y] == if keep(y) then multiset(ids)[y] else 0
      {
        DownlineOrderExact(u, y);
        IdCount(y);
      }
      SumOfListing(DownlineOrder(u), ids, keep, f);
      SumCongruent(ids, (x: nat) => if keep(x) then f(x) else 0, (x: nat) => if Under(u, x) then f(x) else 0);
    }

    lemma {:induction false} ChainExact(x: nat, u: nat)
      requires Rooted()
      ensures multiset(Chain(x))[u] == if Under(u, x) then 1 else 0
      decreases x
    {
      if x in parent {
        var p := parent[x];
        ChainExact(p, u);
        if u == p && Under(p, p) {
          UnderLess(p, p);
        }
      }
    }

    /** A sum up the inviter chain is the sum over everyone above x. */
    lemma ChainSum(x: nat, f: nat -> int)
      requires Valid()
      ensures Sum(Chain(x), f) == Sum(ids, (u: nat) => if Under(u, x) then f(u) else 0)
    {
      var keep := (u: nat) => Under(u, x);
      forall u: nat
        ensures multiset(Chain(x))[u] == if keep(u) then multiset(ids)[u] else 0
      {
        ChainExact(x, u);
        IdCount(u);
        if Under(u, x) {
          UplineListed(u, x);
        }
      }
      SumOfListing(Chain(x), ids, keep, f);
      SumCongruent(ids, (u: nat) => if keep(u) then f(u) else 0, (u: nat) => if Under(u, x) then f(u) else 0);
    }

    lemma {:induction false} UplineListed(u: nat, x: nat)
      requires Valid() && Under(u, x)
      ensures u in ids && x in ids
      decreases x
    {
      if parent[x] != u {
        UplineListed(u, parent[x]);
      }
    }

    lemma ListedBelowBound(x: nat)
      requires Valid() && x in ids
      ensures x < Bound()
    {
      var j :| 0 <= j < |ids| && ids[j] == x;
    }

    lemma SubtreeOrderListed(root: nat, y: nat)
      requires Valid() && root in ids && root < Bound()
      ensures multiset(SubtreeOrder(root))[y] == if InSubtree(root, y) then multiset(ids)[y] else 0
    {
      SubtreeOrderExact(root, y);
      IdCount(y);
      if Under(root, y) {
        UplineListed(root, y);
      }
    }

    lemma SubtreeListing(root: nat)
      requires Valid() && root in ids && root < Bound()
      ensures forall y: nat :: multiset(SubtreeOrder(root))[y] == if InSubtree(root, y) then multiset(ids)[y] else 0
    {
      forall y: nat
        ensures multiset(SubtreeOrder(root))[y] == if InSubtree(root, y) then multiset(ids)[y] else 0
      {
        SubtreeOrderListed(root, y);
      }
    }

    /** A sum over the traversal of one subtree. */
    lemma SubtreeSum(root: nat, f: nat -> int)
      requires Valid() && root in ids && root < Bound()
      ensures Sum(SubtreeOrder(root), f) == Sum(ids, (x: nat) => if InSubtree(root, x) then f(x) else 0)
    {
      assert Rooted();
      hide Valid, Rooted, SubtreeOrder, Sum, InSubtree, Bound;
      var order: seq<nat> := SubtreeOrder(root);
      var keep := (x: nat) => InSubtree(root, x);
      SubtreeListing(root);
      SumOfListing(order, ids, keep, f);
      SumCongruent(ids, (x: nat) => if keep(x) then f(x) else 0,
                   (x: nat) => if InSubtree(root, x) then f(x) else 0);
    }

    /** v's lineage starts u's exactly when u is in v's subtree. */
    lemma {:induction false} LineagePrefix(v: nat, u: nat)
      requires Rooted()
      ensures Lineage(v) <= Lineage(u) <==> InSubtree(v, u)
      decreases u
    {
      var a, b := Lineage(v), Lineage(u);
      if u in parent {
        var c := Lineage(parent[u]);
        LineagePrefix(v, parent[u]);
        assert b == c + [u];
        if a <= b {
          if |a| == |b| {
            assert a == b;
          } else {
            assert a <= c;
          }
        }
      } else if a <= b {
        assert |a| == 1 && a[0] == b[0];
      }
    }

    lemma IdCount(y: nat)
      requires Valid()
      ensures multiset(ids)[y] == if y in ids then 1 else 0
    {
      AscendingCount(ids, y);
    }
  }

  lemma {:induction false} AscendingCount(ids: seq<nat>, y: nat)
    requires Ascending(ids)
    ensures multiset(ids)[y] == if y in ids then 1 else 0
  {
    if ids != [] {
      var rest := ids[1..];
      assert ids == [ids[0]] + rest;
      AscendingCount(rest, y);
      assert forall j :: 0 <= j < |rest| ==> rest[j] == ids[j + 1] > ids[0];
      assert ids[0] !in rest;
    }
  }

  /** The uplines of x depend only on the links up to x. */
  lemma {:induction false} SameUplines(s: Tree, t: Tree, a: nat, x: nat)
    requires s.Rooted() && t.Rooted()
    requires forall y: nat :: y <= x ==> (y in s.parent <==> y in t.parent) && (y in s.parent ==> s.parent[y] == t.parent[y])
    ensures s.Under(a, x) <==> t.Under(a, x)
    ensures s.Lineage(x) == t.Lineage(x)
    decreases x
  {
    if x in s.parent {
      SameUplines(s, t, a, s.parent[x]);
    }
  }

  lemma {:induction false} ChildListAppend(xs: seq<nat>, ys: seq<nat>, parent: map<nat, nat>, p: nat)
    ensures ChildList(xs + ys, parent, p) == ChildList(xs, parent, p) + ChildList(ys, parent, p)
  {
    if xs == [] {
      assert xs + ys == ys;
    } else {
      assert (xs + ys)[1..] == xs[1..] + ys;
      ChildListAppend(xs[1..], ys, parent, p);
    }
  }

  lemma {:induction false} ChildListMembers(ids: seq<nat>, parent: map<nat, nat>, p: nat)
    ensures forall c :: c in ChildList(ids, parent, p) <==> c in ids && c in parent && parent[c] == p
  {
    if ids != [] {
      ChildListMembers(ids[1..], parent, p);
    }
  }

  lemma {:induction false} ChildListAscending(ids: seq<nat>, parent: map<nat, nat>, p: nat)
    requires Ascending(ids)
    ensures Ascending(ChildList(ids, parent, p))
  {
    if ids != [] {
      ChildListAscending(ids[1..], parent, p);
      ChildListMembers(ids[1..], parent, p);
      forall c | c in ids[1..]
        ensures ids[0] < c
      {
        var j :| 0 <= j < |ids| - 1 && ids[1..][j] == c;
        assert ids[j + 1] == c;
      }
      var rest := ChildList(ids[1..], parent, p);
      assert forall j :: 0 <= j < |rest| ==> rest[j] in rest;
    }
  }
}
