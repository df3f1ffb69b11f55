/** The smallest forest with a claimant above a claimant above a source: 1 - 2 - 3. */
module LineOfThree {
  import opened Forest

  const Links: map<nat, nat> := map[2 := 1, 3 := 2]

  const Line3: Tree := Tree([1, 2, 3], Links, map[1 := [2], 2 := [3]])

  lemma LinksListed(q: nat)
    ensures ChildList([1, 2, 3], Links, q) == if q == 1 then [2] else if q == 2 then [3] else []
  {
    assert [1, 2, 3][1..] == [2, 3] && [2, 3][1..] == [3] && [3][1..] == [];
    assert ChildList([3], Links, q) == if q == 2 then [3] else [];
    assert ChildList([2, 3], Links, q) == (if q == 1 then [2] else []) + ChildList([3], Links, q);
  }

  lemma LineValid()
    ensures Line3.Valid() && Line3.Chain(3) == [2, 1] && Line3.Chain(2) == [1] && Line3.Chain(1) == []
  {
    var t := Line3;
    forall q: nat
      ensures t.Kids(q) == ChildList(t.ids, t.parent, q)
    {
      LinksListed(q);
    }
    assert t.Rooted();
    hide Tree.Valid, Tree.Kids;
    assert t.Chain(1) == [] && t.Chain(2) == [1] + t.Chain(1) && t.Chain(3) == [2] + t.Chain(2);
  }

  lemma KidsOfThree(t: Tree)
    requires t.Valid() && t.ids == [1, 2, 3] && t.parent == Links
    ensures t.Kids(1) == [2] && t.Kids(2) == [3] && t.Kids(3) == []
  {
    assert forall q: nat :: t.Kids(q) == ChildList([1, 2, 3], Links, q);
    hide Tree.Valid, Tree.Kids;
    LinksListed(1);
    LinksListed(2);
    LinksListed(3);
  }

  /** A leg whose root has at most one child with none below. */
  lemma OneLeg(t: Tree, x: nat, below: seq<nat>)
    requires t.Valid() && x < t.Bound() && t.Kids(x) == below && t.Listed(below)
    requires below == [] || (below == [3] && t.Kids(3) == [])
    ensures t.Listed([x]) && t.LegsOrder([x]) == [x] + below
  {
    hide Tree.Valid;
    assert [x][1..] == [];
    if below == [] {
      assert t.Visit([]) == [];
    } else {
      assert [3][..0] == [] && [] + t.Kids(3) == [];
      assert t.Visit([3]) == [3] + t.Visit([]);
    }
    assert t.SubtreeOrder(x) == [x] + t.Visit(below);
    assert t.LegsOrder([x]) == t.SubtreeOrder(x) + t.LegsOrder([]);
  }

  lemma Downlines(t: Tree)
    requires t.Valid() && t.ids == [1, 2, 3] && t.Kids(1) == [2] && t.Kids(2) == [3] && t.Kids(3) == []
    ensures t.DownlineOrder(1) == [2, 3] && t.DownlineOrder(2) == [3] && t.DownlineOrder(3) == []
  {
    hide Tree.Valid, Tree.Kids, Tree.LegsOrder;
    OneLeg(t, 3, []);
    OneLeg(t, 2, [3]);
    NoLegs(t);
  }

  lemma NoLegs(t: Tree)
    requires t.Valid()
    ensures t.Listed([]) && t.LegsOrder([]) == []
  {
  }
}
