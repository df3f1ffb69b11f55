/** A settlement's orders and balances do not depend on the order in which rewards are met:
    not on the traversal order of lines, not on the order of claimants, not on the map order
    of peer earners. */
module Confluence {
  import opened Arith
  import opened Sums
  import opened Forest
  import opened Params
  import opened Orders
  import opened Community
  import opened Tables
  import opened Settlement

  // ---- lines of one claimant ----

  lemma {:induction false} LinesTotalNonnegative(lines: seq<Line>)
    requires PaidLines(lines)
    ensures LinesTotal(lines) >= 0
  {
    if lines != [] {
      LinesTotalNonnegative(lines[1..]);
    }
  }

  /** Paying a claimant line by line is one credit of the lines' total. */
  lemma {:induction false} LinesAsOneCredit(w: World, u: nat, lines: seq<Line>)
    requires PaidLines(lines)
    ensures CreditAll(w, LineGrants(u, lines), CommunityBase).Core() == Credit(w, u, LinesTotal(lines), CommunityBase).Core()
    ensures AppliedLines(w, u, lines) == Applied(w, u, LinesTotal(lines))
    decreases |lines|
  {
    if lines != [] {
      var a, rest := lines[0].amount, lines[1..];
      var w1 := Credit(w, u, a, CommunityBase);
      LinesAsOneCredit(w1, u, rest);
      LinesTotalNonnegative(rest);
      CreditAdds(w, u, a, LinesTotal(rest), CommunityBase, CommunityBase, CommunityBase);
      assert LineGrants(u, lines)[1..] == LineGrants(u, rest);
    }
  }

  // ---- bags of grants ----

  /** Everything f contributes along a listing, the order forgotten. */
  function Bag(xs: seq<nat>, f: nat -> multiset<Grant>): multiset<Grant>
  {
    if xs == [] then multiset{} else Bag(xs[..|xs| - 1], f) + f(xs[|xs| - 1])
  }

  lemma {:induction false} BagSplit(a: seq<nat>, x: nat, b: seq<nat>, f: nat -> multiset<Grant>)
    ensures Bag(a + [x] + b, f) == f(x) + Bag(a + b, f)
    decreases |b|
  {
    if b == [] {
      assert a + [x] + b == a + [x] && a + b == a;
      assert (a + [x])[..|a|] == a;
    } else {
      var y, c := b[|b| - 1], b[..|b| - 1];
      BagSplit(a, x, c, f);
      assert (a + [x] + b)[..|a + [x] + b| - 1] == a + [x] + c;
      assert (a + b)[..|a + b| - 1] == a + c;
    }
  }

  lemma TakeOut(xs: seq<nat>, x: nat) returns (before: seq<nat>, after: seq<nat>)
    requires x in multiset(xs)
    ensures xs == before + [x] + after
    ensures multiset(before + after) == multiset(xs) - multiset{x}
  {
    var j :| 0 <= j < |xs| && xs[j] == x;
    before, after := xs[..j], xs[j + 1..];
    assert xs == before + [x] + after;
  }

  lemma {:induction false} BagPermute(a: seq<nat>, b: seq<nat>, f: nat -> multiset<Grant>)
    requires multiset(a) == multiset(b)
    ensures Bag(a, f) == Bag(b, f)
    decreases |a|
  {
    if a == [] {
      assert |multiset(b)| == 0;
    } else {
      var x := a[0];
      var a1, a2 := TakeOut(a, x);
      var b1, b2 := TakeOut(b, x);
      BagPermute(a1 + a2, b1 + b2, f);
      BagSplit(a1, x, a2, f);
      BagSplit(b1, x, b2, f);
    }
  }

  // ---- all claimants ----

  function ClaimGrants(p: Params, t: Tree, levels: Levels, pieces: Pieces, users: seq<nat>): seq<Grant>
    requires p.scale > 0 && t.Rooted()
  {
    if users == [] then []
    else ClaimGrants(p, t, levels, pieces, users[..|users| - 1])
         + [Grant(users[|users| - 1], ClaimTotal(p, t, levels, pieces, users[|users| - 1]))]
  }

  lemma ClaimNonnegative(p: Params, t: Tree, levels: Levels, pieces: Pieces, u: nat)
    requires p.scale > 0 && t.Valid()
    ensures ClaimTotal(p, t, levels, pieces, u) >= 0
  {
    BaseLinesTotal(p, t, levels, pieces, u);
    LinesAlongPaid(p, t, levels, pieces, u, t.DownlineOrder(u));
    LinesTotalNonnegative(BaseLines(p, t, levels, pieces, u));
  }

  lemma {:induction false} CreditAllAppend(w: World, a: seq<Grant>, b: seq<Grant>, kind: Kind)
    ensures CreditAll(w, a + b, kind) == CreditAll(CreditAll(w, a, kind), b, kind)
    decreases |a|
  {
    if a == [] {
      assert a + b == b;
    } else {
      assert (a + b)[1..] == a[1..] + b;
      CreditAllAppend(Credit(w, a[0].user, a[0].amount, kind), a[1..], b, kind);
    }
  }

  /** The base phase is one credit of the claim total per claimant. */
  lemma {:induction false} BaseAsClaims(p: Params, t: Tree, levels: Levels, pieces: Pieces, w: World, users: seq<nat>)
    requires p.scale > 0 && t.Valid()
    ensures PayBase(p, t, levels, pieces, w, users).w.Core()
         == CreditAll(w, ClaimGrants(p, t, levels, pieces, users), CommunityBase).Core()
    ensures Nonnegative(ClaimGrants(p, t, levels, pieces, users))
  {
    if users != [] {
      var rest, u := users[..|users| - 1], users[|users| - 1];
      var before := PayBase(p, t, levels, pieces, w, rest).w;
      var grants := ClaimGrants(p, t, levels, pieces, rest);
      var claim := ClaimTotal(p, t, levels, pieces, u);
      BaseAsClaims(p, t, levels, pieces, w, rest);
      LinesAlongPaid(p, t, levels, pieces, u, t.DownlineOrder(u));
      LinesAsOneCredit(before, u, BaseLines(p, t, levels, pieces, u));
      BaseLinesTotal(p, t, levels, pieces, u);
      ClaimNonnegative(p, t, levels, pieces, u);
      CreditFromCore(before, CreditAll(w, grants, CommunityBase), u, claim, CommunityBase);
      CreditAllAppend(w, grants, [Grant(u, claim)], CommunityBase);
      SingleCredit(CreditAll(w, grants, CommunityBase), Grant(u, claim), CommunityBase);
    }
  }

  lemma SingleCredit(w: World, g: Grant, kind: Kind)
    ensures CreditAll(w, [g], kind) == Credit(w, g.user, g.amount, kind)
  {
    assert [g][1..] == [];
  }

  function ClaimBag(p: Params, t: Tree, levels: Levels, pieces: Pieces, users: seq<nat>): multiset<Grant>
    requires p.scale > 0 && t.Rooted()
  {
    Bag(users, (u: nat) => multiset{Grant(u, ClaimTotal(p, t, levels, pieces, u))})
  }

  lemma {:induction false} ClaimGrantsBag(p: Params, t: Tree, levels: Levels, pieces: Pieces, users: seq<nat>)
    requires p.scale > 0 && t.Rooted()
    ensures multiset(ClaimGrants(p, t, levels, pieces, users)) == ClaimBag(p, t, levels, pieces, users)
  {
    if users != [] {
      ClaimGrantsBag(p, t, levels, pieces, users[..|users| - 1]);
    }
  }

  /** Claimants may be served in any order. */
  lemma ClaimantOrderIrrelevant(p: Params, t: Tree, levels: Levels, pieces: Pieces, w: World, a: seq<nat>, b: seq<nat>)
    requires p.scale > 0 && t.Valid() && multiset(a) == multiset(b)
    ensures PayBase(p, t, levels, pieces, w, a).w.Core() == PayBase(p, t, levels, pieces, w, b).w.Core()
  {
    BaseAsClaims(p, t, levels, pieces, w, a);
    BaseAsClaims(p, t, levels, pieces, w, b);
    ClaimGrantsBag(p, t, levels, pieces, a);
    ClaimGrantsBag(p, t, levels, pieces, b);
    BagPermute(a, b, (u: nat) => multiset{Grant(u, ClaimTotal(p, t, levels, pieces, u))});
    assert ClaimBag(p, t, levels, pieces, a) == ClaimBag(p, t, levels, pieces, b);
    CreditOrderIrrelevant(w, ClaimGrants(p, t, levels, pieces, a), ClaimGrants(p, t, levels, pieces, b), CommunityBase);
  }

  lemma {:induction false} OthersKeepRoom(w: World, grants: seq<Grant>, u: nat)
    requires Nonnegative(grants) && forall g :: g in grants ==> g.user != u
    ensures ActiveRoom(CreditAll(w, grants, CommunityBase).orders, u) == ActiveRoom(w.orders, u)
    decreases |grants|
  {
    if grants != [] {
      var g := grants[0];
      assert g in grants && forall h :: h in grants[1..] ==> h in grants;
      var w1 := Credit(w, g.user, g.amount, CommunityBase);
      RoomKept(w.orders, g.user, g.amount, u);
      FillNothingSpent(w, g.user, g.amount);
      OthersKeepRoom(w1, grants[1..], u);
    }
  }

  lemma FillNothingSpent(w: World, u: nat, amount: int)
    ensures Credit(w, u, amount, CommunityBase).orders == Fill(w.orders, u, amount).0
  {
    if amount <= 0 {
      FillNothing(w.orders, u, amount);
    }
  }

  lemma {:induction false} RoomKept(orders: seq<Order>, v: nat, amount: int, u: nat)
    requires u != v
    ensures ActiveRoom(Fill(orders, v, amount).0, u) == ActiveRoom(orders, u)
  {
    if orders != [] {
      var o := orders[0];
      var chunk := if amount > 0 && o.ActiveFor(v) then Min(amount, o.Room()) else 0;
      RoomKept(orders[1..], v, amount - chunk, u);
    }
  }

  lemma {:induction false} ClaimGrantsUsers(p: Params, t: Tree, levels: Levels, pieces: Pieces, users: seq<nat>)
    requires p.scale > 0 && t.Rooted()
    ensures forall g :: g in ClaimGrants(p, t, levels, pieces, users) ==> g.user in users
  {
    if users != [] {
      ClaimGrantsUsers(p, t, levels, pieces, users[..|users| - 1]);
    }
  }

  lemma DistinctFront(users: seq<nat>)
    requires users != [] && Distinct(users)
    ensures var rest, v := users[..|users| - 1], users[|users| - 1];
            Distinct(rest) && v !in rest && users == rest + [v] && forall u: nat :: u in users <==> u in rest || u == v
  {
  }

  /** Each claimant's applied community base is the smaller of its claims and its active room
      when the phase started, whoever was served before. */
  lemma {:induction false} BaseIsCapped(p: Params, t: Tree, levels: Levels, pieces: Pieces, w: World, users: seq<nat>, u: nat)
    requires p.scale > 0 && t.Valid() && Distinct(users)
    ensures Gained(PayBase(p, t, levels, pieces, w, users).got, u)
         == if u in users then Min(ClaimTotal(p, t, levels, pieces, u), ActiveRoom(w.orders, u)) else 0
    ensures u in PayBase(p, t, levels, pieces, w, users).got ==>
              u in users && PayBase(p, t, levels, pieces, w, users).got[u] > 0
  {
    if users != [] {
      hide Tree.Valid, Tree.Rooted, BaseLines, CreditAll, ActiveRoom, ClaimTotal, AppliedLines, LineGrants;
      var rest, v := users[..|users| - 1], users[|users| - 1];
      DistinctFront(users);
      hide Distinct;
      var before := PayBase(p, t, levels, pieces, w, rest);
      BaseIsCapped(p, t, levels, pieces, w, rest, u);
      BaseIsCapped(p, t, levels, pieces, w, rest, v);
      ClaimantGets(p, t, levels, pieces, w, rest, v);
      hide PayBase, PayClaimant;
      GainedStep(before, v, BaseLines(p, t, levels, pieces, v), u);
      PayBaseSnoc(p, t, levels, pieces, w, users);
    }
  }

  lemma PayBaseSnoc(p: Params, t: Tree, levels: Levels, pieces: Pieces, w: World, users: seq<nat>)
    requires p.scale > 0 && t.Valid() && users != []
    ensures var v := users[|users| - 1];
            PayBase(p, t, levels, pieces, w, users)
            == PayClaimant(PayBase(p, t, levels, pieces, w, users[..|users| - 1]), v, BaseLines(p, t, levels, pieces, v))
  {
  }

  /** A claimant's record grows by what its lines were applied, when that is anything. */
  lemma GainedStep(before: Paid, v: nat, lines: seq<Line>, u: nat)
    ensures var after, gained := PayClaimant(before, v, lines), AppliedLines(before.w, v, lines);
            && Gained(after.got, u) == Gained(before.got, u) + (if u == v then Max(0, gained) else 0)
            && (u in after.got <==> u in before.got || (u == v && gained > 0))
            && (u != v && u in before.got ==> after.got[u] == before.got[u])
  {
    hide AppliedLines, CreditAll;
  }

  /** A claimant not served yet is applied the smaller of its claims and its room at the start. */
  lemma ClaimantGets(p: Params, t: Tree, levels: Levels, pieces: Pieces, w: World, rest: seq<nat>, v: nat)
    requires p.scale > 0 && t.Valid() && v !in rest
    ensures AppliedLines(PayBase(p, t, levels, pieces, w, rest).w, v, BaseLines(p, t, levels, pieces, v))
         == Min(ClaimTotal(p, t, levels, pieces, v), ActiveRoom(w.orders, v))
    ensures ClaimTotal(p, t, levels, pieces, v) >= 0 && ActiveRoom(w.orders, v) >= 0
  {
    assert t.Rooted();
    hide Tree.Valid, PayBase, Credit, CreditAll, Applied, ActiveRoom, ClaimTotal, AppliedLines, ClaimGrants, LineGrants;
    var before := PayBase(p, t, levels, pieces, w, rest);
    var lines := BaseLines(p, t, levels, pieces, v);
    FillExact(w.orders, v, 0);
    LinesAlongPaid(p, t, levels, pieces, v, t.DownlineOrder(v));
    LinesAsOneCredit(before.w, v, lines);
    BaseLinesTotal(p, t, levels, pieces, v);
    ClaimNonnegative(p, t, levels, pieces, v);
    AppliedIsCapped(before.w, v, LinesTotal(lines));
    BaseAsClaims(p, t, levels, pieces, w, rest);
    var credited := CreditAll(w, ClaimGrants(p, t, levels, pieces, rest), CommunityBase);
    assert before.w.orders == before.w.Core().orders == credited.Core().orders == credited.orders;
    ClaimGrantsUsers(p, t, levels, pieces, rest);
    OthersKeepRoom(w, ClaimGrants(p, t, levels, pieces, rest), v);
  }

  // ---- peer rewards ----

  lemma PeerHead(head: seq<PeerLine>, tail: seq<PeerLine>)
    requires |head| <= 1
    ensures PeerGrants(head + tail) == PeerGrants(head) + PeerGrants(tail)
  {
    if head == [] {
      assert head + tail == tail;
    } else {
      assert (head + tail)[1..] == tail && head[1..] == [];
    }
  }

  function PeerBag(p: Params, t: Tree, levels: Levels, got: Gains, order: seq<nat>): multiset<Grant>
    requires p.scale > 0
  {
    Bag(order, (from: nat) => multiset(PeerGrants(PeerLineFrom(p, t, levels, got, from))))
  }

  lemma {:induction false} PeerGrantsBag(p: Params, t: Tree, levels: Levels, got: Gains, order: seq<nat>)
    requires p.scale > 0
    ensures multiset(PeerGrants(PeerLines(p, t, levels, got, order))) == PeerBag(p, t, levels, got, order)
  {
    if order != [] {
      var from, rest := order[0], order[1..];
      PeerGrantsBag(p, t, levels, got, rest);
      PeerHead(PeerLineFrom(p, t, levels, got, from), PeerLines(p, t, levels, got, rest));
      var f := (x: nat) => multiset(PeerGrants(PeerLineFrom(p, t, levels, got, x)));
      assert order == [] + [from] + rest && [] + rest == rest;
      BagSplit([], from, rest, f);
      assert PeerBag(p, t, levels, got, order) == f(from) + PeerBag(p, t, levels, got, rest);
    }
  }

  lemma {:induction false} PeerGrantsNonnegative(p: Params, t: Tree, levels: Levels, got: Gains, order: seq<nat>)
    requires p.scale > 0
    ensures Nonnegative(PeerGrants(PeerLines(p, t, levels, got, order)))
  {
    if order != [] {
      PeerGrantsNonnegative(p, t, levels, got, order[1..]);
      PeerHead(PeerLineFrom(p, t, levels, got, order[0]), PeerLines(p, t, levels, got, order[1..]));
    }
  }

  /** The map order in which a settlement meets the peer earners changes no order and no balance. */
  lemma MapOrderIrrelevant(p: Params, w: World, only: seq<nat>, a: seq<nat>, b: seq<nat>)
    requires p.scale > 0 && w.Valid()
    requires Schedule(p, w, only, a) && Schedule(p, w, only, b)
    ensures SettleOnce(p, w, only, a).Core() == SettleOnce(p, w, only, b).Core()
  {
    var r := SettleOrders(p, w, ActiveIds(w.orders, only));
    SettleOrdersValid(p, w, ActiveIds(w.orders, only));
    var got := BasePaid(p, w, only).got;
    var t, levels := r.w.Tree(), Grades(p, r.w);
    PeerGrantsBag(p, t, levels, got, a);
    PeerGrantsBag(p, t, levels, got, b);
    BagPermute(a, b, (from: nat) => multiset(PeerGrants(PeerLineFrom(p, t, levels, got, from))));
    assert PeerBag(p, t, levels, got, a) == PeerBag(p, t, levels, got, b);
    PeerGrantsNonnegative(p, r.w.Tree(), Grades(p, r.w), got, a);
    CreditOrderIrrelevant(BasePaid(p, w, only).w, PeerGrants(PeerPhase(p, w, only, a)),
                          PeerGrants(PeerPhase(p, w, only, b)), Peer);
  }
}
