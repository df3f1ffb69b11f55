/** What a settlement keeps: order progress, reward entries and withdrawable balances rise
    together, order rows stay sound, exits are final. */
module Accrual {
  import opened Arith
  import opened Forest
  import opened Params
  import opened Rate
  import opened Orders
  import opened Community
  import opened Tables
  import opened Settlement

  /** Ledger total of u's earnings. */
  function RewardSum(ledger: seq<Entry>, u: nat): int
  {
    if ledger == [] then 0
    else
      var e := ledger[|ledger| - 1];
      RewardSum(ledger[..|ledger| - 1], u) + if e.user == u && e.kind.Reward() then e.amount else 0
  }

  /** Ledger total of one non-reward kind. */
  function KindSum(ledger: seq<Entry>, u: nat, kind: Kind): int
  {
    if ledger == [] then 0
    else
      var e := ledger[|ledger| - 1];
      KindSum(ledger[..|ledger| - 1], u, kind) + if e.user == u && e.kind == kind then e.amount else 0
  }

  lemma LedgerGrows(ledger: seq<Entry>, e: Entry, u: nat)
    ensures RewardSum(ledger + [e], u) == RewardSum(ledger, u) + if e.user == u && e.kind.Reward() then e.amount else 0
    ensures forall kind: Kind :: KindSum(ledger + [e], u, kind)
                        == KindSum(ledger, u, kind) + if e.user == u && e.kind == kind then e.amount else 0
  {
    assert (ledger + [e])[..|ledger|] == ledger;
  }

  function Withdrawable(w: World, u: nat): int
  {
    if u in w.users then w.users[u].withdrawable else 0
  }

  /** For every user, progress, earnings and balance move by the same amount; nothing else is booked. */
  ghost predicate Booked(a: World, b: World, u: nat)
  {
    && AccTotal(b.orders, u) - AccTotal(a.orders, u) == RewardSum(b.ledger, u) - RewardSum(a.ledger, u)
    && Withdrawable(b, u) - Withdrawable(a, u) == RewardSum(b.ledger, u) - RewardSum(a.ledger, u)
    && (forall kind: Kind :: !kind.Reward() ==> KindSum(b.ledger, u, kind) == KindSum(a.ledger, u, kind))
  }

  /** One order row's possible movement. */
  ghost predicate Moved(a: Order, b: Order)
  {
    && a.acc <= b.acc
    && (a.Sound() ==> b.Sound())
    && (a.status.Exited? ==> b.status.Exited?)
  }

  ghost predicate Accrues(a: World, b: World)
  {
    && |a.orders| == |b.orders|
    && (forall u: nat :: Booked(a, b, u))
    && (forall i :: 0 <= i < |a.orders| ==> Moved(a.orders[i], b.orders[i]))
  }

  lemma AccruesTransitive(a: World, b: World, c: World)
    requires Accrues(a, b) && Accrues(b, c)
    ensures Accrues(a, c)
  {
    forall u: nat
      ensures Booked(a, c, u)
    {
      assert Booked(a, b, u) && Booked(b, c, u);
    }
    forall i | 0 <= i < |a.orders|
      ensures Moved(a.orders[i], c.orders[i])
    {
      assert Moved(a.orders[i], b.orders[i]) && Moved(b.orders[i], c.orders[i]);
    }
  }

  lemma {:induction false} FillOthers(orders: seq<Order>, v: nat, amount: int, u: nat)
    requires u != v
    ensures AccTotal(Fill(orders, v, amount).0, u) == AccTotal(orders, u)
  {
    if orders != [] {
      var o := orders[0];
      var chunk := if amount > 0 && o.ActiveFor(v) then Min(amount, o.Room()) else 0;
      FillOthers(orders[1..], v, amount - chunk, u);
    }
  }

  lemma {:induction false} NoOrdersNoProgress(orders: seq<Order>, u: nat)
    requires forall i :: 0 <= i < |orders| ==> orders[i].user != u
    ensures ActiveRoom(orders, u) == 0 && AccTotal(orders, u) == 0 && AmountTotal(orders, u) == 0
  {
    if orders != [] {
      NoOrdersNoProgress(orders[1..], u);
    }
  }

  lemma CreditBookedOther(w: World, v: nat, amount: int, kind: Kind, u: nat)
    requires w.Valid() && kind.Reward() && u != v
    ensures Booked(w, Credit(w, v, amount, kind), u)
  {
    hide World.Valid, Applied, Fill;
    FillOthers(w.orders, v, amount, u);
    LedgerGrows(w.ledger, Entry(v, kind, Applied(w, v, amount)), u);
  }

  lemma CreditBookedSelf(w: World, v: nat, amount: int, kind: Kind)
    requires w.Valid() && kind.Reward() && amount > 0
    ensures Booked(w, Credit(w, v, amount, kind), v)
  {
    if v !in w.users {
      NoOrdersNoProgress(w.orders, v);
    }
    hide World.Valid, Fill, AccTotal, ActiveRoom, AmountTotal, RewardSum, KindSum;
    AppliedIsCapped(w, v, amount);
    FillExact(w.orders, v, amount);
    LedgerGrows(w.ledger, Entry(v, kind, Applied(w, v, amount)), v);
  }

  lemma CreditBooked(w: World, v: nat, amount: int, kind: Kind, u: nat)
    requires w.Valid() && kind.Reward()
    ensures Booked(w, Credit(w, v, amount, kind), u)
  {
    if u != v {
      CreditBookedOther(w, v, amount, kind, u);
    } else if amount > 0 {
      CreditBookedSelf(w, v, amount, kind);
    }
  }

  lemma CreditMoves(w: World, v: nat, amount: int, kind: Kind, i: nat)
    requires i < |w.orders|
    ensures Moved(w.orders[i], Credit(w, v, amount, kind).orders[i])
  {
    hide Fill, Applied;
    FillFrame(w.orders, v, amount, i);
    FillRaises(w.orders, v, amount, i);
  }

  lemma CreditAccrues(w: World, v: nat, amount: int, kind: Kind)
    requires w.Valid() && kind.Reward()
    ensures Accrues(w, Credit(w, v, amount, kind)) && Credit(w, v, amount, kind).Valid()
  {
    hide World.Valid, Booked, Moved, Credit;
    var after := Credit(w, v, amount, kind);
    forall u: nat
      ensures Booked(w, after, u)
    {
      CreditBooked(w, v, amount, kind, u);
    }
    forall i | 0 <= i < |w.orders|
      ensures Moved(w.orders[i], after.orders[i])
    {
      CreditMoves(w, v, amount, kind, i);
    }
    CreditShape(w, v, amount, kind);
    SameShapeValid(w, after);
  }

  lemma {:induction false} FillRaises(orders: seq<Order>, u: nat, amount: int, i: nat)
    requires i < |orders|
    ensures orders[i].acc <= Fill(orders, u, amount).0[i].acc
  {
    var o := orders[0];
    var chunk := if amount > 0 && o.ActiveFor(u) then Min(amount, o.Room()) else 0;
    if i > 0 {
      FillRaises(orders[1..], u, amount - chunk, i - 1);
    }
  }

  lemma AccruesReflexive(w: World)
    ensures Accrues(w, w)
  {
    forall u: nat
      ensures Booked(w, w, u)
    {
    }
  }

  lemma {:induction false} CreditAllAccrues(w: World, grants: seq<Grant>, kind: Kind)
    requires w.Valid() && kind.Reward()
    ensures Accrues(w, CreditAll(w, grants, kind)) && CreditAll(w, grants, kind).Valid()
    decreases |grants|
  {
    if grants == [] {
      AccruesReflexive(w);
    } else {
      hide World.Valid, Accrues, Credit;
      var w1 := Credit(w, grants[0].user, grants[0].amount, kind);
      CreditAccrues(w, grants[0].user, grants[0].amount, kind);
      CreditAllAccrues(w1, grants[1..], kind);
      AccruesTransitive(w, w1, CreditAll(w, grants, kind));
    }
  }

  lemma UplineAccrues(p: Params, w: World, inviter: nat, reward: int, depth: nat)
    requires w.Valid()
    ensures Accrues(w, PayUpline(p, w, inviter, reward, depth)) && PayUpline(p, w, inviter, reward, depth).Valid()
  {
    hide World.Valid, Accrues, Credit;
    AccruesReflexive(w);
    CreditAccrues(w, inviter, reward, Generation);
  }

  lemma {:induction false} UplinesAccrue(p: Params, w: World, current: nat, reward: int, depth: nat)
    requires w.Valid()
    ensures Accrues(w, PayUplines(p, w, current, reward, depth)) && PayUplines(p, w, current, reward, depth).Valid()
    decreases p.GenerationDepth() + 1 - depth
  {
    hide World.Valid, Accrues, PayUpline;
    if depth > p.GenerationDepth() || current !in w.users || w.users[current].inviter.None? {
      AccruesReflexive(w);
    } else {
      var inviter := w.users[current].inviter.value;
      var paid := PayUpline(p, w, inviter, reward, depth);
      UplineAccrues(p, w, inviter, reward, depth);
      UplinesAccrue(p, paid, inviter, reward, depth + 1);
      AccruesTransitive(w, paid, PayUplines(p, w, current, reward, depth));
    }
  }

  lemma GenerationsAccrue(p: Params, w: World, from: nat, interest: int)
    requires p.scale > 0 && w.Valid()
    ensures Accrues(w, PayGenerations(p, w, from, interest)) && PayGenerations(p, w, from, interest).Valid()
  {
    hide World.Valid, Accrues, PayUplines;
    AccruesReflexive(w);
    UplinesAccrue(p, w, from, GenerationReward(p, interest), 1);
  }

  lemma {:induction false} AccTotalUpdate(orders: seq<Order>, i: nat, o: Order, u: nat)
    requires i < |orders| && o.user == orders[i].user
    ensures AccTotal(orders[i := o], u) == AccTotal(orders, u) + if o.user == u then o.acc - orders[i].acc else 0
  {
    if i == 0 {
      assert orders[i := o][1..] == orders[1..];
    } else {
      assert orders[i := o][1..] == orders[1..][i - 1 := o];
      AccTotalUpdate(orders[1..], i - 1, o, u);
    }
  }

  lemma InterestAccrues(p: Params, w: World, i: nat, interest: int)
    requires w.Valid() && i < |w.orders| && w.orders[i].status.Active?
    requires 0 < interest <= w.orders[i].target - w.orders[i].acc
    ensures Accrues(w, PayInterest(p, w, i, interest)) && PayInterest(p, w, i, interest).Valid()
  {
    var o := w.orders[i];
    var after := PayInterest(p, w, i, interest);
    var o' := EarnInterest(p, o, interest);
    assert after.orders == w.orders[i := o'] && o'.acc == o.acc + interest;
    forall u: nat
      ensures Booked(w, after, u)
    {
      AccTotalUpdate(w.orders, i, o', u);
      LedgerGrows(w.ledger, Entry(o.user, Static, interest), u);
    }
    forall k | 0 <= k < |w.orders|
      ensures Moved(w.orders[k], after.orders[k])
    {
    }
    assert SameShape(w, after);
    SameShapeValid(w, after);
  }

  /** Rewriting one row without touching its progress books nothing. */
  lemma RowAccrues(w: World, i: nat, o: Order)
    requires w.Valid() && i < |w.orders| && Moved(w.orders[i], o) && o.acc == w.orders[i].acc
    requires o.user == w.orders[i].user && o.amount == w.orders[i].amount && o.target == w.orders[i].target
    ensures Accrues(w, w.(orders := w.orders[i := o])) && w.(orders := w.orders[i := o]).Valid()
  {
    var after := w.(orders := w.orders[i := o]);
    forall u: nat
      ensures Booked(w, after, u)
    {
      AccTotalUpdate(w.orders, i, o, u);
    }
    assert SameShape(w, after);
    SameShapeValid(w, after);
  }

  /** One pass of the settle loop.  An order another order's generation reward has already
      filled earns nothing. */
  lemma SettleOrderAccrues(p: Params, r: Run, i: nat)
    requires p.scale > 0 && r.w.Valid()
    ensures Accrues(r.w, SettleOrder(p, r, i).w) && SettleOrder(p, r, i).w.Valid()
  {
    hide World.Valid, Accrues, PayGenerations, PayInterest;
    if i >= |r.w.orders| || r.w.orders[i].status.Exited? {
      AccruesReflexive(r.w);
    } else {
      var o := r.w.orders[i];
      if o.target - o.acc <= 0 {
        RowAccrues(r.w, i, o.(status := Exited, cycle := o.cycle.(turnPending := false)));
      } else if StaticYield(o.amount, o.cycle.rate) <= 0 {
        RowAccrues(r.w, i, o.(cycle := SettleNothing(o.cycle)));
      } else {
        var w1 := PayInterest(p, r.w, i, Interest(o));
        InterestAccrues(p, r.w, i, Interest(o));
        GenerationsAccrue(p, w1, o.user, Interest(o));
        AccruesTransitive(r.w, w1, SettleOrder(p, r, i).w);
      }
    }
  }

  lemma {:induction false} SettleOrdersAccrue(p: Params, w: World, snapshot: seq<nat>)
    requires p.scale > 0 && w.Valid()
    ensures Accrues(w, SettleOrders(p, w, snapshot).w) && SettleOrders(p, w, snapshot).w.Valid()
  {
    hide World.Valid, Accrues, SettleOrder;
    if snapshot == [] {
      AccruesReflexive(w);
    } else {
      var rest := snapshot[..|snapshot| - 1];
      SettleOrdersAccrue(p, w, rest);
      SettleOrderAccrues(p, SettleOrders(p, w, rest), snapshot[|snapshot| - 1]);
      AccruesTransitive(w, SettleOrders(p, w, rest).w, SettleOrders(p, w, snapshot).w);
    }
  }

  lemma GradedAccrues(p: Params, w: World)
    requires w.Valid()
    ensures Accrues(w, Graded(p, w)) && Graded(p, w).Valid()
  {
    hide VolumeOf, GradeOf;
    GradedShape(p, w);
    SameShapeValid(w, Graded(p, w));
    forall u: nat
      ensures Booked(w, Graded(p, w), u)
    {
    }
  }

  lemma {:induction false} BaseAccrues(p: Params, t: Tree, levels: Levels, pieces: Pieces, w: World, users: seq<nat>)
    requires p.scale > 0 && t.Valid() && w.Valid()
    ensures Accrues(w, PayBase(p, t, levels, pieces, w, users).w) && PayBase(p, t, levels, pieces, w, users).w.Valid()
  {
    hide World.Valid, Accrues, BaseLines, CreditAll;
    if users == [] {
      AccruesReflexive(w);
    } else {
      var rest, u := users[..|users| - 1], users[|users| - 1];
      var before := PayBase(p, t, levels, pieces, w, rest).w;
      BaseAccrues(p, t, levels, pieces, w, rest);
      CreditAllAccrues(before, LineGrants(u, BaseLines(p, t, levels, pieces, u)), CommunityBase);
      AccruesTransitive(w, before, PayBase(p, t, levels, pieces, w, users).w);
    }
  }

  /** A whole settlement, for every tree, order set, lock pattern and map order. */
  lemma SettlementAccrues(p: Params, w: World, only: seq<nat>, order: seq<nat>)
    requires p.scale > 0 && w.Valid()
    ensures Accrues(w, SettleOnce(p, w, only, order)) && SettleOnce(p, w, only, order).Valid()
  {
    var r := SettleOrders(p, w, ActiveIds(w.orders, only));
    SettleOrdersAccrue(p, w, ActiveIds(w.orders, only));
    r.w.TreeValid();
    hide World.Valid, Accrues, PayBase, CreditAll, SettleOrders;
    GradedAccrues(p, r.w);
    BaseAccrues(p, r.w.Tree(), Grades(p, r.w), SourcePieces(r.w, r.pieces), Graded(p, r.w), r.w.ids);
    var base := BasePaid(p, w, only).w;
    CreditAllAccrues(base, PeerGrants(PeerPhase(p, w, only, order)), Peer);
    AccruesTransitive(w, r.w, Graded(p, r.w));
    AccruesTransitive(w, Graded(p, r.w), base);
    AccruesTransitive(w, base, SettleOnce(p, w, only, order));
  }
}
