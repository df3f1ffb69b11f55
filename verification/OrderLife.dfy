/** One order through a settlement: which rate step it takes, what it earns, and that it earns
    static yield at most once. */
module OrderLife {
  import opened Sums
  import opened Params
  import opened Rate
  import opened Orders
  import opened Community
  import opened Tables
  import opened Settlement
  import opened Accrual

  /** The rate fields an order can leave a settlement with. */
  ghost predicate CycleStep(p: Params, a: Cycle, b: Cycle)
  {
    b == a || b == Settle(p, a) || b == SettleNothing(a) || b == a.(turnPending := false)
  }

  /** An order still active after its turn advanced its rate and earned a full yield,
      unless its yield rounds to nothing. */
  ghost predicate Served(p: Params, a: Order, b: Order)
  {
    b.status.Active? ==>
      if StaticYield(a.amount, a.cycle.rate) <= 0 then b.cycle == SettleNothing(a.cycle)
      else b.cycle == Settle(p, a.cycle) && b.acc >= a.acc + StaticYield(a.amount, a.cycle.rate)
  }

  lemma GenerationsKeep(p: Params, w: World, from: nat, interest: int)
    requires p.scale > 0
    ensures SameShape(w, PayGenerations(p, w, from, interest)) && SameCycles(w, PayGenerations(p, w, from, interest))
  {
    PayUplinesShape(p, w, from, GenerationReward(p, interest), 1);
  }

  lemma SettleOrderOthers(p: Params, r: Run, j: nat, i: nat)
    requires p.scale > 0 && i < |r.w.orders| && i != j
    ensures SettleOrder(p, r, j).w.orders[i].cycle == r.w.orders[i].cycle
  {
    if j < |r.w.orders| {
      var o := r.w.orders[j];
      GenerationsKeep(p, PayInterest(p, r.w, j, Interest(o)), o.user, Interest(o));
    }
  }

  lemma SettleOrderSelf(p: Params, r: Run, i: nat)
    requires p.scale > 0 && r.w.Valid() && i < |r.w.orders|
    ensures CycleStep(p, r.w.orders[i].cycle, SettleOrder(p, r, i).w.orders[i].cycle)
    ensures Served(p, r.w.orders[i], SettleOrder(p, r, i).w.orders[i])
  {
    var o := r.w.orders[i];
    if o.status.Exited? {
      assert SettleOrder(p, r, i) == r;
    } else if o.target - o.acc > 0 && StaticYield(o.amount, o.cycle.rate) > 0 {
      var paid := PayInterest(p, r.w, i, Interest(o));
      InterestAccrues(p, r.w, i, Interest(o));
      GenerationsKeep(p, paid, o.user, Interest(o));
      GenerationsAccrue(p, paid, o.user, Interest(o));
      assert Moved(paid.orders[i], SettleOrder(p, r, i).w.orders[i]);
    }
  }

  /** Every order of the snapshot takes exactly one step, every other order none. */
  lemma {:induction false} SettleOrdersAt(p: Params, w: World, snapshot: seq<nat>, i: nat)
    requires p.scale > 0 && w.Valid() && i < |w.orders| && Distinct(snapshot)
    ensures SettleOrders(p, w, snapshot).w.Valid() && |SettleOrders(p, w, snapshot).w.orders| == |w.orders|
    ensures CycleStep(p, w.orders[i].cycle, SettleOrders(p, w, snapshot).w.orders[i].cycle)
    ensures i !in snapshot ==> SettleOrders(p, w, snapshot).w.orders[i].cycle == w.orders[i].cycle
    ensures i in snapshot ==> Served(p, w.orders[i], SettleOrders(p, w, snapshot).w.orders[i])
  {
    hide World.Valid, SettleOrder, CycleStep, Served, Accrues, SameGrades;
    SettleOrdersShape(p, w, snapshot);
    SettleOrdersValid(p, w, snapshot);
    if snapshot == [] {
      StaysPut(p, w.orders[i]);
    } else {
      var n := |snapshot| - 1;
      var rest, last := snapshot[..n], snapshot[n];
      var before := SettleOrders(p, w, rest);
      SettleOrdersAt(p, w, rest, i);
      SettledMoves(p, w, rest, last, i);
      assert snapshot == rest + [last];
      if last == i {
        assert i !in rest;
        SettleOrderSelf(p, before, i);
        StepLast(p, w.orders[i], before.w.orders[i], SettleOrder(p, before, i).w.orders[i]);
      } else {
        SettleOrderOthers(p, before, last, i);
        StepOther(p, w.orders[i], before.w.orders[i], SettleOrder(p, before, last).w.orders[i]);
      }
    }
  }

  lemma StaysPut(p: Params, o: Order)
    ensures CycleStep(p, o.cycle, o.cycle)
  {
  }

  lemma SettledMoves(p: Params, w: World, rest: seq<nat>, last: nat, i: nat)
    requires p.scale > 0 && w.Valid() && i < |w.orders|
    ensures var before := SettleOrders(p, w, rest);
            && before.w.Valid() && |before.w.orders| == |SettleOrder(p, before, last).w.orders| == |w.orders|
            && Moved(w.orders[i], before.w.orders[i])
            && Moved(before.w.orders[i], SettleOrder(p, before, last).w.orders[i])
            && before.w.orders[i].amount == w.orders[i].amount
  {
    hide World.Valid, SettleOrder, SettleOrders, Moved;
    SettleOrdersAccrue(p, w, rest);
    SettleOrdersShape(p, w, rest);
    SettleOrdersValid(p, w, rest);
    SettleOrderAccrues(p, SettleOrders(p, w, rest), last);
  }

  /** The order's own turn, after turns of others that may only have filled it. */
  lemma StepLast(p: Params, o: Order, a: Order, b: Order)
    requires a.cycle == o.cycle && a.amount == o.amount && Moved(o, a) && Moved(a, b)
    requires CycleStep(p, a.cycle, b.cycle) && Served(p, a, b)
    ensures CycleStep(p, o.cycle, b.cycle) && Served(p, o, b)
  {
  }

  lemma StepOther(p: Params, o: Order, a: Order, b: Order)
    requires b.cycle == a.cycle && Moved(a, b) && CycleStep(p, o.cycle, a.cycle)
    ensures CycleStep(p, o.cycle, b.cycle) && (Served(p, o, a) ==> Served(p, o, b))
  {
  }

  /** Ids of active orders, each once, ascending. */
  lemma {:induction false} ActiveIdsExact(orders: seq<Order>, only: seq<nat>)
    ensures var ids := ActiveIds(orders, only);
            && Distinct(ids)
            && (forall k :: 0 <= k < |ids| ==> ids[k] < |orders|)
            && (forall i: nat :: i in ids <==> i < |orders| && orders[i].status.Active? && (only == [] || i in only))
  {
    if orders != [] {
      var n := |orders| - 1;
      var rest := ActiveIds(orders[..n], only);
      ActiveIdsExact(orders[..n], only);
      forall i: nat
        ensures i in ActiveIds(orders, only) <==> i < |orders| && orders[i].status.Active? && (only == [] || i in only)
      {
        assert i < n ==> orders[..n][i] == orders[i];
        assert i in rest <==> i < n && orders[..n][i].status.Active? && (only == [] || i in only);
      }
      assert forall k :: 0 <= k < |rest| ==> rest[k] in rest;
    }
  }

  /** The community phases leave every rate alone and only raise progress. */
  lemma CommunityPhasesKeep(p: Params, w: World, only: seq<nat>, order: seq<nat>)
    requires p.scale > 0 && w.Valid()
    ensures var r := SettleOrders(p, w, ActiveIds(w.orders, only));
            SameCycles(r.w, SettleOnce(p, w, only, order)) && Accrues(r.w, SettleOnce(p, w, only, order))
  {
    var r := SettleOrders(p, w, ActiveIds(w.orders, only));
    SettleOrdersAccrue(p, w, ActiveIds(w.orders, only));
    r.w.TreeValid();
    hide World.Valid, Accrues, PayBase, CreditAll, SettleOrders, GradeOf, VolumeOf;
    var t, levels, sources := r.w.Tree(), Grades(p, r.w), SourcePieces(r.w, r.pieces);
    var graded := Graded(p, r.w);
    GradedAccrues(p, r.w);
    BaseAccrues(p, t, levels, sources, graded, r.w.ids);
    PayBaseShape(p, t, levels, sources, graded, r.w.ids);
    var base := BasePaid(p, w, only).w;
    CreditAllAccrues(base, PeerGrants(PeerPhase(p, w, only, order)), Peer);
    CreditAllShape(base, PeerGrants(PeerPhase(p, w, only, order)), Peer);
    AccruesTransitive(r.w, graded, base);
    AccruesTransitive(r.w, base, SettleOnce(p, w, only, order));
  }

  /** One order over a whole settlement. */
  lemma SettlementStep(p: Params, w: World, only: seq<nat>, order: seq<nat>, i: nat)
    requires p.scale > 0 && w.Valid() && i < |w.orders|
    ensures |SettleOnce(p, w, only, order).orders| == |w.orders|
    ensures CycleStep(p, w.orders[i].cycle, SettleOnce(p, w, only, order).orders[i].cycle)
    ensures only == [] && w.orders[i].status.Active? ==> Served(p, w.orders[i], SettleOnce(p, w, only, order).orders[i])
  {
    hide SettleOnce, SettleOrders, World.Valid, ActiveIds, CycleStep, Served;
    var snapshot := ActiveIds(w.orders, only);
    ActiveIdsExact(w.orders, only);
    SettleOrdersAt(p, w, snapshot, i);
    CommunityPhasesKeep(p, w, only, order);
    var a, b := SettleOrders(p, w, snapshot).w, SettleOnce(p, w, only, order);
    assert Moved(a.orders[i], b.orders[i]) && b.orders[i].cycle == a.orders[i].cycle;
    ServedLater(p, w.orders[i], a.orders[i], b.orders[i]);
  }

  lemma ServedLater(p: Params, o: Order, a: Order, b: Order)
    requires Moved(a, b) && b.cycle == a.cycle
    ensures Served(p, o, a) ==> Served(p, o, b)
  {
  }

  // ---- at most one static yield ----

  function PiecesFor(pieces: seq<Piece>, i: nat): nat
  {
    if pieces == [] then 0
    else PiecesFor(pieces[..|pieces| - 1], i) + if pieces[|pieces| - 1].order == i then 1 else 0
  }

  lemma SettleOrderPieces(p: Params, r: Run, j: nat, i: nat)
    requires p.scale > 0
    ensures PiecesFor(SettleOrder(p, r, j).pieces, i) <= PiecesFor(r.pieces, i) + if i == j then 1 else 0
    ensures j < |r.w.orders| && r.w.orders[j].status.Exited? ==> SettleOrder(p, r, j) == r
  {
    var s := SettleOrder(p, r, j);
    if s.pieces != r.pieces {
      assert s.pieces[..|s.pieces| - 1] == r.pieces;
    }
  }

  /** Each order of the snapshot earns static yield at most once, and not at all when it has
      exited before its turn (filled by another order's generation reward). */
  lemma {:induction false} StaticAtMostOnce(p: Params, w: World, snapshot: seq<nat>, i: nat)
    requires p.scale > 0 && Distinct(snapshot)
    ensures PiecesFor(SettleOrders(p, w, snapshot).pieces, i) <= if i in snapshot then 1 else 0
    ensures forall k :: 0 <= k < |snapshot| && snapshot[k] == i
              && i < |SettleOrders(p, w, snapshot[..k]).w.orders|
              && SettleOrders(p, w, snapshot[..k]).w.orders[i].status.Exited?
              ==> PiecesFor(SettleOrders(p, w, snapshot).pieces, i) == 0
  {
    if snapshot != [] {
      var n := |snapshot| - 1;
      var rest, last := snapshot[..n], snapshot[n];
      hide SettleOrder;
      StaticAtMostOnce(p, w, rest, i);
      SettleOrderPieces(p, SettleOrders(p, w, rest), last, i);
      assert snapshot == rest + [last];
      forall k | 0 <= k < |snapshot| && snapshot[k] == i
                 && i < |SettleOrders(p, w, snapshot[..k]).w.orders|
                 && SettleOrders(p, w, snapshot[..k]).w.orders[i].status.Exited?
        ensures PiecesFor(SettleOrders(p, w, snapshot).pieces, i) == 0
      {
        if k < n {
          assert rest[..k] == snapshot[..k] && rest[k] == i;
        } else {
          assert i !in rest;
        }
      }
    }
  }
}
