/** Rates, withdrawal turns and exit times over any history. */
module RunRates {
  import opened Arith
  import opened Params
  import opened Rate
  import opened Orders
  import opened Tables
  import opened Settlement
  import opened Accrual
  import opened OrderLife
  import opened Runs
  import opened RunBooks
  import U = UseCases

  // ---- one step ----

  /** A row keeps its terms; its progress never falls and an exit is final. */
  ghost predicate Kept(a: Order, b: Order)
  {
    b.user == a.user && b.amount == a.amount && b.target == a.target && Moved(a, b)
  }

  lemma SettleKeepsRow(p: Params, w: World, only: seq<nat>, order: seq<nat>, i: nat)
    requires p.scale > 0 && w.Valid() && i < |w.orders|
    ensures |SettleOnce(p, w, only, order).orders| == |w.orders|
    ensures Kept(w.orders[i], SettleOnce(p, w, only, order).orders[i])
  {
    hide SettleOnce, World.Valid;
    SettlementAccrues(p, w, only, order);
    SettlementShape(p, w, only, order);
    assert Moved(w.orders[i], SettleOnce(p, w, only, order).orders[i]);
  }

  lemma ApplyKeepsRow(s: Setting, w: World, op: Op, i: nat)
    requires s.p.scale > 0 && w.Valid() && i < |w.orders|
    ensures i < |Apply(s, w, op).orders| && Kept(w.orders[i], Apply(s, w, op).orders[i])
    ensures !op.Settle? && !op.Extract? ==> Apply(s, w, op).orders[i] == w.orders[i]
    ensures op.Extract? ==> Apply(s, w, op).orders[i] == w.orders[i]
                            || Apply(s, w, op).orders[i] == w.orders[i].(cycle := Turn(s.p, w.orders[i].cycle))
  {
    hide World.Valid, SettleOnce, U.FindByAddress, U.NewPath;
    match op
    case CancelPending => CancelKeepsOrders(w, |w.withdraws|);
    case Settle(only, order) => SettleKeepsRow(s.p, w, only, order, i);
    case _ =>
  }

  // ---- rates ----

  ghost predicate RatesInRange(p: Params, w: World)
  {
    forall i :: 0 <= i < |w.orders| ==> CycleInRange(p, w.orders[i].cycle)
  }

  ghost predicate RatesOnCycle(p: Params, n: nat, w: World)
  {
    forall i :: 0 <= i < |w.orders| ==> CycleInv(p, n, w.orders[i].cycle)
  }

  lemma StepInRange(p: Params, a: Cycle, b: Cycle)
    requires p.RateRange() && CycleInRange(p, a) && (CycleStep(p, a, b) || b == Turn(p, a))
    ensures CycleInRange(p, b)
  {
  }

  lemma StepOnCycle(p: Params, n: nat, a: Cycle, b: Cycle)
    requires OnGrid(p, n) && CycleInv(p, n, a) && (CycleStep(p, a, b) || b == Turn(p, a))
    ensures CycleInv(p, n, b)
  {
    SettleKeepsCycle(p, n, a);
    TurnNeverRaises(p, n, a);
  }

  lemma SameCycleStep(p: Params, c: Cycle)
    ensures CycleStep(p, c, c)
  {
  }

  /** Where any row's rate fields can come from in one step. */
  lemma ApplyCycle(s: Setting, w: World, op: Op, i: nat)
    requires s.p.scale > 0 && w.Valid() && i < |Apply(s, w, op).orders|
    ensures i < |w.orders| ==> CycleStep(s.p, w.orders[i].cycle, Apply(s, w, op).orders[i].cycle)
                               || Apply(s, w, op).orders[i].cycle == Turn(s.p, w.orders[i].cycle)
    ensures i >= |w.orders| ==> Apply(s, w, op).orders[i].cycle == InitialCycle(s.p)
  {
    hide World.Valid, SettleOnce, U.FindByAddress, U.NewPath, AdvanceRate, CycleStep, Moved;
    if i < |w.orders| {
      ApplyKeepsRow(s, w, op, i);
      SameCycleStep(s.p, w.orders[i].cycle);
      if op.Settle? {
        SettlementStep(s.p, w, op.only, op.order, i);
      }
    } else {
      match op
      case CancelPending => CancelKeepsOrders(w, |w.withdraws|);
      case Settle(only, order) => SettlementShape(s.p, w, only, order);
      case _ =>
    }
  }

  lemma {:induction false} RatesInRangeOverRuns(s: Setting, w: World, ops: seq<Op>)
    requires s.p.scale > 0 && s.p.RateRange() && w.Valid() && RatesInRange(s.p, w)
    ensures RatesInRange(s.p, After(s, w, ops))
    decreases |ops|
  {
    if ops != [] {
      var w1 := Apply(s, w, ops[0]);
      ApplyValid(s, w, ops[0]);
      hide World.Valid, Apply, CycleStep, CycleInRange;
      forall i | 0 <= i < |w1.orders|
        ensures CycleInRange(s.p, w1.orders[i].cycle)
      {
        ApplyCycle(s, w, ops[0], i);
        if i < |w.orders| {
          StepInRange(s.p, w.orders[i].cycle, w1.orders[i].cycle);
        } else {
          InitialInRange(s.p);
        }
      }
      RatesInRangeOverRuns(s, w1, ops[1..]);
    }
  }

  lemma InitialInRange(p: Params)
    requires p.RateRange()
    ensures CycleInRange(p, InitialCycle(p))
  {
  }

  /** Over any interleaving of settlements, withdrawals and everything else, every order stays on
      the triangle cycle, with its last settled rate at most one step above. */
  lemma {:induction false} RatesOnCycleOverRuns(s: Setting, n: nat, w: World, ops: seq<Op>)
    requires s.p.scale > 0 && OnGrid(s.p, n) && w.Valid() && RatesOnCycle(s.p, n, w)
    ensures RatesOnCycle(s.p, n, After(s, w, ops))
    decreases |ops|
  {
    if ops != [] {
      var w1 := Apply(s, w, ops[0]);
      ApplyValid(s, w, ops[0]);
      hide World.Valid, Apply, CycleStep, CycleInv;
      forall i | 0 <= i < |w1.orders|
        ensures CycleInv(s.p, n, w1.orders[i].cycle)
      {
        ApplyCycle(s, w, ops[0], i);
        if i < |w.orders| {
          StepOnCycle(s.p, n, w.orders[i].cycle, w1.orders[i].cycle);
        } else {
          InitialCycleInv(s.p, n);
        }
      }
      RatesOnCycleOverRuns(s, n, w1, ops[1..]);
    }
  }

  ghost predicate RatesTame(p: Params, w: World)
  {
    forall i :: 0 <= i < |w.orders| ==> Tame(p, w.orders[i].cycle)
  }

  lemma {:induction false} RatesTameOverRuns(s: Setting, w: World, ops: seq<Op>)
    requires s.p.scale > 0 && s.p.RateRange() && w.Valid() && RatesTame(s.p, w)
    ensures RatesTame(s.p, After(s, w, ops))
    decreases |ops|
  {
    if ops != [] {
      var w1 := Apply(s, w, ops[0]);
      ApplyValid(s, w, ops[0]);
      hide World.Valid, Apply, Tame, Turn;
      forall i | 0 <= i < |w1.orders|
        ensures Tame(s.p, w1.orders[i].cycle)
      {
        ApplyCycle(s, w, ops[0], i);
        StaysTame(s.p, if i < |w.orders| then w.orders[i].cycle else w1.orders[i].cycle);
      }
      RatesTameOverRuns(s, w1, ops[1..]);
    }
  }

  /** After any history, for every positive step: a withdrawal raises no order's rate above the one
      it would have settled at, and when it turns an order, that order settles above its last
      settled rate exactly when that lies strictly between the minimum and one step above it. */
  lemma WithdrawalNeverRaises(s: Setting, w: World, ops: seq<Op>, user: nat, amount: int, i: nat)
    requires s.p.scale > 0 && s.p.RateRange() && w.Valid() && RatesTame(s.p, w)
    requires i < |After(s, w, ops).orders|
    ensures var before := After(s, w, ops);
            var after := Apply(s, before, Op.Extract(user, amount));
            && i < |after.orders|
            && after.orders[i].cycle.rate <= before.orders[i].cycle.rate
            && (after.orders[i] != before.orders[i] ==>
                  && before.orders[i].cycle.lastSettled.Some?
                  && var last := before.orders[i].cycle.lastSettled.value;
                  (after.orders[i].cycle.rate > last
                   <==> s.p.rateMin < last < Min(s.p.rateMin + s.p.rateStep, s.p.rateMax)))
  {
    hide World.Valid, Apply, Tame, Turn;
    var before := After(s, w, ops);
    RatesTameOverRuns(s, w, ops);
    ApplyKeepsRow(s, before, Op.Extract(user, amount), i);
    TurnBound(s.p, before.orders[i].cycle);
  }

  /** On the grid a withdrawal never raises an order's next rate above its last settled one. */
  lemma WithdrawalOnGrid(s: Setting, n: nat, w: World, ops: seq<Op>, user: nat, amount: int, i: nat)
    requires s.p.scale > 0 && OnGrid(s.p, n) && w.Valid() && RatesOnCycle(s.p, n, w)
    requires i < |After(s, w, ops).orders|
    ensures var before := After(s, w, ops);
            var after := Apply(s, before, Op.Extract(user, amount));
            && i < |after.orders|
            && (after.orders[i] != before.orders[i] ==>
                  before.orders[i].cycle.lastSettled.Some?
                  && after.orders[i].cycle.rate <= before.orders[i].cycle.lastSettled.value)
  {
    hide World.Valid, Apply, CycleInv, Turn;
    var before := After(s, w, ops);
    RatesOnCycleOverRuns(s, n, w, ops);
    ApplyKeepsRow(s, before, Op.Extract(user, amount), i);
    TurnNeverRaises(s.p, n, before.orders[i].cycle);
  }

  // ---- one turn per settlement ----

  ghost predicate NoSettlement(ops: seq<Op>)
  {
    forall k :: 0 <= k < |ops| ==> !ops[k].Settle?
  }

  lemma {:induction false} TurnedStays(s: Setting, w: World, ops: seq<Op>, i: nat)
    requires s.p.scale > 0 && w.Valid() && i < |w.orders| && NoSettlement(ops)
    requires Turn(s.p, w.orders[i].cycle) == w.orders[i].cycle
    ensures i < |After(s, w, ops).orders| && After(s, w, ops).orders[i] == w.orders[i]
    decreases |ops|
  {
    if ops != [] {
      ApplyValid(s, w, ops[0]);
      ApplyKeepsRow(s, w, ops[0], i);
      hide World.Valid, Apply, Turn;
      assert forall k :: 0 <= k < |ops[1..]| ==> ops[1..][k] == ops[k + 1];
      TurnedStays(s, Apply(s, w, ops[0]), ops[1..], i);
    }
  }

  /** Until the next settlement, nothing after a user's first accepted withdrawal moves any of
      that user's active orders; further withdrawals in particular do not. */
  lemma OneTurnPerSettlement(s: Setting, w: World, user: nat, amount: int, ops: seq<Op>, i: nat)
    requires s.p.scale > 0 && w.Valid() && i < |w.orders| && w.orders[i].ActiveFor(user) && NoSettlement(ops)
    requires Attempt(s, w, Op.Extract(user, amount)).Done?
    ensures var first := Apply(s, w, Op.Extract(user, amount));
            && first.Valid() && i < |first.orders|
            && i < |After(s, first, ops).orders|
            && After(s, first, ops).orders[i] == first.orders[i]
  {
    var first := Apply(s, w, Op.Extract(user, amount));
    ApplyValid(s, w, Op.Extract(user, amount));
    TurnOnce(s.p, w.orders[i].cycle);
    assert first.orders[i] == w.orders[i].(cycle := Turn(s.p, w.orders[i].cycle)) by {
      hide World.Valid;
    }
    TurnedStays(s, first, ops, i);
  }

  // ---- exit time ----

  /** Settlements over all active orders in a history. */
  function FullSettlements(ops: seq<Op>): nat
  {
    if ops == [] then 0
    else (if ops[0].Settle? && ops[0].only == [] then 1 else 0) + FullSettlements(ops[1..])
  }

  lemma YieldAtLeastMinimum(p: Params, amount: int, rate: int)
    requires p.RateRange() && InRange(p, rate) && amount >= 0
    ensures StaticYield(amount, p.rateMin) <= StaticYield(amount, rate)
  {
    assert amount * (rate - p.rateMin) >= 0;
    RoundDivMonotone(amount * p.rateMin, amount * rate, 10000);
  }

  /** b is a after k settlements that each brought at least y, or it has exited. */
  ghost predicate Progressed(a: Order, b: Order, k: int, y: int)
  {
    b.status.Exited? || b.acc >= a.acc + k * y
  }

  lemma KeptAmount(a: Order, b: Order)
    requires Kept(a, b)
    ensures b.amount == a.amount
  {
  }

  lemma KeptTransitive(a: Order, b: Order, c: Order)
    requires Kept(a, b) && Kept(b, c)
    ensures Kept(a, c)
  {
  }

  lemma ProgressAdds(a: Order, b: Order, c: Order, j: int, k: int, y: int)
    requires Progressed(a, b, j, y) && Progressed(b, c, k, y) && Kept(b, c)
    ensures Progressed(a, c, j + k, y)
  {
    assert (j + k) * y == j * y + k * y;
  }

  lemma KeptProgress(p: Params, a: Order, b: Order, y: int)
    requires Kept(a, b)
    ensures Progressed(a, b, 0, y)
    ensures a.status.Exited? ==> Progressed(a, b, 1, y)
  {
  }

  lemma ServedProgress(p: Params, a: Order, b: Order)
    requires p.RateRange() && CycleInRange(p, a.cycle) && a.amount >= 0 && StaticYield(a.amount, p.rateMin) > 0
    requires Served(p, a, b)
    ensures Progressed(a, b, 1, StaticYield(a.amount, p.rateMin))
  {
    YieldAtLeastMinimum(p, a.amount, a.cycle.rate);
  }

  /** Each full settlement brings an active order at least the yield at the lowest rate. */
  lemma StepTowardsExit(s: Setting, w: World, op: Op, i: nat)
    requires s.p.scale > 0 && s.p.RateRange() && w.Valid() && RatesInRange(s.p, w) && i < |w.orders|
    requires w.orders[i].amount >= 0 && StaticYield(w.orders[i].amount, s.p.rateMin) > 0
    ensures i < |Apply(s, w, op).orders| && Kept(w.orders[i], Apply(s, w, op).orders[i])
    ensures Progressed(w.orders[i], Apply(s, w, op).orders[i], FullSettlements([op]),
                       StaticYield(w.orders[i].amount, s.p.rateMin))
  {
    hide World.Valid, SettleOnce, StaticYield, Progressed, Kept, Served, RatesInRange, CycleInRange, Apply, FullSettlements;
    ApplyKeepsRow(s, w, op, i);
    var a, b, y := w.orders[i], Apply(s, w, op).orders[i], StaticYield(w.orders[i].amount, s.p.rateMin);
    KeptProgress(s.p, a, b, y);
    CountOne(op);
    if op.Settle? && op.only == [] && a.status.Active? {
      RateAt(s.p, w, i);
      SettleServes(s, w, op, i);
      ServedProgress(s.p, a, b);
    }
  }

  lemma CountOne(op: Op)
    ensures FullSettlements([op]) == if op.Settle? && op.only == [] then 1 else 0
  {
    assert [op][1..] == [];
  }

  lemma RateAt(p: Params, w: World, i: nat)
    requires RatesInRange(p, w) && i < |w.orders|
    ensures CycleInRange(p, w.orders[i].cycle)
  {
  }

  lemma SettleServes(s: Setting, w: World, op: Op, i: nat)
    requires s.p.scale > 0 && w.Valid() && i < |w.orders| && op.Settle? && op.only == [] && w.orders[i].status.Active?
    ensures i < |Apply(s, w, op).orders| && Served(s.p, w.orders[i], Apply(s, w, op).orders[i])
  {
    hide World.Valid, SettleOnce, Served, CycleStep;
    SettlementStep(s.p, w, op.only, op.order, i);
  }

  lemma {:induction false} ProgressOverRuns(s: Setting, w: World, ops: seq<Op>, i: nat)
    requires s.p.scale > 0 && s.p.RateRange() && w.Valid() && RatesInRange(s.p, w) && i < |w.orders|
    requires w.orders[i].amount >= 0 && StaticYield(w.orders[i].amount, s.p.rateMin) > 0
    ensures i < |After(s, w, ops).orders| && Kept(w.orders[i], After(s, w, ops).orders[i])
    ensures Progressed(w.orders[i], After(s, w, ops).orders[i], FullSettlements(ops),
                       StaticYield(w.orders[i].amount, s.p.rateMin))
    decreases |ops|
  {
    if ops != [] {
      var w1 := Apply(s, w, ops[0]);
      ApplyValid(s, w, ops[0]);
      StepTowardsExit(s, w, ops[0], i);
      RatesInRangeOverRuns(s, w, [ops[0]]);
      AfterOne(s, w, ops[0]);
      hide World.Valid, Apply, StaticYield, RatesInRange, Progressed, FullSettlements, Kept;
      KeptAmount(w.orders[i], w1.orders[i]);
      ProgressOverRuns(s, w1, ops[1..], i);
      FullSettlementsHead(ops);
      var last := After(s, w1, ops[1..]);
      assert last == After(s, w, ops);
      KeptTransitive(w.orders[i], w1.orders[i], last.orders[i]);
      ProgressAdds(w.orders[i], w1.orders[i], last.orders[i],
                   FullSettlements([ops[0]]), FullSettlements(ops[1..]), StaticYield(w.orders[i].amount, s.p.rateMin));
    }
  }

  lemma FullSettlementsHead(ops: seq<Op>)
    requires ops != []
    ensures FullSettlements(ops) == FullSettlements([ops[0]]) + FullSettlements(ops[1..])
  {
    assert [ops[0]][1..] == [];
  }

  /** Exit-time bound: enough full settlements to cover the remaining target at the lowest rate
      have exited the order, whatever withdrawals and rewards happen in between. */
  lemma ExitsInTime(s: Setting, w: World, ops: seq<Op>, i: nat)
    requires s.p.scale > 0 && SaneOrders(s.p) && s.p.RateRange()
    requires w.Valid() && SoundOrders(w) && RatesInRange(s.p, w) && i < |w.orders|
    requires w.orders[i].amount >= 0 && StaticYield(w.orders[i].amount, s.p.rateMin) > 0
    requires FullSettlements(ops) * StaticYield(w.orders[i].amount, s.p.rateMin) >= w.orders[i].target - w.orders[i].acc
    ensures i < |After(s, w, ops).orders|
    ensures After(s, w, ops).orders[i].status.Exited? && After(s, w, ops).orders[i].acc == w.orders[i].target
  {
    ProgressOverRuns(s, w, ops, i);
    OrdersSoundOverRuns(s, w, ops);
    assert After(s, w, ops).orders[i].Sound();
  }
}
