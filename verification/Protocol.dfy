/** What a settlement leaves as grades, and the bounds under the agreed parameters
    (params.go, DefaultBusinessParams). */
module Protocol {
  import opened Arith
  import opened Params
  import opened Rate
  import opened Orders
  import opened Community
  import opened Volumes
  import opened Tables
  import opened Settlement
  import opened SettlementBound
  import opened Runs
  import opened RunBooks
  import opened RunRates
  import opened RunLevels
  import opened SubscriptionRule
  import U = UseCases

  // ---- grades ----

  /** The static phase moves no subscription amount, so it moves no grade. */
  lemma StaticKeepsGrades(p: Params, w: World, snapshot: seq<nat>, u: nat)
    requires p.scale > 0 && w.Valid() && u in w.users
    ensures SettleOrders(p, w, snapshot).w.Valid()
    ensures VolumeOf(SettleOrders(p, w, snapshot).w, u) == VolumeOf(w, u)
    ensures GradeOf(p, SettleOrders(p, w, snapshot).w, u) == GradeOf(p, w, u)
  {
    hide World.Valid, World.Tree, GradingVolume, SettleOrders;
    var after := SettleOrders(p, w, snapshot).w;
    SettleOrdersShape(p, w, snapshot);
    SettleOrdersValid(p, w, snapshot);
    forall x | x in w.users
      ensures PersonalVolumes(after)[x] == PersonalVolumes(w)[x]
    {
      TotalsSame(w.orders, after.orders, x);
    }
    assert PersonalVolumes(after) == PersonalVolumes(w);
  }

  /** After a settlement every user's stored volume is the small area of the tree as it was, and
      the stored level is what that volume grades to, unless it is locked. */
  lemma SettlementGrades(p: Params, w: World, only: seq<nat>, order: seq<nat>, u: nat)
    requires p.scale > 0 && w.Valid() && u in w.users
    ensures var after := SettleOnce(p, w, only, order);
            && u in after.users
            && after.users[u].volume == VolumeOf(w, u)
            && after.users[u].level == if w.users[u].levelLocked then w.users[u].level else p.LevelFor(VolumeOf(w, u))
  {
    var r := SettleOrders(p, w, ActiveIds(w.orders, only));
    SettleOrdersShape(p, w, ActiveIds(w.orders, only));
    StaticKeepsGrades(p, w, ActiveIds(w.orders, only), u);
    r.w.TreeValid();
    hide World.Valid, World.Tree, SettleOrders, PayBase, CreditAll, PeerLines, VolumeOf;
    var graded := Graded(p, r.w);
    PayBaseShape(p, r.w.Tree(), Grades(p, r.w), SourcePieces(r.w, r.pieces), graded, r.w.ids);
    CreditAllShape(BasePaid(p, w, only).w, PeerGrants(PeerPhase(p, w, only, order)), Peer);
  }

  /** From one settlement to any later one, whatever happens in between, the stored volume does
      not shrink and the stored level of a user never locked at a settlement does not fall. */
  lemma StoredLevelsNeverFall(s: Setting, w: World, only: seq<nat>, order: seq<nat>, ops: seq<Op>, later: seq<nat>, order': seq<nat>, u: nat)
    requires s.p.scale > 0 && w.Valid() && PositiveAmounts(w) && u in w.users
    ensures var first := Apply(s, w, Settle(only, order));
            && first.Valid()
            && var between := After(s, first, ops);
            var last := Apply(s, between, Settle(later, order'));
            && u in first.users && u in between.users && u in last.users
            && first.users[u].volume <= last.users[u].volume
            && (!w.users[u].levelLocked && !between.users[u].levelLocked ==> first.users[u].level <= last.users[u].level)
  {
    hide World.Valid, SettleOnce, VolumeOf;
    var op := Settle(only, order);
    ApplyValid(s, w, op);
    var first := Apply(s, w, op);
    var between := After(s, first, ops);
    assert ([op] + ops)[1..] == ops;
    assert After(s, w, [op] + ops) == between;
    LevelsNeverFall(s, w, [op] + ops, u);
    SettlementGrades(s.p, w, only, order, u);
    SettlementGrades(s.p, between, later, order', u);
  }

  lemma ApplyGradesTo9(s: Setting, w: World, op: Op)
    requires s.p.scale > 0 && s.p.TiersTo9() && w.Valid() && GradesTo9(w)
    ensures GradesTo9(Apply(s, w, op))
  {
    hide World.Valid, U.FindByAddress, U.NewPath, U.TurnOrders, SettleOnce;
    match op
    case Settle(only, order) => SettleGradesTo9(s.p, w, only, order);
    case CancelPending => CancelKeepsGrades(w, |w.withdraws|);
    case _ => FoundAddresses(w, op);
  }

  lemma SettleGradesTo9(p: Params, w: World, only: seq<nat>, order: seq<nat>)
    requires p.scale > 0 && p.TiersTo9() && w.Valid() && GradesTo9(w)
    ensures GradesTo9(SettleOnce(p, w, only, order))
  {
    var after := SettleOnce(p, w, only, order);
    SettlementShape(p, w, only, order);
    hide World.Valid, SettleOnce, VolumeOf;
    forall x | x in after.users
      ensures after.users[x].level <= 9
    {
      SettlementGrades(p, w, only, order, x);
      assert p.LevelFor(VolumeOf(w, x)) <= 9;
    }
  }

  lemma FoundAddresses(w: World, op: Op)
    ensures op.AdminDeposit? || op.SetAccount? || op.SetWithdrawable? ==>
              var r := U.FindByAddress(w.ids, w.users, op.address);
              r.Some? ==> r.value in w.users
  {
    if op.AdminDeposit? || op.SetAccount? || op.SetWithdrawable? {
      FoundAddress(w.ids, w.users, op.address);
    }
  }

  lemma {:induction false} CancelKeepsGrades(w: World, n: nat)
    requires n <= |w.withdraws| && GradesTo9(w)
    ensures GradesTo9(U.CancelPending(w, n))
    decreases n
  {
    if n > 0 {
      var x := w.withdraws[n - 1];
      CancelKeepsGrades(if x.status.Pending? then U.Refunded(w, n - 1) else w, n - 1);
    }
  }

  lemma {:induction false} GradesTo9OverRuns(s: Setting, w: World, ops: seq<Op>)
    requires s.p.scale > 0 && s.p.TiersTo9() && w.Valid() && GradesTo9(w)
    ensures GradesTo9(After(s, w, ops))
    decreases |ops|
  {
    if ops != [] {
      ApplyValid(s, w, ops[0]);
      ApplyGradesTo9(s, w, ops[0]);
      hide World.Valid, Apply, GradesTo9;
      GradesTo9OverRuns(s, Apply(s, w, ops[0]), ops[1..]);
    }
  }

  // ---- the agreed parameters ----

  /** Reward and fee rates in hundredths, order rates in hundredths of a percent, multipliers in
      tenths, amounts in money units. */
  const Agreed: Params := Params(
    100, 6, 5, 10, 10, 3, 60, 140, 5, 100 * U.USDT,
    [MultiplierTier(Some(1000 * U.USDT), 20), MultiplierTier(Some(3000 * U.USDT), 25), MultiplierTier(None, 30)],
    [CommunityTier(9, 20000000 * U.USDT, 60), CommunityTier(8, 10000000 * U.USDT, 55), CommunityTier(7, 5000000 * U.USDT, 50),
     CommunityTier(6, 1500000 * U.USDT, 45), CommunityTier(5, 500000 * U.USDT, 40), CommunityTier(4, 250000 * U.USDT, 35),
     CommunityTier(3, 80000 * U.USDT, 30), CommunityTier(2, 20000 * U.USDT, 20), CommunityTier(1, 5000 * U.USDT, 10)])

  function AgreedRate(level: nat): int
  {
    if level == 0 || level > 9 then 0
    else if level == 1 then 10
    else if level == 2 then 20
    else 30 + 5 * (level - 3)
  }

  lemma AgreedRates(level: nat)
    ensures Agreed.RateFor(level) == AgreedRate(level)
  {
    var t := Agreed.tiers;
    assert |t| == 9 && forall i :: 0 <= i < 9 ==> t[i].level == 9 - i && t[i].rate == AgreedRate(9 - i);
    if level > 0 {
      TierRateFirst(t, level, if level <= 9 then 9 - level else 9);
    }
  }

  /** The agreed parameters meet every assumption made about parameters here. */
  lemma AgreedMeetsAssumptions()
    ensures Agreed.scale > 0 && Agreed.NonnegativeRates() && Agreed.RisingRates() && Agreed.TiersTo9() && Agreed.RateFor(9) == 60
    ensures OnGrid(Agreed, 16) && SaneOrders(Agreed)
  {
    forall a: nat, b: nat | a <= b <= 9
      ensures Agreed.RateFor(a) <= Agreed.RateFor(b)
    {
      AgreedRates(a);
      AgreedRates(b);
    }
    AgreedRates(9);
  }

  /** Under the agreed parameters, whatever history led to it, one settlement pays out at most 2.16
      times the static yields, plus half a unit per generation row and per peer row it books and
      0.55 units per community base row. */
  lemma AgreedSettlementBound(s: Setting, ops: seq<Op>, only: seq<nat>, order: seq<nat>)
    requires s.p == Agreed && Schedule(s.p, History(s, ops), only, order)
    ensures var w := History(s, ops);
            var after := SettleOnce(s.p, w, only, order);
            100 * (TotalBalance(after) - TotalBalance(w))
            <= 216 * InterestTotal(RunPieces(s.p, w, only))
               + 50 * NewRows(w, after, Generation) + 55 * NewRows(w, after, CommunityBase) + 50 * NewRows(w, after, Peer)
  {
    hide World.Valid, SettleOnce, RunPieces, Schedule, NewRows, TotalBalance, After, GradesTo9;
    EmptyValid();
    EmptyGrades();
    AgreedMeetsAssumptions();
    GradesTo9OverRuns(s, EmptyWorld, ops);
    SettlementIsBounded(s.p, History(s, ops), only, order, 60);
  }

  lemma EmptyGrades()
    ensures GradesTo9(EmptyWorld)
  {
  }

  // ---- every order exits ----

  lemma AgreedTarget(o: Order)
    requires Priced(Agreed, o)
    ensures o.amount >= 100 * U.USDT && o.target <= 3 * o.amount
    ensures 501 * StaticYield(o.amount, Agreed.rateMin) >= o.target && StaticYield(o.amount, Agreed.rateMin) > 0
  {
    var k: nat :| FirstBand(Agreed, o.amount, k) && o.target == RoundDiv(o.amount * Agreed.multipliers[k].multiplier, 10);
    var b := Agreed.multipliers[k];
    assert b.multiplier == 20 || b.multiplier == 25 || b.multiplier == 30;
  }

  /** Under the agreed parameters no order survives 501 full settlements, whatever else happens. */
  lemma AgreedOrdersExit(s: Setting, before: seq<Op>, after: seq<Op>, i: nat)
    requires s.p == Agreed
    requires i < |History(s, before).orders| && FullSettlements(after) >= 501
    ensures var last := After(s, History(s, before), after);
            i < |last.orders| && last.orders[i].status.Exited? && last.orders[i].acc == last.orders[i].target
  {
    hide World.Valid, FullSettlements, StaticYield;
    EmptyValid();
    var w := History(s, before);
    AgreedMeetsAssumptions();
    OrdersSoundOverRuns(s, EmptyWorld, before);
    RatesInRangeOverRuns(s, EmptyWorld, before);
    PricedOverRuns(s, EmptyWorld, before);
    AgreedTarget(w.orders[i]);
    assert w.orders[i].Sound();
    MoreSettlements(FullSettlements(after), StaticYield(w.orders[i].amount, s.p.rateMin));
    ExitsInTime(s, w, after, i);
    OrdersSoundOverRuns(s, w, after);
    assert After(s, w, after).orders[i].Sound();
  }

  lemma MoreSettlements(n: nat, y: int)
    requires n >= 501 && y >= 0
    ensures n * y >= 501 * y
  {
    assert (n - 501) * y >= 0;
  }
}
