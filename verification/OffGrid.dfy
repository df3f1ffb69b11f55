/** A history off the rate grid in which a withdrawal settles an order above its last settled
    rate, though not above the rate it would have had. */
module OffGrid {
  import opened Arith
  import opened Forest
  import opened Params
  import opened Rate
  import R = Rate
  import opened Orders
  import opened Community
  import opened Tables
  import opened Settlement
  import opened Runs
  import U = UseCases

  // ---- a user alone ----

  /** Only user 1, without inviter, with the one order o. */
  ghost predicate Alone(w: World, o: Order)
  {
    && w.Valid() && w.ids == [1] && w.users.Keys == {1} && w.users[1].inviter.None?
    && w.orders == [o] && o.user == 1
  }

  lemma AloneTree(w: World, o: Order)
    requires Alone(w, o)
    ensures w.Tree().Valid() && w.Tree().DownlineOrder(1) == []
  {
    w.TreeValid();
    assert w.Parents() == map[];
    assert w.Tree().Kids(1) == ChildList([1], map[], 1) == [];
  }

  /** An active order with room and a yield. */
  ghost predicate Yields(o: Order)
  {
    o.status.Active? && o.target - o.acc > 0 && StaticYield(o.amount, o.cycle.rate) > 0
  }

  lemma AloneStatic(p: Params, w: World, o: Order)
    requires p.scale > 0 && Alone(w, o) && Yields(o)
    ensures ActiveIds(w.orders, []) == [0]
    ensures var r := SettleOrders(p, w, [0]);
            && r.w.users == AddWithdrawable(w.users, 1, Interest(o)) && r.w.orders == [EarnInterest(p, o, Interest(o))]
            && r.w.ids == w.ids && r.w.withdraws == w.withdraws && r.w.Valid()
  {
    hide EarnInterest, Interest, StaticYield, World.Valid;
    var n := [o];
    assert n[..0] == [] && ActiveIds([], []) == [];
    var first := [0];
    assert first[..0] == [] && SettleOrders(p, w, []) == Run(w, []);
    var paid := PayInterest(p, w, 0, Interest(o));
    assert PayGenerations(p, paid, 1, Interest(o)) == paid;
    SettleOrdersValid(p, w, [0]);
  }

  /** With nobody above or below there are no dynamic rewards: the order earns its interest. */
  lemma AloneSettles(p: Params, w: World, o: Order)
    requires p.scale > 0 && Alone(w, o) && Yields(o)
    ensures var after := SettleOnce(p, w, [], []);
            && Alone(after, EarnInterest(p, o, Interest(o)))
            && after.users[1].withdrawable == w.users[1].withdrawable + Interest(o)
            && after.withdraws == w.withdraws
  {
    hide EarnInterest, Interest, Yields, World.Valid, World.Tree, Tree.Valid, SettleOrders, ActiveIds, GradeOf, VolumeOf, SourcePieces;
    AloneStatic(p, w, o);
    var r := SettleOrders(p, w, [0]);
    SettlementShape(p, w, [], []);
    var earned := EarnInterest(p, o, Interest(o));
    EarnKeepsUser(p, o);
    assert Alone(r.w, earned);
    AloneTree(r.w, earned);
    var graded := Graded(p, r.w);
    AloneBase(p, r.w.Tree(), Grades(p, r.w), SourcePieces(r.w, r.pieces), graded);
    assert BasePaid(p, w, []).w == graded;
    assert PeerPhase(p, w, [], []) == [] && PeerGrants([]) == [];
    assert SettleOnce(p, w, [], []) == graded;
  }

  lemma EarnKeepsUser(p: Params, o: Order)
    ensures EarnInterest(p, o, Interest(o)).user == o.user
  {
  }

  lemma AloneBase(p: Params, t: Tree, levels: Levels, pieces: Pieces, w: World)
    requires p.scale > 0 && t.Valid() && t.DownlineOrder(1) == []
    ensures PayBase(p, t, levels, pieces, w, [1]) == Paid(w, map[])
  {
    hide Tree.Valid;
    var users := [1];
    assert users[..0] == [] && PayBase(p, t, levels, pieces, w, []) == Paid(w, map[]);
    assert BaseLines(p, t, levels, pieces, 1) == [];
    assert LineGrants(1, []) == [] && AppliedLines(w, 1, []) == 0 && CreditAll(w, [], CommunityBase) == w;
  }

  // ---- the history ----

  /** Rates 0.60 to 1.00 in steps of 0.30, everything else plain. */
  const Coarse: Params := Params(
    100, 0, 5, 10, 10, 3, 60, 100, 30, 100 * U.USDT, [MultiplierTier(None, 20)], [CommunityTier(1, 5000 * U.USDT, 10)])

  const Desk: Setting := Setting(Coarse, "a", U.PayoutConfig(true, U.USDT, true))

  const Opening: seq<Op> := [
    Op.Register("a", "", U.PathIo(0, true, true)), Op.AdminDeposit("a", 100 * U.USDT), Op.Subscribe(1, 100 * U.USDT)]

  const ThreeDays: seq<Op> := [Op.Settle([], []), Op.Settle([], []), Op.Settle([], [])]

  function OrderAt(acc: int, c: Cycle): Order
  {
    Order(1, 100 * U.USDT, 20, 200 * U.USDT, acc, Active, c)
  }

  lemma Opened()
    ensures Alone(History(Desk, Opening), OrderAt(0, Cycle(60, Up, false, None)))
    ensures History(Desk, Opening).users[1].withdrawable == 0 && History(Desk, Opening).withdraws == []
  {
    EmptyValid();
    hide World.Valid;
    AfterThree(Desk, EmptyWorld, Opening[0], Opening[1], Opening[2]);
    var w1 := Apply(Desk, EmptyWorld, Opening[0]);
    assert U.FindByAddress([], map[], "a") == None;
    assert w1 == U.AddUser(EmptyWorld, "a", None, U.PathIo(0, true, true));
    var w2 := Apply(Desk, w1, Opening[1]);
    assert w1.ids == [1] && w1.users[1] == U.NewUser("a", None);
    assert U.FindByAddress(w1.ids, w1.users, "a") == Some(1);
    assert w2.users[1].account == 100 * U.USDT && w2.orders == [];
    assert MultiplierFor(Coarse, 100 * U.USDT) == Some(20);
    assert U.NewOrder(Coarse, 1, 100 * U.USDT, 20) == OrderAt(0, Cycle(60, Up, false, None));
  }

  lemma Day(w: World, acc: int, c: Cycle)
    requires Alone(w, OrderAt(acc, c)) && 0 <= acc <= 3 * U.USDT && 60 <= c.rate <= 100
    ensures var after := Apply(Desk, w, Op.Settle([], []));
            && Alone(after, OrderAt(acc + c.rate * (U.USDT / 100), R.Settle(Coarse, c)))
            && after.users[1].withdrawable == w.users[1].withdrawable + c.rate * (U.USDT / 100)
            && after.withdraws == w.withdraws
  {
    hide Alone, SettleOnce, Interest, EarnInterest, Yields;
    var o := OrderAt(acc, c);
    Earned1(acc, c);
    AloneSettles(Coarse, w, o);
  }

  lemma Earned1(acc: int, c: Cycle)
    requires 0 <= acc <= 3 * U.USDT && 60 <= c.rate <= 100
    ensures var o := OrderAt(acc, c);
            && Yields(o) && Interest(o) == c.rate * (U.USDT / 100)
            && EarnInterest(Coarse, o, Interest(o)) == OrderAt(acc + c.rate * (U.USDT / 100), R.Settle(Coarse, c))
  {
    YieldOf(c.rate);
    hide StaticYield, AdvanceRate;
  }

  lemma YieldOf(rate: int)
    ensures StaticYield(100 * U.USDT, rate) == rate * (U.USDT / 100)
  {
    var n := 100 * U.USDT * rate;
    assert n == 10000 * (rate * (U.USDT / 100));
    RoundDivExact(rate * (U.USDT / 100), 10000);
  }

  /** After three settlements the order last settled at 0.70 and would settle at 0.90 next; a
      withdrawal turns it, and it still settles at 0.90. */
  lemma TurnAboveLastSettled()
    ensures var before := History(Desk, Opening + ThreeDays);
            var after := Apply(Desk, before, Op.Extract(1, 1));
            && |before.orders| == |after.orders| == 1
            && before.orders[0].cycle == Cycle(90, Up, false, Some(70))
            && after.orders[0].cycle == Cycle(90, Up, true, Some(70))
  {
    EmptyValid();
    hide World.Valid;
    Opened();
    var w0 := History(Desk, Opening);
    AfterAppend(Desk, EmptyWorld, Opening, ThreeDays);
    var day := Op.Settle([], []);
    AfterThree(Desk, w0, day, day, day);
    Day(w0, 0, Cycle(60, Up, false, None));
    var w1 := Apply(Desk, w0, day);
    Day(w1, 60 * (U.USDT / 100), Cycle(90, Up, false, Some(60)));
    var w2 := Apply(Desk, w1, day);
    Day(w2, 150 * (U.USDT / 100), Cycle(70, Down, false, Some(90)));
    var w3 := Apply(Desk, w2, day);
    assert Alone(w3, OrderAt(220 * (U.USDT / 100), Cycle(90, Up, false, Some(70))));
    assert History(Desk, Opening + ThreeDays) == w3;
    assert U.Fee(Coarse, 1) == 0;
    hide Apply;
    ExtractOne(w3);
  }

  lemma ExtractOne(w: World)
    requires Alone(w, OrderAt(220 * (U.USDT / 100), Cycle(90, Up, false, Some(70)))) && w.users[1].withdrawable >= 1
    ensures var after := Apply(Desk, w, Op.Extract(1, 1));
            |after.orders| == 1 && after.orders[0].cycle == Cycle(90, Up, true, Some(70))
  {
    hide World.Valid;
    assert U.Fee(Coarse, 1) == 0;
  }
}
