/** Double-entry bookkeeping over any history. */
module RunBooks {
  import opened Arith
  import opened Params
  import opened Rate
  import opened Orders
  import opened Tables
  import opened Settlement
  import opened Accrual
  import opened Runs
  import U = UseCases
  import P = Payout

  /** Withdrawals that still stand against u's balance. */
  function Standing(withdraws: seq<Withdraw>, u: nat): int
  {
    if withdraws == [] then 0
    else
      var x := withdraws[|withdraws| - 1];
      Standing(withdraws[..|withdraws| - 1], u)
      + if x.user == u && !x.status.Cancelled? && !x.status.Rejected? then x.amount else 0
  }

  function Account(w: World, u: nat): int
  {
    if u in w.users then w.users[u].account else 0
  }

  /** Everything ever opened in orders plus the account is what came in; order progress is what
      was earned; the withdrawable balance is earnings and adjustments less standing withdrawals. */
  ghost predicate Balanced(w: World, u: nat)
  {
    && AccTotal(w.orders, u) == RewardSum(w.ledger, u)
    && Withdrawable(w, u) == RewardSum(w.ledger, u) + KindSum(w.ledger, u, AdminAdjust) - Standing(w.withdraws, u)
    && Account(w, u) + AmountTotal(w.orders, u) == KindSum(w.ledger, u, Deposit)
  }

  /** For users not registered yet, nothing is booked. */
  ghost predicate Books(w: World)
  {
    forall u: nat :: Balanced(w, u)
  }

  lemma {:induction false} TotalsAppend(orders: seq<Order>, o: Order, u: nat)
    ensures AccTotal(orders + [o], u) == AccTotal(orders, u) + if o.user == u then o.acc else 0
    ensures AmountTotal(orders + [o], u) == AmountTotal(orders, u) + if o.user == u then o.amount else 0
  {
    if orders == [] {
      assert [o][1..] == [] && orders + [o] == [o];
    } else {
      assert (orders + [o])[1..] == orders[1..] + [o];
      TotalsAppend(orders[1..], o, u);
    }
  }

  lemma {:induction false} TotalsSame(a: seq<Order>, b: seq<Order>, u: nat)
    requires |a| == |b|
    requires forall i :: 0 <= i < |a| ==> a[i].user == b[i].user && a[i].amount == b[i].amount
    ensures AmountTotal(a, u) == AmountTotal(b, u)
    ensures (forall i :: 0 <= i < |a| ==> a[i].acc == b[i].acc) ==> AccTotal(a, u) == AccTotal(b, u)
  {
    if a != [] {
      TotalsSame(a[1..], b[1..], u);
    }
  }

  lemma StandingAppend(withdraws: seq<Withdraw>, x: Withdraw, u: nat)
    ensures Standing(withdraws + [x], u)
         == Standing(withdraws, u) + if x.user == u && !x.status.Cancelled? && !x.status.Rejected? then x.amount else 0
  {
    assert (withdraws + [x])[..|withdraws|] == withdraws;
  }

  lemma {:induction false} StandingUpdate(withdraws: seq<Withdraw>, k: nat, x: Withdraw, u: nat)
    requires k < |withdraws| && x.user == withdraws[k].user && x.amount == withdraws[k].amount
    ensures Standing(withdraws[k := x], u) == Standing(withdraws, u)
            + (if x.user == u && !x.status.Cancelled? && !x.status.Rejected? then x.amount else 0)
            - (if x.user == u && !withdraws[k].status.Cancelled? && !withdraws[k].status.Rejected? then x.amount else 0)
  {
    var n := |withdraws| - 1;
    if k == n {
      assert withdraws[k := x][..n] == withdraws[..n];
    } else {
      assert withdraws[k := x][..n] == withdraws[..n][k := x];
      StandingUpdate(withdraws[..n], k, x, u);
    }
  }

  // ---- step by step ----

  lemma SettleBalanced(p: Params, w: World, only: seq<nat>, order: seq<nat>, u: nat)
    requires p.scale > 0 && w.Valid() && Balanced(w, u)
    ensures Balanced(SettleOnce(p, w, only, order), u)
  {
    hide SettleOnce, World.Valid, UsersOk;
    var b := SettleOnce(p, w, only, order);
    SettlementAccrues(p, w, only, order);
    SettlementShape(p, w, only, order);
    assert Booked(w, b, u);
    TotalsSame(w.orders, b.orders, u);
    assert !Deposit.Reward() && !AdminAdjust.Reward();
  }

  /** A balance change booked with its difference. */
  lemma BookedBalanced(w: World, after: World, id: nat, kind: Kind, amount: int, u: nat)
    requires Balanced(w, u) && (kind.Deposit? || kind.AdminAdjust?)
    requires after.orders == w.orders && after.withdraws == w.withdraws && after.ledger == w.ledger + [Entry(id, kind, amount)]
    requires Account(after, u) == Account(w, u) + if id == u && kind.Deposit? then amount else 0
    requires Withdrawable(after, u) == Withdrawable(w, u) + if id == u && kind.AdminAdjust? then amount else 0
    ensures Balanced(after, u)
  {
    hide AccTotal, AmountTotal, Standing, RewardSum, KindSum, Account, Withdrawable;
    LedgerGrows(w.ledger, Entry(id, kind, amount), u);
  }

  lemma SetBalances(w: World, id: nat, v: User, kind: Kind, amount: int, u: nat)
    requires id in w.users
    ensures var after := U.Log(U.SetUser(w, id, v), id, kind, amount);
            && Account(after, u) == Account(w, u) + (if id == u then v.account - w.users[id].account else 0)
            && Withdrawable(after, u) == Withdrawable(w, u) + (if id == u then v.withdrawable - w.users[id].withdrawable else 0)
  {
  }

  /** Setting one balance and booking the difference. */
  lemma AccountBalanced(w: World, id: nat, v: User, u: nat)
    requires id in w.users && Balanced(w, u)
    ensures v.withdrawable == w.users[id].withdrawable ==>
              Balanced(U.Log(U.SetUser(w, id, v), id, Deposit, v.account - w.users[id].account), u)
    ensures v.account == w.users[id].account ==>
              Balanced(U.Log(U.SetUser(w, id, v), id, AdminAdjust, v.withdrawable - w.users[id].withdrawable), u)
  {
    hide Balanced, Account, Withdrawable;
    var account, withdrawable := v.account - w.users[id].account, v.withdrawable - w.users[id].withdrawable;
    SetBalances(w, id, v, Deposit, account, u);
    SetBalances(w, id, v, AdminAdjust, withdrawable, u);
    if withdrawable == 0 {
      BookedBalanced(w, U.Log(U.SetUser(w, id, v), id, Deposit, account), id, Deposit, account, u);
    }
    if account == 0 {
      BookedBalanced(w, U.Log(U.SetUser(w, id, v), id, AdminAdjust, withdrawable), id, AdminAdjust, withdrawable, u);
    }
  }

  /** Setting neither balance. */
  lemma SwitchBalanced(w: World, id: nat, v: User, u: nat)
    requires id in w.users && Balanced(w, u)
    requires v.account == w.users[id].account && v.withdrawable == w.users[id].withdrawable
    ensures Balanced(U.SetUser(w, id, v), u)
  {
    hide AccTotal, AmountTotal, Standing, RewardSum, KindSum;
  }

  lemma SubscribeBalanced(p: Params, w: World, id: nat, amount: int, u: nat)
    requires w.Valid() && Balanced(w, u)
    ensures Balanced(U.Subscribe(p, w, id, amount).Or(w), u)
  {
    hide World.Valid;
    if U.Subscribe(p, w, id, amount).Done? {
      TotalsAppend(w.orders, U.NewOrder(p, id, amount, MultiplierFor(p, amount).value), u);
    }
  }

  lemma TurnKeepsTotals(p: Params, orders: seq<Order>, id: nat, u: nat)
    ensures AccTotal(U.TurnOrders(p, orders, id), u) == AccTotal(orders, u)
    ensures AmountTotal(U.TurnOrders(p, orders, id), u) == AmountTotal(orders, u)
  {
    TotalsSame(orders, U.TurnOrders(p, orders, id), u);
  }

  lemma ExtractBalanced(p: Params, c: U.PayoutConfig, w: World, id: nat, amount: int, u: nat)
    requires p.scale > 0 && w.Valid() && Balanced(w, u)
    ensures Balanced(U.Extract(p, c, w, id, amount).Or(w), u)
  {
    hide World.Valid, U.TurnOrders, AccTotal, AmountTotal, Standing, RewardSum, KindSum, U.Fee;
    if U.Extract(p, c, w, id, amount).Done? {
      var fee := U.Fee(p, amount);
      TurnKeepsTotals(p, w.orders, id, u);
      StandingAppend(w.withdraws, Withdraw(id, amount, fee, amount - fee, Rewarded, ""), u);
      LedgerGrows(w.ledger, Entry(id, Kind.Extract, -amount), u);
    }
  }

  lemma RefundBalanced(w: World, i: nat, u: nat)
    requires i < |w.withdraws| && w.withdraws[i].user in w.users && w.withdraws[i].status.Pending? && Balanced(w, u)
    ensures Balanced(U.Refunded(w, i), u)
  {
    hide AccTotal, AmountTotal, Standing, RewardSum, KindSum;
    StandingUpdate(w.withdraws, i, w.withdraws[i].(status := Cancelled), u);
  }

  lemma OwnerKnown(w: World, i: nat)
    requires w.Valid() && i < |w.withdraws|
    ensures w.withdraws[i].user in w.users
  {
    assert w.withdraws[i].user in w.users.Keys;
  }

  lemma {:induction false} CancelBalanced(w: World, n: nat, u: nat)
    requires w.Valid() && n <= |w.withdraws| && Balanced(w, u)
    ensures Balanced(U.CancelPending(w, n), u)
    decreases n
  {
    hide World.Valid, Balanced, U.Refunded;
    if n > 0 {
      RefundValid(w, n - 1);
      OwnerKnown(w, n - 1);
      if w.withdraws[n - 1].status.Pending? {
        RefundBalanced(w, n - 1, u);
        CancelBalanced(U.Refunded(w, n - 1), n - 1, u);
      } else {
        CancelBalanced(w, n - 1, u);
      }
    }
  }

  lemma {:induction false} StandingForward(a: seq<Withdraw>, b: seq<Withdraw>, u: nat)
    requires P.RowsForward(a, b)
    ensures Standing(a, u) == Standing(b, u)
  {
    if a != [] {
      StandingForward(a[..|a| - 1], b[..|b| - 1], u);
    }
  }

  lemma PayoutBalanced(s: Setting, w: World, id: nat, x: P.Weather, u: nat)
    requires Balanced(w, u)
    ensures Balanced(w.(withdraws := P.Process(s.payout, Chained(w), id, x).0.rows), u)
    ensures Balanced(w.(withdraws := P.Confirm(Chained(w), id, x).0.rows), u)
  {
    hide P.Process, P.Confirm, P.RowsForward;
    P.CallsMoveRowsForward(s.payout, Chained(w), id, x);
    StandingForward(w.withdraws, P.Process(s.payout, Chained(w), id, x).0.rows, u);
    StandingForward(w.withdraws, P.Confirm(Chained(w), id, x).0.rows, u);
  }

  lemma RegisterBalanced(w: World, genesis: string, address: string, invite: string, io: U.PathIo, u: nat)
    requires w.Valid() && Balanced(w, u)
    ensures Balanced(U.Register(w, genesis, address, invite, io).Or(w), u)
  {
    hide World.Valid, Balanced, U.AddUser, U.FindByAddress;
    AddUserBalanced(w, address, None, io, u);
    var found := U.FindByAddress(w.ids, w.users, invite);
    AddUserBalanced(w, address, found, io, u);
  }

  lemma AddUserBalanced(w: World, address: string, inviter: Option<nat>, io: U.PathIo, u: nat)
    requires w.Valid() && Balanced(w, u)
    ensures Balanced(U.AddUser(w, address, inviter, io), u)
  {
    hide U.NewPath, AccTotal, AmountTotal, Standing, RewardSum, KindSum;
    NewIdFree(w, io.gap);
    hide World.Valid;
  }

  lemma NewIdFree(w: World, gap: nat)
    requires w.Valid()
    ensures w.nextId + gap !in w.users
  {
  }

  lemma AddressOpsBalanced(w: World, address: string, amount: int, u: nat)
    requires w.Valid() && Balanced(w, u)
    ensures Balanced(U.AdminDeposit(w, address, amount).Or(w), u)
    ensures Balanced(U.SetAccount(w, address, amount).Or(w), u)
    ensures Balanced(U.SetWithdrawable(w, address, amount).Or(w), u)
  {
    hide World.Valid, Balanced, U.SetUser, U.Log;
    FoundAddress(w.ids, w.users, address);
    var found := U.FindByAddress(w.ids, w.users, address);
    if found.Some? {
      var id := found.value;
      var v := w.users[id];
      AccountBalanced(w, id, v.(account := v.account + amount), u);
      AccountBalanced(w, id, v.(account := amount), u);
      AccountBalanced(w, id, v.(withdrawable := amount), u);
    }
  }

  lemma ApplyBalanced(s: Setting, w: World, op: Op, u: nat)
    requires s.p.scale > 0 && w.Valid() && Balanced(w, u)
    ensures Balanced(Apply(s, w, op), u)
  {
    hide World.Valid, Balanced, U.SetUser, U.Log, U.Extract, U.Subscribe, U.Register, U.CancelPending, P.Process, P.Confirm, SettleOnce;
    match op
    case Register(address, invite, io) => RegisterBalanced(w, s.genesis, address, invite, io, u);
    case AdminDeposit(address, amount) => AddressOpsBalanced(w, address, amount, u);
    case ChainDeposit(user, usdt) =>
      if user in w.users {
        var v := w.users[user];
        AccountBalanced(w, user, v.(account := v.account + usdt * U.USDT), u);
      }
    case SetAccount(address, amount) => AddressOpsBalanced(w, address, amount, u);
    case SetWithdrawable(address, amount) => AddressOpsBalanced(w, address, amount, u);
    case Subscribe(user, amount) => SubscribeBalanced(s.p, w, user, amount, u);
    case Extract(user, amount) => ExtractBalanced(s.p, s.payout, w, user, amount, u);
    case CancelPending => CancelBalanced(w, |w.withdraws|, u);
    case Payout(id, x) => PayoutBalanced(s, w, id, x, u);
    case ConfirmPayout(id, x) => PayoutBalanced(s, w, id, x, u);
    case SetVip(user, level) =>
      if user in w.users && level >= 0 {
        SwitchBalanced(w, user, w.users[user].(level := level, levelLocked := true), u);
      }
    case UnlockVip(user) =>
      if user in w.users {
        SwitchBalanced(w, user, w.users[user].(levelLocked := false), u);
      }
    case SetUserLock(user, lock) =>
      if user in w.users {
        SwitchBalanced(w, user, w.users[user].(disabled := lock), u);
      }
    case SetRewardLock(user, lock) =>
      if user in w.users {
        SwitchBalanced(w, user, w.users[user].(rewardLocked := lock), u);
      }
    case Settle(only, order) => SettleBalanced(s.p, w, only, order, u);
  }

  /** The books balance after any history. */
  lemma {:induction false} BooksOverRuns(s: Setting, w: World, ops: seq<Op>)
    requires s.p.scale > 0 && w.Valid() && Books(w)
    ensures Books(After(s, w, ops))
    decreases |ops|
  {
    if ops != [] {
      ApplyValid(s, w, ops[0]);
      forall u: nat
        ensures Balanced(Apply(s, w, ops[0]), u)
      {
        ApplyBalanced(s, w, ops[0], u);
      }
      hide World.Valid, Apply, Balanced;
      BooksOverRuns(s, Apply(s, w, ops[0]), ops[1..]);
    }
  }

  lemma EmptyBooks()
    ensures EmptyWorld.Valid() && Books(EmptyWorld)
  {
  }

  /** In particular after every history from the empty tables. */
  lemma BooksFromEmpty(s: Setting, ops: seq<Op>)
    requires s.p.scale > 0
    ensures Books(History(s, ops))
  {
    hide Books, After;
    EmptyBooks();
    BooksOverRuns(s, EmptyWorld, ops);
  }

  // ---- soundness of orders, and the lifetime cap ----

  ghost predicate SoundOrders(w: World)
  {
    forall i :: 0 <= i < |w.orders| ==> w.orders[i].Sound()
  }

  /** Multipliers are positive, and the smallest subscription times the smallest multiplier does
      not round to an empty target. */
  ghost predicate SaneOrders(p: Params)
  {
    && (forall b :: b in p.multipliers ==> b.multiplier > 0)
    && (p.minSubscribe <= 0 || p.minSubscribe >= 10)
  }

  lemma {:induction false} BandIn(bands: seq<MultiplierTier>, amount: int)
    ensures BandMultiplier(bands, amount).Some? ==>
              exists b :: b in bands && b.multiplier == BandMultiplier(bands, amount).value
  {
    if bands != [] {
      BandIn(bands[1..], amount);
      assert bands[0] in bands && forall b :: b in bands[1..] ==> b in bands;
    }
  }

  lemma NewOrderSound(p: Params, id: nat, amount: int, multiplier: int)
    requires amount >= 10 && multiplier > 0
    ensures U.NewOrder(p, id, amount, multiplier).Sound()
  {
    assert amount * multiplier >= 10;
  }

  lemma ApplySound(s: Setting, w: World, op: Op)
    requires s.p.scale > 0 && SaneOrders(s.p) && w.Valid() && SoundOrders(w)
    ensures SoundOrders(Apply(s, w, op))
  {
    hide World.Valid, SettleOnce, U.FindByAddress, U.NewPath, P.Process, P.Confirm;
    match op
    case Subscribe(user, amount) =>
      if U.Subscribe(s.p, w, user, amount).Done? {
        BandIn(s.p.multipliers, amount);
        NewOrderSound(s.p, user, amount, MultiplierFor(s.p, amount).value);
      }
    case Extract(user, amount) =>
    case CancelPending => CancelKeepsOrders(w, |w.withdraws|);
    case Settle(only, order) =>
      SettlementAccrues(s.p, w, only, order);
      forall i | 0 <= i < |w.orders|
        ensures SettleOnce(s.p, w, only, order).orders[i].Sound()
      {
        assert Moved(w.orders[i], SettleOnce(s.p, w, only, order).orders[i]);
      }
    case _ =>
  }

  lemma {:induction false} CancelKeepsOrders(w: World, n: nat)
    requires n <= |w.withdraws|
    ensures U.CancelPending(w, n).orders == w.orders
    decreases n
  {
    if n > 0 {
      var x := w.withdraws[n - 1];
      CancelKeepsOrders(U.Refunded(w, n - 1), n - 1);
      CancelKeepsOrders(w, n - 1);
    }
  }

  /** In every reachable state active orders are strictly below their target and exited ones
      exactly at it. */
  lemma {:induction false} OrdersSoundOverRuns(s: Setting, w: World, ops: seq<Op>)
    requires s.p.scale > 0 && SaneOrders(s.p) && w.Valid() && SoundOrders(w)
    ensures SoundOrders(After(s, w, ops))
    decreases |ops|
  {
    if ops != [] {
      ApplyValid(s, w, ops[0]);
      ApplySound(s, w, ops[0]);
      hide World.Valid, Apply, SoundOrders;
      OrdersSoundOverRuns(s, Apply(s, w, ops[0]), ops[1..]);
    }
  }

  lemma {:induction false} ProgressWithinTargets(orders: seq<Order>, u: nat)
    requires forall i :: 0 <= i < |orders| ==> orders[i].Sound()
    ensures AccTotal(orders, u) <= TargetTotal(orders, u)
  {
    if orders != [] {
      var rest := orders[1..];
      assert orders[0].Sound() && forall i :: 0 <= i < |rest| ==> rest[i] == orders[i + 1];
      ProgressWithinTargets(rest, u);
    }
  }

  /** Over any history a user's lifetime earnings never exceed the targets of the orders opened. */
  lemma LifetimeEarningsCapped(s: Setting, w: World, ops: seq<Op>, u: nat)
    requires s.p.scale > 0 && SaneOrders(s.p) && w.Valid() && Books(w) && SoundOrders(w)
    ensures var after := After(s, w, ops);
            RewardSum(after.ledger, u) <= TargetTotal(after.orders, u)
  {
    BooksOverRuns(s, w, ops);
    OrdersSoundOverRuns(s, w, ops);
    ProgressWithinTargets(After(s, w, ops).orders, u);
    assert Balanced(After(s, w, ops), u);
  }

  /** In particular after every history from the empty tables. */
  lemma EarningsCappedFromEmpty(s: Setting, ops: seq<Op>, u: nat)
    requires s.p.scale > 0 && SaneOrders(s.p)
    ensures RewardSum(History(s, ops).ledger, u) <= TargetTotal(History(s, ops).orders, u)
  {
    EmptyBooks();
    assert SoundOrders(EmptyWorld);
    hide Books, After, SoundOrders;
    LifetimeEarningsCapped(s, EmptyWorld, ops, u);
  }
}
