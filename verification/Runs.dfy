/** Histories: any sequence of the use cases, from any tables. */
module Runs {
  import opened Arith
  import opened Sums
  import opened Params
  import opened Rate
  import opened Orders
  import opened Tables
  import opened Settlement
  import U = UseCases
  import P = Payout
  import D = DepositProtocol

  datatype Setting = Setting(p: Params, genesis: string, payout: U.PayoutConfig)

  datatype Op =
    | Register(address: string, invite: string, io: U.PathIo)
    | AdminDeposit(address: string, amount: int)
    | ChainDeposit(user: nat, usdt: int)
    | SetAccount(address: string, amount: int)
    | SetWithdrawable(address: string, amount: int)
    | Subscribe(user: nat, amount: int)
    | Extract(user: nat, amount: int)
    | CancelPending
    | Payout(id: nat, weather: P.Weather)
    | ConfirmPayout(id: nat, weather: P.Weather)
    | SetVip(user: nat, level: int)
    | UnlockVip(user: nat)
    | SetUserLock(user: nat, lock: bool)
    | SetRewardLock(user: nat, lock: bool)
    | Settle(only: seq<nat>, order: seq<nat>)

  /** The withdraws table as the payout calls see it. */
  function Chained(w: World): P.Chain
  {
    P.Chain(w.withdraws, [], {}, [])
  }

  function Attempt(s: Setting, w: World, op: Op): U.Outcome
    requires s.p.scale > 0 && w.Valid()
  {
    match op
    case Register(address, invite, io) => U.Register(w, s.genesis, address, invite, io)
    case AdminDeposit(address, amount) => U.AdminDeposit(w, address, amount)
    case ChainDeposit(user, usdt) =>
      if usdt < D.MIN_DEPOSIT || user == 0 then U.Failed(U.InvalidAmount)
      else if user !in w.users then U.Failed(U.UserNotFound)
      else U.Done(U.CreditAccount(w, user, usdt * U.USDT))
    case SetAccount(address, amount) => U.SetAccount(w, address, amount)
    case SetWithdrawable(address, amount) => U.SetWithdrawable(w, address, amount)
    case Subscribe(user, amount) => U.Subscribe(s.p, w, user, amount)
    case Extract(user, amount) => U.Extract(s.p, s.payout, w, user, amount)
    case CancelPending => U.Done(U.CancelPending(w, |w.withdraws|))
    case Payout(id, x) => U.Done(w.(withdraws := P.Process(s.payout, Chained(w), id, x).0.rows))
    case ConfirmPayout(id, x) => U.Done(w.(withdraws := P.Confirm(Chained(w), id, x).0.rows))
    case SetVip(user, level) => U.SetVip(w, user, level)
    case UnlockVip(user) => U.UnlockVip(w, user)
    case SetUserLock(user, lock) => U.SetUserLock(w, user, lock)
    case SetRewardLock(user, lock) => U.SetRewardLock(w, user, lock)
    case Settle(only, order) => U.Done(SettleOnce(s.p, w, only, order))
  }

  function Apply(s: Setting, w: World, op: Op): World
    requires s.p.scale > 0 && w.Valid()
  {
    Attempt(s, w, op).Or(w)
  }

  function After(s: Setting, w: World, ops: seq<Op>): (after: World)
    requires s.p.scale > 0 && w.Valid()
    ensures after.Valid()
    decreases |ops|
  {
    if ops == [] then w
    else
      ApplyValid(s, w, ops[0]);
      After(s, Apply(s, w, ops[0]), ops[1..])
  }

  const EmptyWorld: World := World.World(1, [], map[], map[], [], [], [])

  lemma EmptyValid()
    ensures EmptyWorld.Valid()
  {
  }

  /** The tables after a history that began with empty ones. */
  function History(s: Setting, ops: seq<Op>): (w: World)
    requires s.p.scale > 0
    ensures w.Valid()
  {
    EmptyValid();
    After(s, EmptyWorld, ops)
  }

  // ---- keys and links survive every step ----

  lemma {:induction false} FoundAddress(ids: seq<nat>, users: map<nat, User>, address: string)
    ensures var r := U.FindByAddress(ids, users, address);
            r.Some? ==> r.value in ids && r.value in users && users[r.value].address == address
  {
    if ids != [] {
      FoundAddress(ids[1..], users, address);
    }
  }

  lemma AscendingAppend(ids: seq<nat>, id: nat)
    requires Ascending(ids) && forall x :: x in ids ==> x < id
    ensures Ascending(ids + [id])
  {
    forall i, j | 0 <= i < j < |ids + [id]|
      ensures (ids + [id])[i] < (ids + [id])[j]
    {
      assert ids[i] in ids;
    }
  }

  lemma AddUserValid(w: World, address: string, inviter: Option<nat>, io: U.PathIo)
    requires w.Valid() && (inviter.Some? ==> inviter.value in w.users)
    ensures U.AddUser(w, address, inviter, io).Valid()
  {
    hide U.NewPath, UsersOk, OrdersOwned, WithdrawsOwned;
    var id, u := w.nextId + io.gap, U.NewUser(address, inviter);
    AddUserOk(w.nextId, w.ids, w.users, id, u);
    assert w.users[id := u].Keys == w.users.Keys + {id};
    StillOwned(w.orders, w.withdraws, w.users.Keys, id);
  }

  lemma StillOwned(orders: seq<Order>, withdraws: seq<Withdraw>, keys: set<nat>, id: nat)
    requires OrdersOwned(orders, keys) && WithdrawsOwned(withdraws, keys)
    ensures OrdersOwned(orders, keys + {id}) && WithdrawsOwned(withdraws, keys + {id})
  {
  }

  lemma AddUserOk(nextId: nat, ids: seq<nat>, users: map<nat, User>, id: nat, u: User)
    requires UsersOk(nextId, ids, users) && nextId <= id && (u.inviter.Some? ==> u.inviter.value in users)
    ensures UsersOk(id + 1, ids + [id], users[id := u])
  {
    AscendingAppend(ids, id);
    forall x
      ensures x in ids + [id] <==> x in users[id := u]
    {
      assert x in ids + [id] <==> x in ids || x == id;
    }
  }

  lemma RegisterValid(w: World, genesis: string, address: string, invite: string, io: U.PathIo)
    requires w.Valid()
    ensures U.Register(w, genesis, address, invite, io).Or(w).Valid()
  {
    hide World.Valid, U.AddUser;
    FoundAddress(w.ids, w.users, invite);
    AddUserValid(w, address, None, io);
    var found := U.FindByAddress(w.ids, w.users, invite);
    if found.Some? {
      AddUserValid(w, address, found, io);
    }
  }

  lemma SetUserOk(nextId: nat, ids: seq<nat>, users: map<nat, User>, id: nat, u: User)
    requires UsersOk(nextId, ids, users) && id in users && u.inviter == users[id].inviter
    ensures UsersOk(nextId, ids, users[id := u]) && users[id := u].Keys == users.Keys
  {
  }

  lemma SetUserValid(w: World, id: nat, u: User)
    requires w.Valid() && id in w.users && u.inviter == w.users[id].inviter
    ensures U.SetUser(w, id, u).Valid() && U.SetUser(w, id, u).users.Keys == w.users.Keys
  {
    hide UsersOk, OrdersOwned, WithdrawsOwned;
    SetUserOk(w.nextId, w.ids, w.users, id, u);
  }

  lemma LogValid(w: World, user: nat, kind: Kind, amount: int)
    requires w.Valid()
    ensures U.Log(w, user, kind, amount).Valid()
  {
  }

  lemma SetAndLogValid(w: World, id: nat, u: User, kind: Kind, amount: int)
    requires w.Valid() && id in w.users && u.inviter == w.users[id].inviter
    ensures U.Log(U.SetUser(w, id, u), id, kind, amount).Valid()
  {
    SetUserValid(w, id, u);
    LogValid(U.SetUser(w, id, u), id, kind, amount);
  }

  lemma RowsValid(w: World, orders: seq<Order>, withdraws: seq<Withdraw>)
    requires w.Valid() && OrdersOwned(orders, w.users.Keys) && WithdrawsOwned(withdraws, w.users.Keys)
    ensures w.(orders := orders, withdraws := withdraws).Valid()
  {
  }

  lemma SubscribeValid(p: Params, w: World, id: nat, amount: int)
    requires w.Valid()
    ensures U.Subscribe(p, w, id, amount).Or(w).Valid()
  {
    hide UsersOk;
    if U.Subscribe(p, w, id, amount).Done? {
      var w1 := U.SetUser(w, id, w.users[id].(account := w.users[id].account - amount));
      SetUserValid(w, id, w.users[id].(account := w.users[id].account - amount));
      RowsValid(w1, w.orders + [U.NewOrder(p, id, amount, MultiplierFor(p, amount).value)], w.withdraws);
    }
  }

  lemma TurnedUsers(p: Params, w: World, id: nat)
    requires w.Valid()
    ensures OrdersOwned(U.TurnOrders(p, w.orders, id), w.users.Keys)
  {
  }

  lemma ExtractValid(p: Params, c: U.PayoutConfig, w: World, id: nat, amount: int)
    requires p.scale > 0 && w.Valid()
    ensures U.Extract(p, c, w, id, amount).Or(w).Valid()
  {
    hide UsersOk, OrdersOwned, U.TurnOrders, U.Fee;
    if U.Extract(p, c, w, id, amount).Done? {
      var fee := U.Fee(p, amount);
      var w1 := U.SetUser(w, id, w.users[id].(withdrawable := w.users[id].withdrawable - amount));
      var orders, rows := U.TurnOrders(p, w.orders, id), w.withdraws + [Withdraw(id, amount, fee, amount - fee, Rewarded, "")];
      SetUserValid(w, id, w.users[id].(withdrawable := w.users[id].withdrawable - amount));
      TurnedUsers(p, w, id);
      RowsValid(w1, orders, rows);
      LogValid(w1.(orders := orders, withdraws := rows), id, Kind.Extract, -amount);
    }
  }

  lemma AddWithdrawableValid(w: World, id: nat, delta: int)
    requires w.Valid()
    ensures w.(users := AddWithdrawable(w.users, id, delta)).Valid()
  {
  }

  /** The row below n, cancelled and refunded when pending. */
  lemma RefundValid(w: World, i: nat)
    requires w.Valid() && i < |w.withdraws|
    ensures U.Refunded(w, i).Valid()
  {
    var x := w.withdraws[i];
    var refunded := w.(users := AddWithdrawable(w.users, x.user, x.amount));
    AddWithdrawableValid(w, x.user, x.amount);
    RowsValid(refunded, w.orders, w.withdraws[i := x.(status := Cancelled)]);
    hide World.Valid, AddWithdrawable;
    assert U.Refunded(w, i) == refunded.(withdraws := w.withdraws[i := x.(status := Cancelled)]);
  }

  lemma {:induction false} CancelPendingValid(w: World, n: nat)
    requires w.Valid() && n <= |w.withdraws|
    ensures U.CancelPending(w, n).Valid()
    decreases n
  {
    hide World.Valid, U.Refunded;
    if n > 0 {
      RefundValid(w, n - 1);
      if w.withdraws[n - 1].status.Pending? {
        CancelPendingValid(U.Refunded(w, n - 1), n - 1);
      } else {
        CancelPendingValid(w, n - 1);
      }
    }
  }

  lemma ApplyValid(s: Setting, w: World, op: Op)
    requires s.p.scale > 0 && w.Valid()
    ensures Apply(s, w, op).Valid()
  {
    hide World.Valid, U.Extract, U.Subscribe, U.Register, U.CancelPending, U.SetUser, U.Log, P.Process, P.Confirm, SettleOnce;
    match op
    case Register(address, invite, io) => RegisterValid(w, s.genesis, address, invite, io);
    case AdminDeposit(address, amount) =>
      AccountOpsValid(w, address, amount);
    case ChainDeposit(user, usdt) =>
      if user in w.users {
        var u := w.users[user];
        SetAndLogValid(w, user, u.(account := u.account + usdt * U.USDT), Deposit, usdt * U.USDT);
      }
    case SetAccount(address, amount) => AccountOpsValid(w, address, amount);
    case SetWithdrawable(address, amount) => AccountOpsValid(w, address, amount);
    case Subscribe(user, amount) => SubscribeValid(s.p, w, user, amount);
    case Extract(user, amount) => ExtractValid(s.p, s.payout, w, user, amount);
    case CancelPending => CancelPendingValid(w, |w.withdraws|);
    case Payout(id, x) => PayoutValid(s, w, id, x);
    case ConfirmPayout(id, x) => PayoutValid(s, w, id, x);
    case SetVip(user, level) =>
      if user in w.users && level >= 0 {
        SetUserValid(w, user, w.users[user].(level := level, levelLocked := true));
      }
    case UnlockVip(user) =>
      if user in w.users {
        SetUserValid(w, user, w.users[user].(levelLocked := false));
      }
    case SetUserLock(user, lock) =>
      if user in w.users {
        SetUserValid(w, user, w.users[user].(disabled := lock));
      }
    case SetRewardLock(user, lock) =>
      if user in w.users {
        SetUserValid(w, user, w.users[user].(rewardLocked := lock));
      }
    case Settle(only, order) => SettlementShape(s.p, w, only, order);
  }

  lemma PayoutValid(s: Setting, w: World, id: nat, x: P.Weather)
    requires w.Valid()
    ensures w.(withdraws := P.Process(s.payout, Chained(w), id, x).0.rows).Valid()
    ensures w.(withdraws := P.Confirm(Chained(w), id, x).0.rows).Valid()
  {
    hide P.Process, P.Confirm, UsersOk;
    P.CallsMoveRowsForward(s.payout, Chained(w), id, x);
  }

  lemma AccountOpsValid(w: World, address: string, amount: int)
    requires w.Valid()
    ensures U.AdminDeposit(w, address, amount).Or(w).Valid()
    ensures U.SetAccount(w, address, amount).Or(w).Valid()
    ensures U.SetWithdrawable(w, address, amount).Or(w).Valid()
  {
    hide World.Valid, U.SetUser, U.Log;
    FoundAddress(w.ids, w.users, address);
    var found := U.FindByAddress(w.ids, w.users, address);
    if found.Some? {
      var id := found.value;
      var u := w.users[id];
      SetAndLogValid(w, id, u.(account := u.account + amount), Deposit, amount);
      SetAndLogValid(w, id, u.(account := amount), Deposit, amount - u.account);
      SetAndLogValid(w, id, u.(withdrawable := amount), AdminAdjust, amount - u.withdrawable);
    }
  }

  // ---- histories piece by piece ----

  lemma {:induction false} AfterAppend(s: Setting, w: World, a: seq<Op>, b: seq<Op>)
    requires s.p.scale > 0 && w.Valid()
    ensures After(s, w, a + b) == After(s, After(s, w, a), b)
    decreases |a|
  {
    hide World.Valid, Apply;
    if a == [] {
      assert a + b == b;
    } else {
      ApplyValid(s, w, a[0]);
      assert (a + b)[0] == a[0] && (a + b)[1..] == a[1..] + b;
      AfterAppend(s, Apply(s, w, a[0]), a[1..], b);
    }
  }

  lemma AfterOne(s: Setting, w: World, a: Op)
    requires s.p.scale > 0 && w.Valid()
    ensures After(s, w, [a]) == Apply(s, w, a)
  {
    hide World.Valid, Apply;
    assert [a][1..] == [];
  }

  lemma AfterTwo(s: Setting, w: World, a: Op, b: Op)
    requires s.p.scale > 0 && w.Valid()
    ensures Apply(s, w, a).Valid() && After(s, w, [a, b]) == Apply(s, Apply(s, w, a), b)
  {
    hide World.Valid, Apply;
    ApplyValid(s, w, a);
    AfterOne(s, Apply(s, w, a), b);
    assert [a, b][1..] == [b];
  }

  lemma AfterThree(s: Setting, w: World, a: Op, b: Op, c: Op)
    requires s.p.scale > 0 && w.Valid()
    ensures Apply(s, w, a).Valid() && Apply(s, Apply(s, w, a), b).Valid()
    ensures After(s, w, [a, b, c]) == Apply(s, Apply(s, Apply(s, w, a), b), c)
  {
    hide World.Valid, Apply;
    ApplyValid(s, w, a);
    AfterTwo(s, Apply(s, w, a), b, c);
    assert [a, b, c][1..] == [b, c];
  }
}
