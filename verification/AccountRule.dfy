/** What the administrative use cases, chain deposits and the cancellation of legacy withdrawals do to
    the tables, in plain terms (user.go, record.go). */
module AccountRule {
  import opened Tables
  import opened Settlement
  import opened Runs
  import opened RegistrationRule
  import U = UseCases

  /** Only user x's row and the ledger change, by this entry unless it is for nothing. */
  ghost predicate OneUser(w: World, after: World, x: nat, u: User, entries: seq<Entry>)
  {
    after == w.(users := w.users[x := u], ledger := w.ledger + entries)
  }

  /** A recharge of a positive amount adds it to the account of the user with this address. */
  lemma RechargeIs(s: Setting, w: World, address: string, amount: int, x: nat)
    requires s.p.scale > 0 && w.Valid() && AddressesUnique(w) && HasAddress(w, x, address)
    ensures var attempt := Attempt(s, w, Op.AdminDeposit(address, amount));
            && (amount <= 0 ==> attempt == U.Failed(U.InvalidAmount))
            && (amount > 0 ==>
                  attempt.Done? && OneUser(w, attempt.w, x, w.users[x].(account := w.users[x].account + amount), [Entry(x, Deposit, amount)]))
  {
    FoundExact(w, address);
    hide U.FindByAddress, World.Valid;
  }

  /** Setting the account makes it the amount and books the difference as deposit. */
  lemma AccountSetTo(s: Setting, w: World, address: string, amount: int, x: nat)
    requires s.p.scale > 0 && w.Valid() && AddressesUnique(w) && HasAddress(w, x, address)
    ensures var attempt := Attempt(s, w, Op.SetAccount(address, amount));
            && (amount < 0 ==> attempt == U.Failed(U.InvalidAmount))
            && (amount >= 0 ==>
                  attempt.Done? && OneUser(w, attempt.w, x, w.users[x].(account := amount),
                             if amount == w.users[x].account then [] else [Entry(x, Deposit, amount - w.users[x].account)]))
  {
    FoundExact(w, address);
    hide U.FindByAddress, World.Valid;
    assert w.users[x := w.users[x].(account := w.users[x].account)] == w.users;
  }

  /** Setting the withdrawable balance makes it the amount and books the difference as adjustment. */
  lemma WithdrawableSetTo(s: Setting, w: World, address: string, amount: int, x: nat)
    requires s.p.scale > 0 && w.Valid() && AddressesUnique(w) && HasAddress(w, x, address)
    ensures var attempt := Attempt(s, w, Op.SetWithdrawable(address, amount));
            && (amount < 0 ==> attempt == U.Failed(U.InvalidAmount))
            && (amount >= 0 ==>
                  attempt.Done? && OneUser(w, attempt.w, x, w.users[x].(withdrawable := amount),
                             if amount == w.users[x].withdrawable then [] else [Entry(x, AdminAdjust, amount - w.users[x].withdrawable)]))
  {
    FoundExact(w, address);
    hide U.FindByAddress, World.Valid;
    assert w.users[x := w.users[x].(withdrawable := w.users[x].withdrawable)] == w.users;
  }

  /** An unknown address is refused by all three, and changes nothing. */
  lemma UnknownAddress(s: Setting, w: World, address: string, amount: int)
    requires s.p.scale > 0 && w.Valid() && AddressesUnique(w) && forall x: nat :: !HasAddress(w, x, address)
    ensures forall op :: op in [Op.AdminDeposit(address, amount), Op.SetAccount(address, amount), Op.SetWithdrawable(address, amount)] ==>
              Attempt(s, w, op).Failed? && Apply(s, w, op) == w
  {
    FoundExact(w, address);
    hide U.FindByAddress, World.Valid;
  }

  /** A chain deposit of at least five whole USDT for a known user is credited in money units. */
  lemma ChainDepositIs(s: Setting, w: World, x: nat, usdt: int)
    requires s.p.scale > 0 && w.Valid()
    ensures var attempt := Attempt(s, w, Op.ChainDeposit(x, usdt));
            && (attempt.Done? <==> usdt >= 5 && x in w.users)
            && (attempt.Done? ==> OneUser(w, attempt.w, x, w.users[x].(account := w.users[x].account + usdt * 100_000_000),
                                          [Entry(x, Deposit, usdt * 100_000_000)]))
  {
    assert 0 !in w.users;
    hide World.Valid, U.Register, U.AdminDeposit, U.SetAccount, U.SetWithdrawable, U.Subscribe, U.Extract, U.CancelPending, SettleOnce;
  }

  /** Levels 0 to 9 are stored and locked; the other switches change one flag. */
  lemma SwitchesAre(s: Setting, w: World, x: nat, level: int, on: bool)
    requires s.p.scale > 0 && w.Valid()
    ensures Attempt(s, w, Op.SetVip(x, level)).Done? <==> 0 <= level <= 9 && x in w.users
    ensures x in w.users ==>
              && (0 <= level <= 9 ==> OneUser(w, Apply(s, w, Op.SetVip(x, level)), x, w.users[x].(level := level, levelLocked := true), []))
              && OneUser(w, Apply(s, w, Op.UnlockVip(x)), x, w.users[x].(levelLocked := false), [])
              && OneUser(w, Apply(s, w, Op.SetUserLock(x, on)), x, w.users[x].(disabled := on), [])
              && OneUser(w, Apply(s, w, Op.SetRewardLock(x, on)), x, w.users[x].(rewardLocked := on), [])
  {
    hide World.Valid;
    assert w.ledger + [] == w.ledger;
  }

  // ---- cancelled legacy rows ----

  /** What x has in pending rows below n. */
  ghost function PendingOf(rows: seq<Withdraw>, n: nat, x: nat): int
    requires n <= |rows|
  {
    if n == 0 then 0
    else PendingOf(rows, n - 1, x) + if rows[n - 1].status.Pending? && rows[n - 1].user == x then rows[n - 1].amount else 0
  }

  lemma {:induction false} SamePending(a: seq<Withdraw>, b: seq<Withdraw>, n: nat, x: nat)
    requires n <= |a| && n <= |b| && forall i :: 0 <= i < n ==> a[i] == b[i]
    ensures PendingOf(a, n, x) == PendingOf(b, n, x)
  {
    if n > 0 {
      SamePending(a, b, n - 1, x);
    }
  }

  /** Pending rows below n are cancelled and their amounts returned; no other row, user or table moves. */
  ghost predicate PendingReturned(w: World, after: World, n: nat)
    requires n <= |w.withdraws|
  {
    && |after.withdraws| == |w.withdraws| && after.users.Keys == w.users.Keys
    && (forall i :: 0 <= i < |w.withdraws| ==>
          after.withdraws[i] == if i < n && w.withdraws[i].status.Pending? then w.withdraws[i].(status := Cancelled) else w.withdraws[i])
    && (forall x :: x in w.users ==>
          after.users[x] == w.users[x].(withdrawable := w.users[x].withdrawable + PendingOf(w.withdraws, n, x)))
    && after.orders == w.orders && after.ledger == w.ledger && after.ids == w.ids && after.paths == w.paths && after.nextId == w.nextId
  }

  /** The newest row first, then the others. */
  lemma ReturnedFirst(w: World, after: World, n: nat)
    requires 0 < n <= |w.withdraws| && w.withdraws[n - 1].status.Pending?
    requires PendingReturned(U.Refunded(w, n - 1), after, n - 1)
    ensures PendingReturned(w, after, n)
  {
    hide PendingOf;
    var refunded, row := U.Refunded(w, n - 1), w.withdraws[n - 1];
    assert refunded.withdraws == w.withdraws[n - 1 := row.(status := Cancelled)];
    forall u | u in w.users
      ensures PendingOf(refunded.withdraws, n - 1, u) == PendingOf(w.withdraws, n - 1, u)
      ensures PendingOf(w.withdraws, n, u) == PendingOf(w.withdraws, n - 1, u) + if row.user == u then row.amount else 0
    {
      SamePending(refunded.withdraws, w.withdraws, n - 1, u);
      PendingStep(w.withdraws, n, u);
    }
  }

  lemma PendingStep(rows: seq<Withdraw>, n: nat, x: nat)
    requires 0 < n <= |rows|
    ensures PendingOf(rows, n, x)
         == PendingOf(rows, n - 1, x) + if rows[n - 1].status.Pending? && rows[n - 1].user == x then rows[n - 1].amount else 0
  {
  }

  lemma {:induction false} CancelReturns(w: World, n: nat)
    requires n <= |w.withdraws|
    ensures PendingReturned(w, U.CancelPending(w, n), n)
    decreases n
  {
    if n > 0 {
      if w.withdraws[n - 1].status.Pending? {
        hide PendingReturned, U.Refunded;
        CancelReturns(U.Refunded(w, n - 1), n - 1);
        ReturnedFirst(w, U.CancelPending(w, n), n);
      } else {
        CancelReturns(w, n - 1);
      }
    }
  }

  /** Cancelling returns every pending row's amount to its owner, once. */
  lemma CancellationIs(s: Setting, w: World)
    requires s.p.scale > 0 && w.Valid()
    ensures PendingReturned(w, Apply(s, w, Op.CancelPending), |w.withdraws|)
  {
    hide World.Valid, U.CancelPending;
    CancelReturns(w, |w.withdraws|);
  }
}
