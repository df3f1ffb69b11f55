/** Who can register and under whom, in plain terms and over any history (user.go, Login and
    EthAuthorize). */
module RegistrationRule {
  import opened Arith
  import opened Rate
  import opened Tables
  import opened Settlement
  import opened Runs
  import U = UseCases
  import P = Payout

  /** User x has this address. */
  ghost predicate HasAddress(w: World, x: nat, address: string)
  {
    x in w.users && w.users[x].address == address
  }

  ghost predicate AddressesUnique(w: World)
  {
    forall x, y :: x in w.users && y in w.users && w.users[x].address == w.users[y].address ==> x == y
  }

  lemma {:induction false} FoundIsListed(ids: seq<nat>, users: map<nat, User>, address: string)
    ensures match U.FindByAddress(ids, users, address)
            case None => forall x :: x in ids && x in users ==> users[x].address != address
            case Some(x) => x in ids && x in users && users[x].address == address
  {
    if ids != [] {
      FoundIsListed(ids[1..], users, address);
    }
  }

  lemma FoundExact(w: World, address: string)
    requires w.Valid() && AddressesUnique(w)
    ensures forall x: nat :: HasAddress(w, x, address) ==> U.FindByAddress(w.ids, w.users, address) == Some(x)
    ensures (forall x: nat :: !HasAddress(w, x, address)) ==> U.FindByAddress(w.ids, w.users, address) == None
  {
    FoundIsListed(w.ids, w.users, address);
    assert forall x :: x in w.ids <==> x in w.users;
    hide U.FindByAddress, World.Valid;
    var found := U.FindByAddress(w.ids, w.users, address);
    if found.Some? {
      assert HasAddress(w, found.value, address);
    }
  }

  /** A new user without balances, orders, level or locks, under inviter. */
  ghost predicate Joined(w: World, after: World, id: nat, address: string, inviter: Option<nat>)
  {
    && id >= w.nextId && after.nextId == id + 1 && after.ids == w.ids + [id]
    && after.users == w.users[id := User(address, inviter, 0, 0, 0, 0, false, false, false)]
    && after.orders == w.orders && after.withdraws == w.withdraws && after.ledger == w.ledger
  }

  /** A known address registers nobody, and is refused when disabled. */
  lemma KnownAddress(s: Setting, w: World, address: string, invite: string, io: U.PathIo, x: nat)
    requires s.p.scale > 0 && w.Valid() && AddressesUnique(w) && HasAddress(w, x, address)
    ensures Attempt(s, w, Op.Register(address, invite, io)) == if w.users[x].disabled then U.Failed(U.UserDisabled) else U.Done(w)
  {
    FoundExact(w, address);
    hide U.FindByAddress, World.Valid;
  }

  /** The genesis address joins without inviter, whatever invite it gives. */
  lemma GenesisJoins(s: Setting, w: World, invite: string, io: U.PathIo)
    requires s.p.scale > 0 && w.Valid() && AddressesUnique(w) && forall x: nat :: !HasAddress(w, x, s.genesis)
    ensures var attempt := Attempt(s, w, Op.Register(s.genesis, invite, io));
            attempt.Done? && Joined(w, attempt.w, w.nextId + io.gap, s.genesis, None)
  {
    FoundExact(w, s.genesis);
    hide U.FindByAddress, World.Valid, U.NewPath;
  }

  /** Any other new address joins under the user whose address the invite is, and needs one: its own
      address and an unknown one are refused as invalid, none as missing. */
  lemma InvitedJoins(s: Setting, w: World, address: string, invite: string, io: U.PathIo)
    requires s.p.scale > 0 && w.Valid() && AddressesUnique(w) && address != s.genesis
    requires forall x: nat :: !HasAddress(w, x, address)
    ensures var attempt := Attempt(s, w, Op.Register(address, invite, io));
            && (invite == "" ==> attempt == U.Failed(U.InviteRequired))
            && (invite != "" && (forall v: nat :: !HasAddress(w, v, invite)) ==> attempt == U.Failed(U.InviteInvalid))
            && (forall v: nat :: HasAddress(w, v, invite) && invite != "" ==>
                  attempt.Done? && Joined(w, attempt.w, w.nextId + io.gap, address, Some(v)))
  {
    FoundExact(w, address);
    FoundExact(w, invite);
    hide U.FindByAddress, World.Valid, U.NewPath;
  }

  // ---- over any history ----

  /** Nobody's address or inviter changes. */
  ghost predicate SameNames(a: World, b: World)
  {
    && a.users.Keys == b.users.Keys
    && forall x :: x in a.users ==> b.users[x].address == a.users[x].address && b.users[x].inviter == a.users[x].inviter
  }

  lemma {:induction false} CancelKeepsNames(w: World, n: nat)
    requires n <= |w.withdraws|
    ensures SameNames(w, U.CancelPending(w, n))
    decreases n
  {
    if n > 0 {
      CancelKeepsNames(if w.withdraws[n - 1].status.Pending? then U.Refunded(w, n - 1) else w, n - 1);
    }
  }

  lemma UserKeepsNames(w: World, id: nat, u: User)
    requires id in w.users && u.address == w.users[id].address && u.inviter == w.users[id].inviter
    ensures SameNames(w, U.SetUser(w, id, u))
  {
  }

  lemma LogKeepsNames(w: World, v: World, user: nat, kind: Kind, amount: int)
    requires SameNames(w, v)
    ensures SameNames(w, U.Log(v, user, kind, amount))
  {
  }

  /** The operations that name their user by address. */
  lemma AddressedKeepNames(s: Setting, w: World, op: Op)
    requires s.p.scale > 0 && w.Valid() && (op.AdminDeposit? || op.SetAccount? || op.SetWithdrawable?)
    ensures SameNames(w, Apply(s, w, op))
  {
    hide World.Valid, U.FindByAddress, SameNames, U.SetUser, U.Log;
    FoundIsListed(w.ids, w.users, op.address);
    SameNamesSelf(w);
    var found := U.FindByAddress(w.ids, w.users, op.address);
    if found.Some? {
      var id, u := found.value, w.users[found.value];
      UserKeepsNames(w, id, u.(account := u.account + op.amount));
      LogKeepsNames(w, U.SetUser(w, id, u.(account := u.account + op.amount)), id, Deposit, op.amount);
      UserKeepsNames(w, id, u.(account := op.amount));
      LogKeepsNames(w, U.SetUser(w, id, u.(account := op.amount)), id, Deposit, op.amount - u.account);
      UserKeepsNames(w, id, u.(withdrawable := op.amount));
      LogKeepsNames(w, U.SetUser(w, id, u.(withdrawable := op.amount)), id, AdminAdjust, op.amount - u.withdrawable);
    }
  }

  lemma SameNamesSelf(w: World)
    ensures SameNames(w, w)
  {
  }

  lemma OthersKeepNames(s: Setting, w: World, op: Op)
    requires s.p.scale > 0 && w.Valid() && !op.Register?
    ensures SameNames(w, Apply(s, w, op))
  {
    if op.AdminDeposit? || op.SetAccount? || op.SetWithdrawable? {
      AddressedKeepNames(s, w, op);
    } else if op.CancelPending? || op.Settle? || op.Payout? || op.ConfirmPayout? {
      hide World.Valid, SettleOnce, P.Process, P.Confirm, U.CancelPending;
      match op
      case CancelPending => CancelKeepsNames(w, |w.withdraws|);
      case Settle(only, order) => SettlementShape(s.p, w, only, order);
      case _ =>
    } else {
      UserOpsKeepNames(s, w, op);
    }
  }

  /** The operations that name their user by id. */
  lemma UserOpsKeepNames(s: Setting, w: World, op: Op)
    requires s.p.scale > 0 && w.Valid()
    requires op.ChainDeposit? || op.Subscribe? || op.Extract? || op.SetVip? || op.UnlockVip? || op.SetUserLock? || op.SetRewardLock?
    ensures SameNames(w, Apply(s, w, op))
  {
    hide World.Valid, MultiplierFor, U.NewOrder, U.TurnOrders, U.Fee, U.PayoutBlocker, U.LowestSubscription;
  }

  lemma RegisterUnique(s: Setting, w: World, op: Op)
    requires s.p.scale > 0 && w.Valid() && AddressesUnique(w) && op.Register?
    ensures AddressesUnique(Apply(s, w, op))
  {
    FoundIsListed(w.ids, w.users, op.address);
    assert forall x :: x in w.users ==> x in w.ids;
    hide U.FindByAddress, World.Valid, U.NewPath;
  }

  /** Over any history no two users share an address. */
  lemma {:induction false} UniqueOverRuns(s: Setting, w: World, ops: seq<Op>)
    requires s.p.scale > 0 && w.Valid() && AddressesUnique(w)
    ensures AddressesUnique(After(s, w, ops))
    decreases |ops|
  {
    if ops != [] {
      hide World.Valid, Apply, AddressesUnique, SameNames;
      ApplyValid(s, w, ops[0]);
      if ops[0].Register? {
        RegisterUnique(s, w, ops[0]);
      } else {
        OthersKeepNames(s, w, ops[0]);
        NamesUnique(w, Apply(s, w, ops[0]));
      }
      UniqueOverRuns(s, Apply(s, w, ops[0]), ops[1..]);
    }
  }

  lemma NamesUnique(a: World, b: World)
    requires AddressesUnique(a) && SameNames(a, b)
    ensures AddressesUnique(b)
  {
  }

  /** In every history from empty tables addresses are unique. */
  lemma UniqueFromEmpty(s: Setting, ops: seq<Op>)
    requires s.p.scale > 0
    ensures AddressesUnique(History(s, ops))
  {
    EmptyValid();
    assert AddressesUnique(EmptyWorld);
    hide World.Valid, After, AddressesUnique;
    UniqueOverRuns(s, EmptyWorld, ops);
  }
}
