/** Specification of the state-changing use cases of record.go and user.go, each one atomic
    step on the tables.  An error leaves the tables as they were. */
module UseCases {
  import opened Arith
  import opened Params
  import opened Rate
  import opened Orders
  import opened Tables
  import opened Text

  datatype Error =
    | InvalidAmount | UserNotFound | UserDisabled | InviteRequired | InviteInvalid
    | InsufficientBalance | PayoutDisabled | PayoutMaxRequired | PayoutNotConfigured | PayoutAboveMax

  datatype Outcome = Done(w: World) | Failed(error: Error)
  {
    function Or(before: World): World
    {
      if Done? then w else before
    }
  }

  /** ready: RPC, token and key are set. */
  datatype PayoutConfig = PayoutConfig(enabled: bool, maxUsdt: int, ready: bool)

  /** One USDT in money units. */
  const USDT: int := 100_000_000

  // ---- users ----

  /** WHERE address = ?. */
  function FindByAddress(ids: seq<nat>, users: map<nat, User>, address: string): Option<nat>
  {
    if ids == [] then None
    else if ids[0] in users && users[ids[0]].address == address then Some(ids[0])
    else FindByAddress(ids[1..], users, address)
  }

  function NewUser(address: string, inviter: Option<nat>): User
  {
    User(address, inviter, 0, 0, 0, 0, false, false, false)
  }

  /** What a registration meets in the database: auto-increment values lost to failed inserts,
      whether the inviter's path row could be read and whether the own one could be written.
      The source drops both errors. */
  datatype PathIo = PathIo(gap: nat, read: bool, saved: bool)

  /** The path row of a new user: the inviter's path, when one was read, and the own id. */
  function NewPath(paths: map<nat, string>, id: nat, inviter: Option<nat>, read: bool): string
  {
    if inviter.Some? && read && inviter.value in paths && paths[inviter.value] != ""
    then paths[inviter.value] + "," + Numeral(id)
    else Numeral(id)
  }

  function AddUser(w: World, address: string, inviter: Option<nat>, io: PathIo): World
  {
    var id := w.nextId + io.gap;
    w.(nextId := id + 1,
       ids := w.ids + [id],
       users := w.users[id := NewUser(address, inviter)],
       paths := if io.saved then w.paths[id := NewPath(w.paths, id, inviter, io.read)] else w.paths)
  }

  /** Login or EthAuthorize after the signature was accepted. */
  function Register(w: World, genesis: string, address: string, invite: string, io: PathIo): Outcome
  {
    match FindByAddress(w.ids, w.users, address)
    case Some(id) => if id in w.users && w.users[id].disabled then Failed(UserDisabled) else Done(w)
    case None =>
      if address == genesis then Done(AddUser(w, address, None, io))
      else if invite == "" then Failed(InviteRequired)
      else if invite == address then Failed(InviteInvalid)
      else
        match FindByAddress(w.ids, w.users, invite)
        case None => Failed(InviteInvalid)
        case Some(inviter) => Done(AddUser(w, address, Some(inviter), io))
  }

  function SetUser(w: World, id: nat, u: User): World
  {
    w.(users := w.users[id := u])
  }

  function Log(w: World, user: nat, kind: Kind, amount: int): World
  {
    w.(ledger := w.ledger + [Entry(user, kind, amount)])
  }

  /** AddAccountBalance and its ledger row: admin recharge and chain deposit. */
  function CreditAccount(w: World, id: nat, amount: int): World
  {
    if id in w.users
    then Log(SetUser(w, id, w.users[id].(account := w.users[id].account + amount)), id, Deposit, amount)
    else w
  }

  function AdminDeposit(w: World, address: string, amount: int): Outcome
  {
    if amount <= 0 then Failed(InvalidAmount)
    else
      match FindByAddress(w.ids, w.users, address)
      case None => Failed(UserNotFound)
      case Some(id) => Done(CreditAccount(w, id, amount))
  }

  /** Set the account balance to a target; the difference is booked as deposit. */
  function SetAccount(w: World, address: string, amount: int): Outcome
  {
    if amount < 0 then Failed(InvalidAmount)
    else
      match FindByAddress(w.ids, w.users, address)
      case None => Failed(UserNotFound)
      case Some(id) =>
        if id !in w.users || w.users[id].account == amount then Done(w)
        else Done(Log(SetUser(w, id, w.users[id].(account := amount)), id, Deposit, amount - w.users[id].account))
  }

  /** Set the withdrawable balance to a target; the difference is booked as adjustment. */
  function SetWithdrawable(w: World, address: string, amount: int): Outcome
  {
    if amount < 0 then Failed(InvalidAmount)
    else
      match FindByAddress(w.ids, w.users, address)
      case None => Failed(UserNotFound)
      case Some(id) =>
        if id !in w.users || w.users[id].withdrawable == amount then Done(w)
        else Done(Log(SetUser(w, id, w.users[id].(withdrawable := amount)), id, AdminAdjust,
                      amount - w.users[id].withdrawable))
  }

  function SetVip(w: World, id: nat, level: int): Outcome
  {
    if level < 0 || level > 9 then Failed(InvalidAmount)
    else if id !in w.users then Failed(UserNotFound)
    else Done(SetUser(w, id, w.users[id].(level := level, levelLocked := true)))
  }

  function UnlockVip(w: World, id: nat): Outcome
  {
    if id !in w.users then Failed(UserNotFound)
    else Done(SetUser(w, id, w.users[id].(levelLocked := false)))
  }

  function SetUserLock(w: World, id: nat, lock: bool): Outcome
  {
    if id !in w.users then Failed(UserNotFound)
    else Done(SetUser(w, id, w.users[id].(disabled := lock)))
  }

  function SetRewardLock(w: World, id: nat, lock: bool): Outcome
  {
    if id !in w.users then Failed(UserNotFound)
    else Done(SetUser(w, id, w.users[id].(rewardLocked := lock)))
  }

  // ---- orders ----

  /** Lowest subscription: the configured one, or 100 USDT when that is not positive. */
  function LowestSubscription(p: Params): int
  {
    if p.minSubscribe > 0 then p.minSubscribe else 100 * USDT
  }

  function NewOrder(p: Params, user: nat, amount: int, multiplier: int): Order
  {
    Order(user, amount, multiplier, RoundDiv(amount * multiplier, 10), 0, Active, InitialCycle(p))
  }

  /** CreateLocation. */
  function Subscribe(p: Params, w: World, id: nat, amount: int): Outcome
  {
    if amount <= 0 || amount < LowestSubscription(p) || MultiplierFor(p, amount).None? then Failed(InvalidAmount)
    else if id !in w.users then Failed(UserNotFound)
    else if w.users[id].account < amount then Failed(InsufficientBalance)
    else
      Done(SetUser(w, id, w.users[id].(account := w.users[id].account - amount)).(
             orders := w.orders + [NewOrder(p, id, amount, MultiplierFor(p, amount).value)]))
  }

  // ---- withdrawals ----

  function PayoutBlocker(c: PayoutConfig, credited: int): Option<Error>
  {
    if !c.enabled then Some(PayoutDisabled)
    else if c.maxUsdt <= 0 then Some(PayoutMaxRequired)
    else if !c.ready then Some(PayoutNotConfigured)
    else if credited > c.maxUsdt then Some(PayoutAboveMax)
    else None
  }

  function Fee(p: Params, amount: int): int
    requires p.scale > 0
  {
    RoundDiv(amount * p.extractFee, p.scale)
  }

  /** The rate turn over all of u's active orders. */
  function TurnOrders(p: Params, orders: seq<Order>, u: nat): (turned: seq<Order>)
    ensures |turned| == |orders|
    ensures forall i :: 0 <= i < |orders| ==>
              turned[i] == if orders[i].ActiveFor(u) then orders[i].(cycle := Turn(p, orders[i].cycle)) else orders[i]
  {
    seq(|orders|, i requires 0 <= i < |orders| =>
      if orders[i].ActiveFor(u) then orders[i].(cycle := Turn(p, orders[i].cycle)) else orders[i])
  }

  /** CreateWithdraw: deduct, queue for payout, turn the rates, book. */
  function Extract(p: Params, c: PayoutConfig, w: World, id: nat, amount: int): Outcome
    requires p.scale > 0
  {
    if amount <= 0 then Failed(InvalidAmount)
    else if id !in w.users then Failed(UserNotFound)
    else if w.users[id].withdrawable < amount then Failed(InsufficientBalance)
    else
      var fee := Fee(p, amount);
      match PayoutBlocker(c, amount - fee)
      case Some(error) => Failed(error)
      case None =>
        var debited := SetUser(w, id, w.users[id].(withdrawable := w.users[id].withdrawable - amount));
        Done(Log(debited.(withdraws := w.withdraws + [Withdraw(id, amount, fee, amount - fee, Rewarded, "")],
                          orders := TurnOrders(p, w.orders, id)),
                 id, Kind.Extract, -amount))
  }

  /** Row i cancelled and its amount back in the balance. */
  function Refunded(w: World, i: nat): (after: World)
    requires i < |w.withdraws|
    ensures |after.withdraws| == |w.withdraws|
  {
    var x := w.withdraws[i];
    w.(withdraws := w.withdraws[i := x.(status := Cancelled)], users := AddWithdrawable(w.users, x.user, x.amount))
  }

  /** CancelAllPendingWithdraws: legacy pending rows are cancelled and refunded, without a
      ledger row; newest first. */
  function CancelPending(w: World, n: nat): World
    requires n <= |w.withdraws|
    decreases n
  {
    if n == 0 then w
    else
      var x := w.withdraws[n - 1];
      if x.status.Pending?
      then CancelPending(Refunded(w, n - 1), n - 1)
      else CancelPending(w, n - 1)
  }
}
