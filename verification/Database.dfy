/** The stored tables as one mutable database (the data package): queries read the current rows, updates
    change them in place, each call takes effect at once or not at all. */
module Database {
  import opened Arith
  import opened Forest
  import opened Orders
  import opened Tables
  import opened Settlement
  import opened Text
  import U = UseCases

  class Database {
    var nextId: nat
    var ids: seq<nat>
    var users: map<nat, User>
    var paths: map<nat, string>
    var orders: seq<Order>
    var withdraws: seq<Withdraw>
    var ledger: seq<Entry>

    function Snapshot(): World
      reads this
    {
      World(nextId, ids, users, paths, orders, withdraws, ledger)
    }

    constructor ()
      ensures Snapshot() == World(1, [], map[], map[], [], [], [])
    {
      nextId, ids, users, paths, orders, withdraws, ledger := 1, [], map[], map[], [], [], [];
    }

    // ---- users ----

    function FindUser(id: nat): Option<User>
      reads this`users
    {
      if id in users then Some(users[id]) else None
    }

    function FindByAddress(address: string): Option<nat>
      reads this`ids, this`users
    {
      U.FindByAddress(ids, users, address)
    }

    /** Direct referrals with at least one order. */
    function CountEffectiveDirectReferrals(inviter: nat): nat
      reads this
    {
      EffectiveDirects(Snapshot(), ids, inviter)
    }

    method CreateUser(address: string, inviter: Option<nat>, gap: nat) returns (id: nat)
      modifies this`nextId, this`ids, this`users
      ensures id == old(nextId) + gap && nextId == id + 1
      ensures ids == old(ids) + [id] && users == old(users)[id := U.NewUser(address, inviter)]
    {
      id := nextId + gap;
      nextId, ids, users := id + 1, ids + [id], users[id := U.NewUser(address, inviter)];
    }

    /** Direct referrals, oldest first. */
    function ListByInviter(inviter: nat): seq<nat>
      reads this
    {
      ChildList(ids, Snapshot().Parents(), inviter)
    }

    function GetPath(id: nat): string
      reads this`paths
    {
      if id in paths then paths[id] else ""
    }

    method SavePath(id: nat, path: string, works: bool)
      modifies this`paths
      ensures paths == if works then old(paths)[id := path] else old(paths)
    {
      if works {
        paths := paths[id := path];
      }
    }

    method UpdateUser(id: nat, u: User)
      requires id in users
      modifies this`users
      ensures users == old(users)[id := u]
    {
      users := users[id := u];
    }

    method UpdateCommunity(id: nat, level: nat, volume: int)
      modifies this`users
      ensures users == if id in old(users) then old(users)[id := old(users)[id].(level := level, volume := volume)] else old(users)
    {
      if id in users {
        users := users[id := users[id].(level := level, volume := volume)];
      }
    }

    method UpdateCommunityVolume(id: nat, volume: int)
      modifies this`users
      ensures users == if id in old(users) then old(users)[id := old(users)[id].(volume := volume)] else old(users)
    {
      if id in users {
        users := users[id := users[id].(volume := volume)];
      }
    }

    // ---- balances ----

    method AddWithdrawableBalance(id: nat, delta: int) returns (ok: bool)
      modifies this`users
      ensures users == AddWithdrawable(old(users), id, delta) && ok == (id in users)
    {
      users, ok := AddWithdrawable(users, id, delta), id in users;
    }

    method AddAccountBalance(id: nat, delta: int) returns (ok: bool)
      modifies this`users
      ensures ok == (id in old(users))
      ensures users == if ok then old(users)[id := old(users)[id].(account := old(users)[id].account + delta)] else old(users)
    {
      ok := id in users;
      if ok {
        users := users[id := users[id].(account := users[id].account + delta)];
      }
    }

    /** SET account = account - delta WHERE account >= delta. */
    method SubAccountBalance(id: nat, delta: int) returns (ok: bool)
      modifies this`users
      ensures ok == (id in old(users) && old(users)[id].account >= delta)
      ensures users == if ok then old(users)[id := old(users)[id].(account := old(users)[id].account - delta)] else old(users)
    {
      ok := id in users && users[id].account >= delta;
      if ok {
        users := users[id := users[id].(account := users[id].account - delta)];
      }
    }

    /** SET withdrawable = withdrawable - delta WHERE withdrawable >= delta. */
    method SubWithdrawableBalance(id: nat, delta: int) returns (ok: bool)
      modifies this`users
      ensures ok == (id in old(users) && old(users)[id].withdrawable >= delta)
      ensures users == if ok then old(users)[id := old(users)[id].(withdrawable := old(users)[id].withdrawable - delta)]
                       else old(users)
    {
      ok := id in users && users[id].withdrawable >= delta;
      if ok {
        users := users[id := users[id].(withdrawable := users[id].withdrawable - delta)];
      }
    }

    // ---- orders ----

    function FindOrder(i: nat): Option<Order>
      reads this`orders
    {
      if i < |orders| then Some(orders[i]) else None
    }

    function ListActive(only: seq<nat>): seq<nat>
      reads this`orders
    {
      ActiveIds(orders, only)
    }

    function FindEarliestActive(u: nat): Option<nat>
      reads this`orders
    {
      EarliestActive(orders, u)
    }

    /** u's active orders, newest first. */
    function ListActiveOf(u: nat): seq<nat>
      reads this`orders
    {
      ActiveOf(orders, u)
    }

    function SumAmountsByUser(): map<nat, int>
      reads this`orders
    {
      map u | u in Owners(orders) :: AmountTotal(orders, u)
    }

    function SumAmountByPathPrefix(prefix: string): int
      reads this`orders, this`paths
    {
      PrefixVolume(paths, orders, prefix)
    }

    method CreateOrder(o: Order)
      modifies this`orders
      ensures orders == old(orders) + [o]
    {
      orders := orders + [o];
    }

    /** Writes progress, status and rate fields, and no other column. */
    method UpdateOrder(i: nat, o: Order) returns (ok: bool)
      modifies this`orders
      ensures ok == (i < |old(orders)|)
      ensures orders == if ok then old(orders)[i := Written(old(orders)[i], o)] else old(orders)
    {
      ok := i < |orders|;
      if ok {
        orders := orders[i := Written(orders[i], o)];
      }
    }

    // ---- withdrawals and ledger ----

    /** Pending rows, newest first. */
    function ListPending(): seq<nat>
      reads this`withdraws
    {
      PendingIds(withdraws)
    }

    method CreateWithdraw(x: Withdraw)
      modifies this`withdraws
      ensures withdraws == old(withdraws) + [x]
    {
      withdraws := withdraws + [x];
    }

    method CasUpdateStatus(i: nat, from: WithdrawStatus, to: WithdrawStatus) returns (ok: bool)
      modifies this`withdraws
      ensures ok == (i < |old(withdraws)| && old(withdraws)[i].status == from)
      ensures withdraws == if ok then old(withdraws)[i := old(withdraws)[i].(status := to)] else old(withdraws)
    {
      ok := i < |withdraws| && withdraws[i].status == from;
      if ok {
        withdraws := withdraws[i := withdraws[i].(status := to)];
      }
    }

    method WriteLedger(user: nat, kind: Kind, amount: int)
      modifies this`ledger
      ensures ledger == old(ledger) + [Entry(user, kind, amount)]
    {
      ledger := ledger + [Entry(user, kind, amount)];
    }
  }

  /** What an update with o leaves of a row; an unset last settled rate is not written. */
  function Written(row: Order, o: Order): Order
  {
    row.(acc := o.acc, status := o.status,
         cycle := o.cycle.(lastSettled := if o.cycle.lastSettled.Some? then o.cycle.lastSettled else row.cycle.lastSettled))
  }

  // ---- query semantics ----

  function ActiveOf(orders: seq<Order>, u: nat): (r: seq<nat>)
    ensures forall i: nat :: i in r <==> i < |orders| && orders[i].ActiveFor(u)
    ensures forall j, k :: 0 <= j < k < |r| ==> r[j] > r[k]
  {
    if orders == [] then []
    else
      var n := |orders| - 1;
      assert forall i :: 0 <= i < n ==> orders[..n][i] == orders[i];
      var rest := ActiveOf(orders[..n], u);
      assert forall k :: 0 <= k < |rest| ==> rest[k] in rest;
      (if orders[n].ActiveFor(u) then [n] else []) + rest
  }

  function PendingIds(withdraws: seq<Withdraw>): (r: seq<nat>)
    ensures forall i: nat :: i in r <==> i < |withdraws| && withdraws[i].status.Pending?
    ensures forall j, k :: 0 <= j < k < |r| ==> r[j] > r[k]
  {
    if withdraws == [] then []
    else
      var n := |withdraws| - 1;
      assert forall i :: 0 <= i < n ==> withdraws[..n][i] == withdraws[i];
      var rest := PendingIds(withdraws[..n]);
      assert forall k :: 0 <= k < |rest| ==> rest[k] in rest;
      (if withdraws[n].status.Pending? then [n] else []) + rest
  }

  function Owners(orders: seq<Order>): (owners: set<nat>)
    ensures forall u :: u in owners <==> HasOrder(orders, u)
  {
    set i | 0 <= i < |orders| :: orders[i].user
  }

  function PrefixVolume(paths: map<nat, string>, orders: seq<Order>, prefix: string): int
  {
    if orders == [] then 0
    else (if orders[0].user in paths && PathMatches(paths[orders[0].user], prefix) then orders[0].amount else 0)
         + PrefixVolume(paths, orders[1..], prefix)
  }
}
