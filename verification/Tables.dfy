/** The stored tables (models.go) and the one way dynamic rewards change them. */
module Tables {
  import opened Arith
  import opened Sums
  import opened Forest
  import opened Orders

  datatype User = User(
    address: string,
    inviter: Option<nat>,
    account: int,
    withdrawable: int,
    level: nat,
    volume: int,
    levelLocked: bool,
    disabled: bool,
    rewardLocked: bool)

  datatype Kind = Static | Generation | CommunityBase | Peer | Extract | Deposit | AdminAdjust
  {
    /** Earnings that also advance an order. */
    predicate Reward()
    {
      Static? || Generation? || CommunityBase? || Peer?
    }
  }

  datatype Entry = Entry(user: nat, kind: Kind, amount: int)

  datatype WithdrawStatus = Pending | Rewarded | Doing | Pass | Approved | Rejected | Cancelled

  /** Withdrawal rows are kept in id order; a row's position is its id. */
  datatype Withdraw = Withdraw(user: nat, amount: int, fee: int, credited: int, status: WithdrawStatus, txHash: string)

  /** ids lists the users in id order; nextId is the next auto-increment value. */
  datatype World = World(
    nextId: nat,
    ids: seq<nat>,
    users: map<nat, User>,
    paths: map<nat, string>,
    orders: seq<Order>,
    withdraws: seq<Withdraw>,
    ledger: seq<Entry>)
  {
    /** Keys, foreign keys and the registration discipline. */
    ghost predicate Valid()
    {
      && UsersOk(nextId, ids, users)
      && OrdersOwned(orders, users.Keys)
      && WithdrawsOwned(withdraws, users.Keys)
    }

    function Parents(): map<nat, nat>
    {
      map x | x in users && users[x].inviter.Some? :: users[x].inviter.value
    }

    function Tree(): Tree
    {
      var parent := Parents();
      Forest.Tree.Tree(ids, parent, map p | p in parent.Values :: ChildList(ids, parent, p))
    }

    lemma TreeValid()
      requires Valid()
      ensures Tree().Valid()
    {
      var t := Tree();
      forall p: nat
        ensures t.Kids(p) == ChildList(ids, t.parent, p)
      {
        if p !in t.parent.Values {
          NoChildren(ids, t.parent, p);
        }
      }
    }

    /** Everything but the ledger. */
    function Core(): World
    {
      this.(ledger := [])
    }
  }

  /** The listing is the key set, ids count up from 1, an inviter is an older user. */
  ghost predicate UsersOk(nextId: nat, ids: seq<nat>, users: map<nat, User>)
  {
    && Ascending(ids)
    && 1 <= nextId
    && (forall x :: x in ids <==> x in users)
    && (forall x :: x in users ==> 1 <= x < nextId)
    && (forall x :: x in users && users[x].inviter.Some? ==>
          users[x].inviter.value in users && users[x].inviter.value < x)
  }

  ghost predicate OrdersOwned(orders: seq<Order>, keys: set<nat>)
  {
    forall i :: 0 <= i < |orders| ==> orders[i].user in keys
  }

  ghost predicate WithdrawsOwned(withdraws: seq<Withdraw>, keys: set<nat>)
  {
    forall i :: 0 <= i < |withdraws| ==> withdraws[i].user in keys
  }

  lemma {:induction false} NoChildren(ids: seq<nat>, parent: map<nat, nat>, p: nat)
    requires p !in parent.Values
    ensures ChildList(ids, parent, p) == []
  {
    if ids != [] {
      NoChildren(ids[1..], parent, p);
    }
  }

  function AddWithdrawable(users: map<nat, User>, u: nat, delta: int): map<nat, User>
  {
    if u in users then users[u := users[u].(withdrawable := users[u].withdrawable + delta)] else users
  }

  // ---- credit ----

  /** What a credit of amount would apply. */
  function Applied(w: World, u: nat, amount: int): int
  {
    if amount <= 0 then 0 else amount - Fill(w.orders, u, amount).1
  }

  /** creditOrderAcceleration: progress and withdrawable balance move together. */
  function Credit(w: World, u: nat, amount: int, kind: Kind): (after: World)
    ensures |after.orders| == |w.orders|
  {
    if amount <= 0 then w
    else
      var applied := Applied(w, u, amount);
      var filled := w.(orders := Fill(w.orders, u, amount).0);
      if applied <= 0 then filled
      else filled.(users := AddWithdrawable(w.users, u, applied), ledger := w.ledger + [Entry(u, kind, applied)])
  }

  lemma AppliedIsCapped(w: World, u: nat, amount: int)
    ensures Applied(w, u, amount) == Min(Max(0, amount), ActiveRoom(w.orders, u))
    ensures 0 <= Applied(w, u, amount) <= Max(0, amount)
  {
    FillExact(w.orders, u, Max(0, amount));
  }

  /** A credit in closed form. */
  lemma CreditCore(w: World, u: nat, amount: int, kind: Kind)
    requires amount >= 0
    ensures Credit(w, u, amount, kind).Core()
         == w.(orders := Fill(w.orders, u, amount).0,
               users := AddWithdrawable(w.users, u, Min(amount, ActiveRoom(w.orders, u))), ledger := [])
  {
    AppliedIsCapped(w, u, amount);
    FillExact(w.orders, u, amount);
    if u in w.users {
      assert w.users[u := w.users[u].(withdrawable := w.users[u].withdrawable + 0)] == w.users;
    }
    if amount == 0 {
      FillNothing(w.orders, u, 0);
    }
  }

  /** Confluence: crediting a then b is crediting a + b, up to ledger entries. */
  lemma CreditAdds(w: World, u: nat, a: int, b: int, k1: Kind, k2: Kind, k3: Kind)
    requires a >= 0 && b >= 0
    ensures Credit(Credit(w, u, a, k1), u, b, k2).Core() == Credit(w, u, a + b, k3).Core()
    ensures Applied(w, u, a) + Applied(Credit(w, u, a, k1), u, b) == Applied(w, u, a + b)
  {
    hide Fill, Applied, Credit, ActiveRoom;
    var w1 := Credit(w, u, a, k1);
    CreditCore(w, u, a, k1);
    CreditCore(w1, u, b, k2);
    CreditCore(w, u, a + b, k3);
    FillAdds(w.orders, u, a, b);
    FillExact(w.orders, u, a);
    AppliedIsCapped(w, u, a);
    AppliedIsCapped(w1, u, b);
    AppliedIsCapped(w, u, a + b);
    assert w1.orders == w1.Core().orders && w1.users == w1.Core().users;
  }

  /** Credits commute, whoever receives them. */
  lemma CreditCommutes(w: World, u: nat, a: int, v: nat, b: int, kind: Kind)
    requires a >= 0 && b >= 0
    ensures Credit(Credit(w, u, a, kind), v, b, kind).Core() == Credit(Credit(w, v, b, kind), u, a, kind).Core()
    ensures u != v ==> Applied(Credit(w, u, a, kind), v, b) == Applied(w, v, b)
  {
    if u == v {
      CreditAdds(w, u, a, b, kind, kind, kind);
      CreditAdds(w, u, b, a, kind, kind, kind);
    } else {
      var wu, wv := Credit(w, u, a, kind), Credit(w, v, b, kind);
      CreditCore(w, u, a, kind);
      CreditCore(w, v, b, kind);
      CreditCore(wu, v, b, kind);
      CreditCore(wv, u, a, kind);
      FillCommutes(w.orders, u, a, v, b);
      FillCommutes(w.orders, v, b, u, a);
      assert wu.orders == wu.Core().orders && wu.users == wu.Core().users;
      assert wv.orders == wv.Core().orders && wv.users == wv.Core().users;
      FillExact(w.orders, u, a);
      FillExact(w.orders, v, b);
      FillExact(wu.orders, v, b);
      FillExact(wv.orders, u, a);
      AddWithdrawableCommutes(w.users, u, Min(a, ActiveRoom(w.orders, u)), v, Min(b, ActiveRoom(w.orders, v)));
    }
  }

  lemma AddWithdrawableCommutes(users: map<nat, User>, u: nat, a: int, v: nat, b: int)
    requires u != v
    ensures AddWithdrawable(AddWithdrawable(users, u, a), v, b) == AddWithdrawable(AddWithdrawable(users, v, b), u, a)
  {
  }

  // ---- batches of credits ----

  datatype Grant = Grant(user: nat, amount: int)

  function CreditAll(w: World, grants: seq<Grant>, kind: Kind): (after: World)
    ensures |after.orders| == |w.orders|
    decreases |grants|
  {
    if grants == [] then w
    else CreditAll(Credit(w, grants[0].user, grants[0].amount, kind), grants[1..], kind)
  }

  ghost predicate Nonnegative(grants: seq<Grant>)
  {
    forall g :: g in grants ==> g.amount >= 0
  }

  lemma CreditFromCore(a: World, b: World, u: nat, amount: int, kind: Kind)
    requires a.Core() == b.Core()
    ensures Credit(a, u, amount, kind).Core() == Credit(b, u, amount, kind).Core()
    ensures Applied(a, u, amount) == Applied(b, u, amount)
  {
    assert a.orders == a.Core().orders == b.orders && a.users == a.Core().users == b.users;
  }

  lemma {:induction false} CreditAllFromCore(a: World, b: World, grants: seq<Grant>, kind: Kind)
    requires a.Core() == b.Core()
    ensures CreditAll(a, grants, kind).Core() == CreditAll(b, grants, kind).Core()
    decreases |grants|
  {
    if grants != [] {
      CreditFromCore(a, b, grants[0].user, grants[0].amount, kind);
      CreditAllFromCore(Credit(a, grants[0].user, grants[0].amount, kind),
                        Credit(b, grants[0].user, grants[0].amount, kind), grants[1..], kind);
    }
  }

  /** A grant may be paid first instead of after the ones listed before it. */
  lemma {:induction false} CreditFirst(w: World, before: seq<Grant>, g: Grant, after: seq<Grant>, kind: Kind)
    requires Nonnegative(before + [g] + after)
    ensures CreditAll(w, before + [g] + after, kind).Core() == CreditAll(w, [g] + (before + after), kind).Core()
    decreases |before|
  {
    if before == [] {
      assert before + [g] + after == [g] + (before + after);
    } else {
      var h, rest := before[0], before[1..];
      var wh := Credit(w, h.user, h.amount, kind);
      assert (before + [g] + after)[1..] == rest + [g] + after;
      assert h in before + [g] + after && g in before + [g] + after;
      assert Nonnegative(rest + [g] + after) by {
        assert forall x :: x in rest + [g] + after ==> x in before + [g] + after;
      }
      CreditFirst(wh, rest, g, after, kind);
      assert ([g] + (rest + after))[1..] == rest + after;
      var swapped := Credit(Credit(w, g.user, g.amount, kind), h.user, h.amount, kind);
      CreditCommutes(w, h.user, h.amount, g.user, g.amount, kind);
      CreditAllFromCore(Credit(wh, g.user, g.amount, kind), swapped, rest + after, kind);
      assert ([g] + (before + after))[1..] == before + after;
      assert (before + after)[1..] == rest + after;
    }
  }

  /** Orders and balances after a batch of credits do not depend on the order of the batch. */
  lemma {:induction false} CreditOrderIrrelevant(w: World, a: seq<Grant>, b: seq<Grant>, kind: Kind)
    requires multiset(a) == multiset(b) && Nonnegative(a)
    ensures CreditAll(w, a, kind).Core() == CreditAll(w, b, kind).Core()
    decreases |a|
  {
    if a == [] {
      assert |multiset(b)| == 0;
    } else {
      hide Credit;
      var g, rest := a[0], a[1..];
      assert a == [g] + rest;
      assert g in multiset(b);
      var j :| 0 <= j < |b| && b[j] == g;
      var before, after := b[..j], b[j + 1..];
      RemoveOne(a, b, j);
      forall x | x in b
        ensures x.amount >= 0
      {
        assert x in multiset(a);
      }
      CreditFirst(w, before, g, after, kind);
      assert ([g] + (before + after))[1..] == before + after;
      assert forall x :: x in rest ==> x in a;
      CreditOrderIrrelevant(Credit(w, g.user, g.amount, kind), rest, before + after, kind);
    }
  }
}
