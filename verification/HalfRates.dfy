/** For every even denominator of the rates and every positive peer rate: a history after which
    yields, base and peer reward all round up. */
module HalfRates {
  import opened Arith
  import opened Sums
  import opened Params
  import opened Rate
  import opened Orders
  import opened Tables
  import opened SettlementBound
  import opened LineOfThree
  import opened Runs
  import U = UseCases

  // ---- the parameters ----

  /** Rates over 2h: every level earns half of a yield, peers r, generations nothing. */
  function Halves(h: nat, r: nat): Params
  {
    Params(2 * h, 0, 0, 10, r, 1, 100, 140, 5, 10, [MultiplierTier(None, 20)],
                  seq(9, i requires 0 <= i < 9 => CommunityTier(9 - i, 1000, h)))
  }

  /** base is the community base of the day, of two yields of 1 and 2 * base - 3, peer the peer
      reward on it. */
  datatype Case = Case(h: nat, r: nat, base: nat, peer: nat)
  {
    ghost predicate Fits()
    {
      && h >= 1 && r >= 1 && base >= 2 && peer >= 1
      && peer == RoundDiv(base * r, 2 * h)
      && 2 * (2 * h * peer - r * base) > 2 * h - 2 * r
    }

    function P(): Params
    {
      Halves(h, r)
    }

    function Late(): int
    {
      2 * base - 3
    }
  }

  /** The base whose peer reward is rounded up by more than its own rounding allows. */
  lemma CaseFor(h: nat, r: nat) returns (c: Case)
    requires h >= 1 && r >= 1
    ensures c.Fits() && c.h == h && c.r == r
  {
    var base: nat := Max(2, (3 * h + r - 1) / r);
    var peer := RoundDiv(base * r, 2 * h);
    assert base * r >= 0;
    if 3 * h > r {
      CeilingOf(3 * h, r);
    } else {
      assert base == 2 by { assert 3 * h + r - 1 < 2 * r; QuotientBelow(3 * h + r - 1, r); }
    }
    PeerRoundsUp(h, r, base, peer);
    c := Case(h, r, base, peer);
  }

  lemma CeilingOf(n: nat, r: nat)
    requires 0 < r < n
    ensures (n + r - 1) / r >= 2 && n <= ((n + r - 1) / r) * r < n + r
  {
    var k := (n + r - 1) / r;
    assert n + r - 1 == r * k + (n + r - 1) % r;
  }

  lemma QuotientBelow(n: nat, r: nat)
    requires 0 < r && n < 2 * r
    ensures n / r <= 1
  {
    assert n == r * (n / r) + n % r;
    ProductStep(r, 1, n / r);
  }

  lemma PeerRoundsUp(h: nat, r: nat, base: nat, peer: int)
    requires h >= 1 && r >= 1 && peer == RoundDiv(base * r, 2 * h) && base * r >= 2 * h
    requires (3 * h <= base * r < 3 * h + r) || r >= 2 * h
    ensures peer >= 1 && 2 * (2 * h * peer - r * base) > 2 * h - 2 * r
  {
    var n := base * r;
    assert 2 * n - 2 * h < 2 * (2 * h * peer);
    ProductStep(2 * h, peer, 1);
    if r < 2 * h {
      TwoUnits(h, n, peer);
    }
  }

  lemma TwoUnits(h: nat, n: nat, peer: int)
    requires h >= 1 && 3 * h <= n < 5 * h && peer == RoundDiv(n, 2 * h)
    ensures peer == 2
  {
    assert 2 * n - 2 * h < 2 * (2 * h * peer) <= 2 * n + 2 * h;
    ProductStep(2 * h, peer, 2);
    ProductStep(2 * h, 2, peer);
  }

  // ---- the history ----

  function Desk(c: Case): Setting
  {
    Setting(c.P(), "a", U.PayoutConfig(true, U.USDT, true))
  }

  const Io: U.PathIo := U.PathIo(0, true, true)

  const Joining: seq<Op> := [Op.Register("a", "", Io), Op.Register("b", "a", Io), Op.Register("c", "b", Io)]
  const Grading: seq<Op> := [Op.SetVip(1, 1), Op.SetVip(2, 1), Op.SetVip(3, 0)]

  function Funding(c: Case): seq<Op>
  {
    [Op.AdminDeposit("a", 100 * c.peer), Op.AdminDeposit("b", 100 * c.base), Op.AdminDeposit("c", 100 + 100 * c.Late())]
  }

  function Buying(c: Case): seq<Op>
  {
    [Op.Subscribe(1, 100 * c.peer), Op.Subscribe(2, 100 * c.base), Op.Subscribe(3, 100)]
  }

  /** Three users in line, the upper two graded, each with an order, the lowest with two. */
  function Opening(c: Case): seq<Op>
  {
    Joining + Grading + Funding(c) + Buying(c) + [Op.Subscribe(3, 100 * c.Late())]
  }

  type Three = (int, int, int)

  const Zeros: Three := (0, 0, 0)

  function Member(address: string, inviter: Option<nat>, account: int, withdrawable: int, level: nat, volume: int): User
  {
    User(address, inviter, account, withdrawable, level, volume, true, false, false)
  }

  /** Two users of level 1 above one of level 0: accounts, withdrawable balances, volumes. */
  function Members(x: Three, y: Three, v: Three): map<nat, User>
  {
    map[1 := Member("a", None, x.0, y.0, 1, v.0), 2 := Member("b", Some(1), x.1, y.1, 1, v.1),
        3 := Member("c", Some(2), x.2, y.2, 0, v.2)]
  }

  function Accounts(x: Three): map<nat, User>
  {
    Members(x, Zeros, Zeros)
  }

  const Alone: World := U.AddUser(EmptyWorld, "a", None, Io)
  const Pair: World := U.AddUser(Alone, "b", Some(1), Io)
  const Joined: World := U.AddUser(Pair, "c", Some(2), Io)

  const Paths: map<nat, string> := Joined.paths

  function Stage(users: map<nat, User>, orders: seq<Order>, ledger: seq<Entry>): World
  {
    World(4, [1, 2, 3], users, Paths, orders, [], ledger)
  }

  /** An order that yields y a day, with progress acc. */
  function Yielding(user: nat, y: int, acc: int, cycle: Cycle): Order
  {
    Order(user, 100 * y, 20, 200 * y, acc, Active, cycle)
  }

  const Opened: Cycle := Cycle(100, Up, false, None)
  const Later: Cycle := Cycle(105, Up, false, Some(100))

  function Deposits(c: Case): seq<Entry>
  {
    [Entry(1, Deposit, 100 * c.peer), Entry(2, Deposit, 100 * c.base), Entry(3, Deposit, 100 + 100 * c.Late())]
  }

  function Bought(c: Case): seq<Order>
  {
    [Yielding(1, c.peer, 0, Opened), Yielding(2, c.base, 0, Opened), Yielding(3, 1, 0, Opened), Yielding(3, c.Late(), 0, Opened)]
  }

  /** The tables after the opening. */
  function Before(c: Case): World
  {
    Stage(Accounts(Zeros), Bought(c), Deposits(c))
  }

  lemma JoinedTables()
    ensures Joined.ids == [1, 2, 3] && Joined.nextId == 4 && Joined.orders == [] && Joined.withdraws == [] && Joined.ledger == []
    ensures Joined.users == map[1 := U.NewUser("a", None), 2 := U.NewUser("b", Some(1)), 3 := U.NewUser("c", Some(2))]
  {
    hide U.NewPath;
  }

  lemma Found(ids: seq<nat>, users: map<nat, User>, k: nat)
    requires k < |ids| && ids[k] in users
    requires forall i :: 0 <= i < k ==> ids[i] in users && users[ids[i]].address != users[ids[k]].address
    ensures U.FindByAddress(ids, users, users[ids[k]].address) == Some(ids[k])
    decreases k
  {
    if k > 0 {
      Found(ids[1..], users, k - 1);
    }
  }

  lemma {:induction false} NotFound(ids: seq<nat>, users: map<nat, User>, address: string)
    requires forall x :: x in ids && x in users ==> users[x].address != address
    ensures U.FindByAddress(ids, users, address) == None
  {
    if ids != [] {
      NotFound(ids[1..], users, address);
    }
  }

  lemma JoinFinds()
    ensures U.FindByAddress(EmptyWorld.ids, EmptyWorld.users, "a") == None
    ensures U.FindByAddress(Alone.ids, Alone.users, "b") == None && U.FindByAddress(Alone.ids, Alone.users, "a") == Some(1)
    ensures U.FindByAddress(Pair.ids, Pair.users, "c") == None && U.FindByAddress(Pair.ids, Pair.users, "b") == Some(2)
  {
    hide U.NewPath, U.FindByAddress;
    NotFound([], map[], "a");
    NotFound(Alone.ids, Alone.users, "b");
    Found(Alone.ids, Alone.users, 0);
    NotFound(Pair.ids, Pair.users, "c");
    Found(Pair.ids, Pair.users, 1);
  }

  lemma JoinIs(s: Setting)
    requires s.p.scale > 0 && s.genesis == "a"
    ensures After(s, EmptyWorld, Joining) == Joined
  {
    EmptyValid();
    JoinFinds();
    hide World.Valid, U.AddUser, U.FindByAddress;
    AfterThree(s, EmptyWorld, Joining[0], Joining[1], Joining[2]);
    assert Apply(s, EmptyWorld, Joining[0]) == Alone;
    assert Apply(s, Alone, Joining[1]) == Pair;
  }

  /** Grading fixes the levels of the three. */
  lemma GradeIs(s: Setting)
    requires s.p.scale > 0 && Joined.Valid()
    ensures After(s, Joined, Grading) == Stage(Accounts(Zeros), [], [])
  {
    JoinedTables();
    hide World.Valid, Joined;
    AfterThree(s, Joined, Grading[0], Grading[1], Grading[2]);
  }

  lemma MembersAre(x: Three, y: Three, v: Three)
    ensures var users := Members(x, y, v);
            && users.Keys == {1, 2, 3} && users[1].inviter == None && users[2].inviter == Some(1) && users[3].inviter == Some(2)
            && users[1].level == 1 && users[2].level == 1 && users[3].level == 0
  {
  }

  lemma MembersFound(x: Three, y: Three, v: Three)
    ensures var users := Members(x, y, v);
            && U.FindByAddress([1, 2, 3], users, "a") == Some(1)
            && U.FindByAddress([1, 2, 3], users, "b") == Some(2)
            && U.FindByAddress([1, 2, 3], users, "c") == Some(3)
  {
    hide U.FindByAddress;
    Found([1, 2, 3], Members(x, y, v), 0);
    Found([1, 2, 3], Members(x, y, v), 1);
    Found([1, 2, 3], Members(x, y, v), 2);
  }

  /** x with n more for the user u. */
  function Plus(x: Three, u: nat, n: int): Three
  {
    if u == 1 then (x.0 + n, x.1, x.2) else if u == 2 then (x.0, x.1 + n, x.2) else (x.0, x.1, x.2 + n)
  }

  lemma AccountsPlus(x: Three, u: nat, n: int)
    requires 1 <= u <= 3
    ensures u in Accounts(x) && Accounts(x)[u := Accounts(x)[u].(account := Accounts(x)[u].account + n)] == Accounts(Plus(x, u, n))
  {
  }

  lemma ThreeOk(users: map<nat, User>)
    requires users.Keys == {1, 2, 3} && users[1].inviter == None && users[2].inviter == Some(1) && users[3].inviter == Some(2)
    ensures UsersOk(4, [1, 2, 3], users)
  {
    assert Ascending([1, 2, 3]);
    forall x: nat
      ensures x in [1, 2, 3] <==> x in users
    {
      assert x in users <==> x in {1, 2, 3};
    }
    hide Ascending;
  }

  lemma LinksAre(w: World)
    requires w.users.Keys == {1, 2, 3}
    requires w.users[1].inviter == None && w.users[2].inviter == Some(1) && w.users[3].inviter == Some(2)
    ensures w.Parents() == Links
  {
    var links := w.Parents();
    forall x: nat
      ensures x in links <==> x in Links
      ensures x in links ==> links[x] == Links[x]
    {
      assert x in links ==> x in {1, 2, 3};
    }
  }

  lemma StageValid(x: Three, y: Three, v: Three, orders: seq<Order>, ledger: seq<Entry>)
    requires OrdersOwned(orders, {1, 2, 3})
    ensures var w := Stage(Members(x, y, v), orders, ledger);
            w.Valid() && GradesTo9(w) && w.Parents() == Links
  {
    hide Members, UsersOk, OrdersOwned, World.Parents, Joined, Paths;
    MembersAre(x, y, v);
    ThreeOk(Members(x, y, v));
    LinksAre(Stage(Members(x, y, v), orders, ledger));
  }

  lemma AccountsValid(x: Three, orders: seq<Order>, ledger: seq<Entry>)
    requires OrdersOwned(orders, {1, 2, 3})
    ensures Stage(Accounts(x), orders, ledger).Valid()
  {
    hide World.Valid, Members, Stage, OrdersOwned;
    StageValid(x, Zeros, Zeros, orders, ledger);
  }

  lemma AccountOf(x: Three, u: nat)
    requires 1 <= u <= 3
    ensures u in Accounts(x) && Accounts(x)[u].account == if u == 1 then x.0 else if u == 2 then x.1 else x.2
  {
  }

  const Names: seq<string> := ["a", "b", "c"]

  lemma ApplyIs(s: Setting, w: World, op: Op)
    requires s.p.scale > 0 && w.Valid()
    ensures op.AdminDeposit? ==> Apply(s, w, op) == U.AdminDeposit(w, op.address, op.amount).Or(w)
    ensures op.Subscribe? ==> Apply(s, w, op) == U.Subscribe(s.p, w, op.user, op.amount).Or(w)
  {
    hide World.Valid, U.AdminDeposit, U.Subscribe;
  }

  lemma DepositTables(w: World, name: string, u: nat, amount: int)
    requires U.FindByAddress(w.ids, w.users, name) == Some(u) && u in w.users && amount > 0
    ensures U.AdminDeposit(w, name, amount).Or(w)
         == w.(users := w.users[u := w.users[u].(account := w.users[u].account + amount)], ledger := w.ledger + [Entry(u, Deposit, amount)])
  {
    hide U.FindByAddress;
  }

  lemma SubscribeTables(p: Params, w: World, u: nat, amount: int, multiplier: int)
    requires amount >= U.LowestSubscription(p) > 0 && MultiplierFor(p, amount) == Some(multiplier)
    requires u in w.users && amount <= w.users[u].account
    ensures U.Subscribe(p, w, u, amount).Or(w)
         == w.(users := w.users[u := w.users[u].(account := w.users[u].account + -amount)],
               orders := w.orders + [U.NewOrder(p, u, amount, multiplier)])
  {
    hide U.LowestSubscription, MultiplierFor, U.NewOrder;
  }

  lemma FundOne(s: Setting, x: Three, ledger: seq<Entry>, u: nat, amount: int)
    requires s.p.scale > 0 && 1 <= u <= 3 && amount > 0
    ensures var w := Stage(Accounts(x), [], ledger);
            && w.Valid()
            && Apply(s, w, Op.AdminDeposit(Names[u - 1], amount))
               == Stage(Accounts(Plus(x, u, amount)), [], ledger + [Entry(u, Deposit, amount)])
  {
    hide World.Valid, Joined, Paths, U.FindByAddress, U.AdminDeposit, Plus, Members, Apply;
    var w := Stage(Accounts(x), [], ledger);
    AccountsValid(x, [], ledger);
    ApplyIs(s, w, Op.AdminDeposit(Names[u - 1], amount));
    MembersFound(x, Zeros, Zeros);
    AccountsPlus(x, u, amount);
    assert U.FindByAddress(w.ids, w.users, Names[u - 1]) == Some(u);
    DepositTables(w, Names[u - 1], u, amount);
  }

  lemma FundIs(c: Case)
    requires c.Fits()
    ensures Stage(Accounts(Zeros), [], []).Valid()
    ensures After(Desk(c), Stage(Accounts(Zeros), [], []), Funding(c))
         == Stage(Accounts((100 * c.peer, 100 * c.base, 100 + 100 * c.Late())), [], Deposits(c))
  {
    var ops, s, w, d := Funding(c), Desk(c), Stage(Accounts(Zeros), [], []), Deposits(c);
    hide World.Valid, Stage, Accounts, Apply, After;
    FundOne(s, Zeros, [], 1, 100 * c.peer);
    FundOne(s, (100 * c.peer, 0, 0), [d[0]], 2, 100 * c.base);
    FundOne(s, (100 * c.peer, 100 * c.base, 0), [d[0], d[1]], 3, 100 + 100 * c.Late());
    assert [] + [d[0]] == [d[0]] && [d[0]] + [d[1]] == [d[0], d[1]] && [d[0], d[1]] + [d[2]] == d;
    AfterThree(s, w, ops[0], ops[1], ops[2]);
  }

  lemma NewOrderIs(c: Case, u: nat, y: int)
    requires y >= 1
    ensures MultiplierFor(c.P(), 100 * y) == Some(20) && U.LowestSubscription(c.P()) == 10
    ensures U.NewOrder(c.P(), u, 100 * y, 20) == Yielding(u, y, 0, Opened)
  {
    RoundDivExact(200 * y, 10);
  }

  /** One subscription of 100 * y. */
  lemma BuyOne(c: Case, x: Three, orders: seq<Order>, ledger: seq<Entry>, u: nat, y: int)
    requires c.h >= 1 && OrdersOwned(orders, {1, 2, 3}) && y >= 1 && 1 <= u <= 3
    requires 100 * y <= if u == 1 then x.0 else if u == 2 then x.1 else x.2
    ensures var w := Stage(Accounts(x), orders, ledger);
            && w.Valid()
            && Apply(Desk(c), w, Op.Subscribe(u, 100 * y))
               == Stage(Accounts(Plus(x, u, -(100 * y))), orders + [Yielding(u, y, 0, Opened)], ledger)
  {
    hide World.Valid, U.NewOrder, U.LowestSubscription, U.Subscribe, MultiplierFor, Joined, Paths, Accounts, Plus, Apply, OrdersOwned, Yielding;
    var w := Stage(Accounts(x), orders, ledger);
    AccountsValid(x, orders, ledger);
    ApplyIs(Desk(c), w, Op.Subscribe(u, 100 * y));
    NewOrderIs(c, u, y);
    AccountsPlus(x, u, -(100 * y));
    AccountOf(x, u);
    SubscribeTables(c.P(), w, u, 100 * y, 20);
  }

  lemma BuyThree(c: Case)
    requires c.Fits()
    ensures Stage(Accounts((100 * c.peer, 100 * c.base, 100 + 100 * c.Late())), [], Deposits(c)).Valid()
    ensures After(Desk(c), Stage(Accounts((100 * c.peer, 100 * c.base, 100 + 100 * c.Late())), [], Deposits(c)), Buying(c))
         == Stage(Accounts((0, 0, 100 * c.Late())), Bought(c)[..3], Deposits(c))
  {
    var x: Three := (100 * c.peer, 100 * c.base, 100 + 100 * c.Late());
    var ops, s, o := Buying(c), Desk(c), Bought(c);
    hide World.Valid, Stage, Accounts, Apply, After;
    BuyOne(c, x, [], Deposits(c), 1, c.peer);
    BuyOne(c, (0, 100 * c.base, 100 + 100 * c.Late()), [o[0]], Deposits(c), 2, c.base);
    BuyOne(c, (0, 0, 100 + 100 * c.Late()), [o[0], o[1]], Deposits(c), 3, 1);
    assert [] + [o[0]] == [o[0]] && [o[0]] + [o[1]] == [o[0], o[1]] && [o[0], o[1]] + [o[2]] == o[..3];
    AfterThree(s, Stage(Accounts(x), [], Deposits(c)), ops[0], ops[1], ops[2]);
  }

  lemma BuyLast(c: Case)
    requires c.Fits()
    ensures var w := Stage(Accounts((0, 0, 100 * c.Late())), Bought(c)[..3], Deposits(c));
            w.Valid() && After(Desk(c), w, [Op.Subscribe(3, 100 * c.Late())]) == Before(c)
  {
    hide World.Valid, Stage, Accounts, Apply, After;
    BuyOne(c, (0, 0, 100 * c.Late()), Bought(c)[..3], Deposits(c), 3, c.Late());
    AfterOne(Desk(c), Stage(Accounts((0, 0, 100 * c.Late())), Bought(c)[..3], Deposits(c)), Op.Subscribe(3, 100 * c.Late()));
    assert Bought(c)[..3] + [Bought(c)[3]] == Bought(c);
  }

  /** The opening, step by step. */
  lemma OpeningIs(c: Case)
    requires c.Fits()
    ensures History(Desk(c), Opening(c)) == Before(c)
  {
    var s := Desk(c);
    EmptyValid();
    JoinIs(s);
    GradeIs(s);
    FundIs(c);
    BuyThree(c);
    BuyLast(c);
    hide World.Valid, Stage, Accounts, Apply, After, Joined, Joining, Grading, Funding, Buying, Bought, Deposits, EmptyWorld;
    AfterAppend(s, EmptyWorld, Joining, Grading);
    AfterAppend(s, EmptyWorld, Joining + Grading, Funding(c));
    AfterAppend(s, EmptyWorld, Joining + Grading + Funding(c), Buying(c));
    AfterAppend(s, EmptyWorld, Joining + Grading + Funding(c) + Buying(c), [Op.Subscribe(3, 100 * c.Late())]);
  }
}
