/** Half a unit for each ledger row does not cover a settlement that pays peer rewards: the day after
    the history, and exactly when half a unit a row is enough. */
module CarriedRounding {
  import opened Arith
  import opened Sums
  import opened Forest
  import opened Params
  import opened Rate
  import R = Rate
  import opened Orders
  import opened Community
  import opened Tables
  import opened Settlement
  import opened Accrual
  import opened Confluence
  import opened SettlementBound
  import opened HalfUnits
  import opened LineOfThree
  import opened Runs
  import opened Protocol
  import opened HalfRates

  // ---- the yields of the day ----

  function Yields(c: Case): seq<Piece>
  {
    [Piece(3, 2, 1, 100, 100), Piece(3, 3, c.Late(), 100 * c.Late(), 100)]
  }

  function YieldRows(c: Case): seq<Entry>
  {
    Deposits(c) + [Entry(3, Static, 1)] + [Entry(3, Static, c.Late())]
  }

  /** The tables after n units of base and m of peer reward. */
  function Rewarded(c: Case, n: int, m: int, v: Three, ledger: seq<Entry>): World
  {
    Stage(Members(Zeros, (m, n, 1 + c.Late()), v),
          [Yielding(1, c.peer, m, Opened), Yielding(2, c.base, n, Opened), Yielding(3, 1, 1, Later), Yielding(3, c.Late(), c.Late(), Later)],
          ledger)
  }

  function AfterStatic(c: Case): World
  {
    Rewarded(c, 0, 0, Zeros, YieldRows(c))
  }

  lemma YieldIs(c: Case, y: int)
    requires c.h >= 1 && y >= 1
    ensures StaticYield(100 * y, 100) == y && GenerationReward(c.P(), y) == 0
    ensures R.Settle(c.P(), Opened) == Later
  {
    assert 100 * y * 100 == 10000 * y;
    RoundDivExact(y, 10000);
  }

  lemma PaidStep(c: Case, r: Run, i: nat, y: int)
    requires c.h >= 1 && y >= 1 && i < |r.w.orders| && r.w.orders[i] == Yielding(3, y, 0, Opened)
    ensures SettleOrder(c.P(), r, i)
         == Run(r.w.(orders := r.w.orders[i := Yielding(3, y, y, Later)], users := AddWithdrawable(r.w.users, 3, y),
                     ledger := r.w.ledger + [Entry(3, Static, y)]),
                r.pieces + [Piece(3, i, y, 100 * y, 100)])
  {
    YieldIs(c, y);
    hide StaticYield, GenerationReward, R.Settle, Case.P;
    var o := r.w.orders[i];
    assert Interest(o) == y;
    assert EarnInterest(c.P(), o, y) == Yielding(3, y, y, Later);
  }

  lemma Listing(c: Case)
    ensures ActiveIds(Bought(c), [2, 3]) == [2, 3]
  {
    var o := Bought(c);
    assert o[..4] == o && o[..3][..2] == o[..2] && o[..2][..1] == o[..1] && o[..1][..0] == [];
    assert ActiveIds(o[..1], [2, 3]) == [] && ActiveIds(o[..2], [2, 3]) == [];
    assert ActiveIds(o[..3], [2, 3]) == [2];
  }

  lemma Earned3(y: Three, n: int)
    ensures AddWithdrawable(Members(Zeros, y, Zeros), 3, n) == Members(Zeros, (y.0, y.1, y.2 + n), Zeros)
  {
  }

  /** After the first of the two yields. */
  function Midday(c: Case): Run
  {
    Run(Stage(Members(Zeros, (0, 0, 1), Zeros), Bought(c)[2 := Yielding(3, 1, 1, Later)], Deposits(c) + [Entry(3, Static, 1)]),
        [Piece(3, 2, 1, 100, 100)])
  }

  lemma FirstYield(c: Case)
    requires c.Fits()
    ensures SettleOrder(c.P(), Run(Before(c), []), 2) == Midday(c)
  {
    hide SettleOrder, Members, AddWithdrawable, Case.P, Paths;
    PaidStep(c, Run(Before(c), []), 2, 1);
    Earned3(Zeros, 1);
  }

  lemma SecondYield(c: Case)
    requires c.Fits()
    ensures SettleOrder(c.P(), Midday(c), 3) == Run(AfterStatic(c), Yields(c))
  {
    hide SettleOrder, Members, AddWithdrawable, Case.P, Paths, Deposits;
    PaidStep(c, Midday(c), 3, c.Late());
    Earned3((0, 0, 1), c.Late());
  }

  lemma StaticDay(c: Case)
    requires c.Fits()
    ensures SettleOrders(c.P(), Before(c), [2, 3]) == Run(AfterStatic(c), Yields(c))
  {
    hide *;
    LateIs(c);
    FirstYield(c);
    SecondYield(c);
    SettleTwo(c.P(), Before(c), 2, 3);
  }

  lemma SettleTwo(p: Params, w: World, i: nat, j: nat)
    requires p.scale > 0
    ensures SettleOrders(p, w, [i, j]) == SettleOrder(p, SettleOrder(p, Run(w, []), i), j)
  {
    hide SettleOrder;
    var first, both := [i], [i, j];
    assert both[..1] == first && first[..0] == [];
    assert SettleOrders(p, w, []) == Run(w, []);
    assert SettleOrders(p, w, first) == SettleOrder(p, Run(w, []), i);
  }

  // ---- the forest 1 - 2 - 3 ----

  lemma TreeInLine(w: World)
    requires w.Valid() && w.ids == [1, 2, 3] && w.Parents() == Links
    ensures var t := w.Tree();
            && t.Valid() && t.ids == [1, 2, 3] && t.parent == Links
            && t.DownlineOrder(1) == [2, 3] && t.DownlineOrder(2) == [3] && t.DownlineOrder(3) == []
  {
    hide World.Valid, World.Tree, World.Parents, Tree.DownlineOrder;
    w.TreeValid();
    TreeParts(w);
    KidsOfThree(w.Tree());
    Downlines(w.Tree());
  }

  lemma TreeParts(w: World)
    ensures w.Tree().ids == w.ids && w.Tree().parent == w.Parents()
  {
  }

  // ---- community base ----

  const Grade3: Levels := map[1 := 1, 2 := 1, 3 := 0]

  function Source3(c: Case): Pieces
  {
    map[3 := Yields(c)]
  }

  function TwoLines(c: Case): seq<Line>
  {
    [Line(3, 2, 1, 1, 100, 100, c.h), Line(3, 3, c.base - 1, c.Late(), 100 * c.Late(), 100, c.h)]
  }

  lemma RatesAre(c: Case, level: nat)
    requires level <= 9
    ensures c.P().RateFor(level) == if level == 0 then 0 else c.h
    ensures c.P().RateFor(0) == 0
  {
    if level > 0 {
      TierRateFirst(c.P().tiers, level, 9 - level);
    }
  }

  lemma RatesRise(c: Case)
    ensures c.P().RisingRates() && c.P().TiersTo9() && c.P().RateFor(9) == c.h
  {
    forall a: nat, b: nat | a <= b <= 9
      ensures c.P().RateFor(a) <= c.P().RateFor(b)
    {
      RatesAre(c, a);
      RatesAre(c, b);
    }
    RatesAre(c, 9);
  }

  lemma Gaps(c: Case, t: Tree)
    requires c.h >= 1 && t.Rooted() && t.parent == Links
    ensures GapRate(c.P(), t, Grade3, 1, 2) == c.h && GapRate(c.P(), t, Grade3, 1, 3) == 0 && GapRate(c.P(), t, Grade3, 2, 3) == c.h
  {
    RatesAre(c, 1);
    assert HighestBetween(t, Grade3, 2, 1) == 0 && HighestBetween(t, Grade3, 3, 2) == 0;
    assert HighestBetween(t, Grade3, 3, 1) == 1;
  }

  lemma HalfShare(h: nat, k: nat)
    requires h >= 1 && k >= 1
    ensures RoundDiv((2 * k - 1) * h, 2 * h) == k
  {
    var n, d := (2 * k - 1) * h, 2 * h;
    var r := RoundUp(n, d);
    assert 2 * n + d == 2 * (d * k) && n >= 0;
    assert 2 * n - d == 2 * (d * (k - 1)) by { assert d * (k - 1) == d * k - d; }
    ProductStep(d, r, k);
    ProductStep(d, k, r);
    assert r == k;
  }

  lemma SharesAre(c: Case)
    requires c.Fits()
    ensures Share(c.P(), 1, c.h) == 1 && Share(c.P(), c.Late(), c.h) == c.base - 1
    ensures forall y: int :: Share(c.P(), y, 0) == 0
  {
    HalfShare(c.h, 1);
    HalfShare(c.h, c.base - 1);
    assert c.Late() == 2 * (c.base - 1) - 1;
  }

  lemma SourceLinesAre(c: Case)
    requires c.Fits()
    ensures SourceLines(c.P(), 3, Yields(c), c.h) == TwoLines(c)
    ensures SourceLines(c.P(), 3, Yields(c), 0) == [] && SourceLines(c.P(), 2, [], c.h) == []
  {
    SharesAre(c);
    hide Share, Case.P;
    var ps := Yields(c);
    assert ps[1..] == [ps[1]] && ps[1..][1..] == [];
    assert SourceLines(c.P(), 3, ps[1..], c.h) == [TwoLines(c)[1]];
    assert SourceLines(c.P(), 3, ps[1..], 0) == [];
  }

  lemma AlongOne(c: Case, t: Tree, u: nat, x: nat)
    requires c.h >= 1 && t.Rooted()
    ensures LinesAlong(c.P(), t, Grade3, Source3(c), u, [x])
         == SourceLines(c.P(), x, PiecesAt(Source3(c), x), GapRate(c.P(), t, Grade3, u, x))
    ensures LinesAlong(c.P(), t, Grade3, Source3(c), u, []) == []
  {
    assert [x][1..] == [];
  }

  lemma LinesAre(c: Case, t: Tree)
    requires c.Fits() && t.Valid() && t.parent == Links
    requires t.DownlineOrder(1) == [2, 3] && t.DownlineOrder(2) == [3] && t.DownlineOrder(3) == []
    ensures BaseLines(c.P(), t, Grade3, Source3(c), 1) == [] && BaseLines(c.P(), t, Grade3, Source3(c), 3) == []
    ensures BaseLines(c.P(), t, Grade3, Source3(c), 2) == TwoLines(c)
  {
    assert t.Rooted();
    Gaps(c, t);
    SourceLinesAre(c);
    hide Tree.Valid, GapRate, SourceLines, Tree.DownlineOrder, Yields, TwoLines, Case.P;
    assert PiecesAt(Source3(c), 2) == [] && PiecesAt(Source3(c), 3) == Yields(c);
    AlongOne(c, t, 2, 3);
    AlongOne(c, t, 1, 3);
    assert [2, 3][1..] == [3];
  }

  lemma FedIs(u: nat, y: int, acc: int, amount: int)
    requires 0 <= acc && amount >= 1 && acc + amount < 200 * y
    ensures var o := Yielding(u, y, acc, Opened);
            o.ActiveFor(u) && amount <= o.Room() && o.Fed(amount) == Yielding(u, y, acc + amount, Opened)
  {
  }

  lemma EarnedAbove(y: Three, v: Three, n: int)
    ensures AddWithdrawable(Members(Zeros, y, v), 2, n) == Members(Zeros, (y.0, y.1 + n, y.2), v)
    ensures AddWithdrawable(Members(Zeros, y, v), 1, n) == Members(Zeros, (y.0 + n, y.1, y.2), v)
  {
  }

  lemma BaseCredit(c: Case, n: int, amount: int, v: Three, ledger: seq<Entry>)
    requires c.Fits() && n >= 0 && amount >= 1 && n + amount <= c.base
    ensures Credit(Rewarded(c, n, 0, v, ledger), 2, amount, CommunityBase)
         == Rewarded(c, n + amount, 0, v, ledger + [Entry(2, CommunityBase, amount)])
    ensures Applied(Rewarded(c, n, 0, v, ledger), 2, amount) == amount
  {
    FedIs(2, c.base, n, amount);
    EarnedAbove((0, n, 1 + c.Late()), v, amount);
    hide Fill, AddWithdrawable, Members, Paths, Order.Fed, Order.Room;
    var w, after := Rewarded(c, n, 0, v, ledger), Rewarded(c, n + amount, 0, v, ledger);
    FillIs(w.orders, 1, 2, amount);
    assert w.orders[1 := w.orders[1].Fed(amount)] == after.orders;
  }

  lemma PeerCredit(c: Case, v: Three, ledger: seq<Entry>)
    requires c.Fits()
    ensures Credit(Rewarded(c, c.base, 0, v, ledger), 1, c.peer, Peer) == Rewarded(c, c.base, c.peer, v, ledger + [Entry(1, Peer, c.peer)])
    ensures Applied(Rewarded(c, c.base, 0, v, ledger), 1, c.peer) == c.peer
  {
    FedIs(1, c.peer, 0, c.peer);
    EarnedAbove((0, c.base, 1 + c.Late()), v, c.peer);
    hide Fill, AddWithdrawable, Members, Paths, Order.Fed, Order.Room;
    var w, after := Rewarded(c, c.base, 0, v, ledger), Rewarded(c, c.base, c.peer, v, ledger);
    FillIs(w.orders, 0, 1, c.peer);
    assert w.orders[0 := w.orders[0].Fed(c.peer)] == after.orders;
  }

  /** An amount that fits into the user's only order goes there. */
  lemma FillIs(orders: seq<Order>, k: nat, u: nat, amount: int)
    requires k < |orders| && orders[k].ActiveFor(u) && 0 < amount <= orders[k].Room()
    requires forall i :: 0 <= i < |orders| && i != k ==> orders[i].user != u
    ensures Fill(orders, u, amount) == (orders[k := orders[k].Fed(amount)], 0)
  {
    hide Fill, EarliestActive, Order.Fed;
    EarliestIs(orders, k, u);
    FillEarliest(orders, u, amount, k);
    FillNothing(orders[k := orders[k].Fed(amount)], u, 0);
  }

  lemma EarliestIs(orders: seq<Order>, k: nat, u: nat)
    requires k < |orders| && orders[k].ActiveFor(u) && forall i :: 0 <= i < |orders| && i != k ==> orders[i].user != u
    ensures EarliestActive(orders, u) == Some(k)
  {
  }

  function BaseRows(c: Case): seq<Entry>
  {
    YieldRows(c) + [Entry(2, CommunityBase, 1)] + [Entry(2, CommunityBase, c.base - 1)]
  }

  lemma PayNext(c: Case, t: Tree, w: World, rest: seq<nat>, u: nat, before: Paid, lines: seq<Line>, after: Paid)
    requires c.h >= 1 && t.Valid() && PayBase(c.P(), t, Grade3, Source3(c), w, rest) == before
    requires BaseLines(c.P(), t, Grade3, Source3(c), u) == lines && PayClaimant(before, u, lines) == after
    ensures PayBase(c.P(), t, Grade3, Source3(c), w, rest + [u]) == after
  {
    hide BaseLines, PayClaimant, Tree.Valid, Case.P;
    assert (rest + [u])[..|rest|] == rest;
  }

  lemma Nothing(before: Paid, u: nat)
    ensures PayClaimant(before, u, []) == before
  {
    assert LineGrants(u, []) == [] && CreditAll(before.w, [], CommunityBase) == before.w && AppliedLines(before.w, u, []) == 0;
  }

  /** Two lines, one after the other. */
  lemma TwoCredits(w: World, next: World, last: World, u: nat, lines: seq<Line>)
    requires |lines| == 2 && next == Credit(w, u, lines[0].amount, CommunityBase) && last == Credit(next, u, lines[1].amount, CommunityBase)
    ensures CreditAll(w, LineGrants(u, lines), CommunityBase) == last
    ensures AppliedLines(w, u, lines) == Applied(w, u, lines[0].amount) + Applied(next, u, lines[1].amount)
  {
    hide Credit, Applied;
    var g1, g2 := Grant(u, lines[0].amount), Grant(u, lines[1].amount);
    assert lines[1..] == [lines[1]] && lines[1..][1..] == [];
    assert LineGrants(u, lines[1..]) == [g2] && LineGrants(u, lines) == [g1, g2];
    assert [g1, g2][1..] == [g2] && [g2][1..] == [];
    assert CreditAll(last, [], CommunityBase) == last && AppliedLines(last, u, []) == 0;
  }

  lemma TwoLinesPaid(c: Case, v: Three)
    requires c.Fits()
    ensures var w := Rewarded(c, 0, 0, v, YieldRows(c));
            && CreditAll(w, LineGrants(2, TwoLines(c)), CommunityBase) == Rewarded(c, c.base, 0, v, BaseRows(c))
            && AppliedLines(w, 2, TwoLines(c)) == c.base
  {
    hide Credit, Applied, Rewarded, YieldRows, CreditAll, AppliedLines, LineGrants;
    var first := YieldRows(c) + [Entry(2, CommunityBase, 1)];
    BaseCredit(c, 0, 1, v, YieldRows(c));
    BaseCredit(c, 1, c.base - 1, v, first);
    TwoCredits(Rewarded(c, 0, 0, v, YieldRows(c)), Rewarded(c, 1, 0, v, first), Rewarded(c, c.base, 0, v, BaseRows(c)), 2, TwoLines(c));
  }

  lemma TwoLinesRecorded(c: Case, v: Three)
    requires c.Fits()
    ensures PayClaimant(Paid(Rewarded(c, 0, 0, v, YieldRows(c)), map[]), 2, TwoLines(c))
         == Paid(Rewarded(c, c.base, 0, v, BaseRows(c)), map[2 := c.base])
  {
    hide Rewarded, CreditAll, AppliedLines, LineGrants;
    TwoLinesPaid(c, v);
  }

  lemma NobodyYet(c: Case, t: Tree, w: World)
    requires c.h >= 1 && t.Valid()
    ensures PayBase(c.P(), t, Grade3, Source3(c), w, []) == Paid(w, map[])
  {
  }

  lemma BaseDay(c: Case, t: Tree, v: Three)
    requires c.Fits() && t.Valid() && t.parent == Links
    requires t.DownlineOrder(1) == [2, 3] && t.DownlineOrder(2) == [3] && t.DownlineOrder(3) == []
    ensures PayBase(c.P(), t, Grade3, Source3(c), Rewarded(c, 0, 0, v, YieldRows(c)), [1, 2, 3])
         == Paid(Rewarded(c, c.base, 0, v, BaseRows(c)), map[2 := c.base])
  {
    hide Tree.Valid, BaseLines, Rewarded, PayBase, PayClaimant, Tree.DownlineOrder, YieldRows, BaseRows, TwoLines, Source3, Case.P;
    LinesAre(c, t);
    TwoLinesRecorded(c, v);
    var none, some := Paid(Rewarded(c, 0, 0, v, YieldRows(c)), map[]), Paid(Rewarded(c, c.base, 0, v, BaseRows(c)), map[2 := c.base]);
    NobodyYet(c, t, none.w);
    assert [] + [1] == [1] && [1] + [2] == [1, 2] && [1, 2] + [3] == [1, 2, 3];
    Nothing(none, 1);
    PayNext(c, t, none.w, [], 1, none, [], none);
    PayNext(c, t, none.w, [1], 2, none, TwoLines(c), some);
    Nothing(some, 3);
    PayNext(c, t, none.w, [1, 2], 3, some, [], some);
  }

  // ---- peers ----

  lemma PeerDay(c: Case, t: Tree)
    requires c.Fits() && t.parent == Links
    ensures PeerGrants(PeerLines(c.P(), t, Grade3, map[2 := c.base], [2])) == [Grant(1, c.peer)]
  {
    var line := PeerLine(1, 2, c.peer, c.base);
    assert [2][1..] == [] && [line] + [] == [line] && [line][1..] == [];
    assert PeerShare(c.P(), c.base) == c.peer;
    assert PeerLineFrom(c.P(), t, Grade3, map[2 := c.base], 2) == [line];
  }

  // ---- the whole day ----

  lemma PiecesOfSnoc(pieces: seq<Piece>, piece: Piece, x: nat)
    ensures PiecesOf(pieces + [piece], x) == PiecesOf(pieces, x) + if piece.user == x then [piece] else []
    ensures PiecesOf([], x) == []
  {
    assert (pieces + [piece])[..|pieces|] == pieces;
  }

  lemma Sources(c: Case)
    ensures SourcePieces(AfterStatic(c), Yields(c)) == Source3(c)
  {
    hide PiecesOf;
    var ps := Yields(c);
    var a, b := ps[0], ps[1];
    assert ps == [] + [a] + [b];
    forall x: nat
      ensures PiecesOf(ps, x) == if x == 3 then ps else []
    {
      PiecesOfSnoc([], a, x);
      PiecesOfSnoc([] + [a], b, x);
    }
  }

  lemma GradesAre(c: Case)
    requires AfterStatic(c).Valid()
    ensures Grades(c.P(), AfterStatic(c)) == Grade3
  {
    hide World.Valid, VolumeOf, GradeOf, Case.P, YieldRows, Yielding;
    LockedGrades(c);
    assert Grades(c.P(), AfterStatic(c)).Keys == Grade3.Keys;
  }

  lemma Regrading(c: Case) returns (v: Three)
    requires AfterStatic(c).Valid()
    ensures Grades(c.P(), AfterStatic(c)) == Grade3
    ensures Graded(c.P(), AfterStatic(c)) == Rewarded(c, 0, 0, v, YieldRows(c))
  {
    hide World.Valid, VolumeOf, Grades, GradeOf, Case.P, YieldRows, Yielding, Members, Paths;
    var w := AfterStatic(c);
    v := (VolumeOf(w, 1), VolumeOf(w, 2), VolumeOf(w, 3));
    GradesAre(c);
    RegradedUsers(c, v);
  }

  lemma RegradedUsers(c: Case, v: Three)
    requires AfterStatic(c).Valid()
    requires v == (VolumeOf(AfterStatic(c), 1), VolumeOf(AfterStatic(c), 2), VolumeOf(AfterStatic(c), 3))
    ensures Graded(c.P(), AfterStatic(c)).users == Members(Zeros, (0, 0, 1 + c.Late()), v)
  {
    hide World.Valid, VolumeOf, GradeOf, Case.P, YieldRows, Yielding;
    LockedGrades(c);
  }

  lemma LockedGrades(c: Case)
    requires AfterStatic(c).Valid()
    ensures var w := AfterStatic(c); GradeOf(c.P(), w, 1) == 1 && GradeOf(c.P(), w, 2) == 1 && GradeOf(c.P(), w, 3) == 0
  {
    hide World.Valid, VolumeOf, Case.P;
  }

  lemma Totals(w: World, y: Three, v: Three)
    requires w.ids == [1, 2, 3] && w.users == Members(Zeros, y, v)
    ensures TotalBalance(w) == y.0 + y.1 + y.2
  {
    assert [1, 2, 3][1..] == [2, 3] && [2, 3][1..] == [3] && [3][1..] == [];
    var f := (u: nat) => Withdrawable(w, u);
    assert Sum([3], f) == y.2 && Sum([2, 3], f) == y.1 + y.2;
  }

  lemma TablesSound(c: Case)
    requires c.Fits()
    ensures Before(c).Valid() && AfterStatic(c).Valid() && BoundAssumptions(c.P(), Before(c), c.P().RateFor(9))
    ensures AfterStatic(c).Parents() == Links && AfterStatic(c).ids == [1, 2, 3]
  {
    RatesRise(c);
    hide World.Valid, World.Parents, GradesTo9, Members;
    StageValid(Zeros, Zeros, Zeros, Bought(c), Deposits(c));
    StageValid(Zeros, (0, 0, 1 + c.Late()), Zeros, AfterStatic(c).orders, YieldRows(c));
  }

  /** The day: two yields of together 2 * base - 2 pay base and, on it, peer. */
  lemma WholeDay(c: Case) returns (v: Three)
    requires c.Fits()
    ensures Before(c).Valid() && Schedule(c.P(), Before(c), [2, 3], [2])
    ensures SettleOnce(c.P(), Before(c), [2, 3], [2]) == Rewarded(c, c.base, c.peer, v, BaseRows(c) + [Entry(1, Peer, c.peer)])
    ensures RunPieces(c.P(), Before(c), [2, 3]) == Yields(c)
  {
    hide World.Valid, World.Tree, World.Parents, SettleOrders, ActiveIds, PayBase, PeerLines, PeerGrants, Rewarded, Grades, Graded, SourcePieces,
         Credit, Tree.Valid, Tree.DownlineOrder, Case.Fits, Case.P, Bought, Yields, YieldRows, BaseRows;
    TablesSound(c);
    Listing(c);
    StaticDay(c);
    TreeInLine(AfterStatic(c));
    Sources(c);
    v := Regrading(c);
    var t := AfterStatic(c).Tree();
    BaseDay(c, t, v);
    PeerDay(c, t);
    PeerCredit(c, v, BaseRows(c));
    SingleCredit(Rewarded(c, c.base, 0, v, BaseRows(c)), Grant(1, c.peer), Peer);
  }

  lemma YieldsTotal(c: Case)
    requires c.base >= 1
    ensures InterestTotal(Yields(c)) == 2 * c.base - 2
  {
    var ps := Yields(c);
    assert ps[1..] == [ps[1]] && ps[1..][1..] == [];
    assert InterestTotal(ps[1..]) == c.Late();
  }

  /** Two base rows, one peer row and no generation row since the opening. */
  lemma ThreeRows(c: Case)
    ensures var before, after := Deposits(c), BaseRows(c) + [Entry(1, Peer, c.peer)];
            Rows(after, Generation) - Rows(before, Generation) + (Rows(after, CommunityBase) - Rows(before, CommunityBase))
            + (Rows(after, Peer) - Rows(before, Peer)) == 3
  {
    hide Rows;
    var d, y1, y2, b1, b2 := Deposits(c), Entry(3, Static, 1), Entry(3, Static, c.Late()), Entry(2, CommunityBase, 1), Entry(2, CommunityBase, c.base - 1);
    forall k: Kind
      ensures Rows(BaseRows(c) + [Entry(1, Peer, c.peer)], k)
           == Rows(d, k) + (if k.Static? then 2 else 0) + (if k.CommunityBase? then 2 else 0) + (if k.Peer? then 1 else 0)
    {
      RowsAppend(d, y1, k);
      RowsAppend(d + [y1], y2, k);
      RowsAppend(YieldRows(c), b1, k);
      RowsAppend(YieldRows(c) + [b1], b2, k);
      RowsAppend(BaseRows(c), Entry(1, Peer, c.peer), k);
    }
  }

  lemma LateIs(c: Case)
    requires c.Fits()
    ensures c.P().scale > 0 && c.Late() == 2 * c.base - 3 && c.base >= 2 && Zeros.0 == Zeros.1 == Zeros.2 == 0
  {
  }

  lemma TooLittle(c: Case)
    requires c.Fits()
    ensures !HalfUnitPerRow(c.P(), 2 * c.base - 2, 3, 2 * c.base - 2 + c.base + c.peer)
  {
    RatesAre(c, 9);
    TooLittleNumbers(c.h, c.r, c.base, c.peer);
  }

  lemma TooLittleNumbers(h: int, r: int, b: int, m: int)
    requires h >= 1 && 2 * (2 * h * m - r * b) > 2 * h - 2 * r
    ensures var q, s := 2 * h, 2 * b - 2;
            2 * (q * (q * (s + b + m))) > q * (2 * (q * s)) + (q + r) * (2 * (h * s)) + q * (q * 3)
  {
    var q, s := 2 * h, 2 * b - 2;
    var gap := 2 * (q * m - r * b) - (q - 2 * r);
    assert q * gap > 0;
    assert 2 * (h * s) == q * s;
    assert 2 * (q * (q * (s + b + m))) - q * (2 * (q * s)) - (q + r) * (q * s) - q * (q * 3) == q * gap;
  }

  lemma TablesAre(c: Case, v: Three)
    ensures Before(c).ids == [1, 2, 3] && Before(c).users == Members(Zeros, Zeros, Zeros) && Before(c).ledger == Deposits(c)
    ensures var after := Rewarded(c, c.base, c.peer, v, BaseRows(c) + [Entry(1, Peer, c.peer)]);
            && after.ids == [1, 2, 3] && after.users == Members(Zeros, (c.peer, c.base, 1 + c.Late()), v)
            && after.ledger == BaseRows(c) + [Entry(1, Peer, c.peer)]
  {
    hide Members, Deposits, BaseRows, Yielding;
  }

  lemma CoveredIs(p: Params, w: World, only: seq<nat>, order: seq<nat>, s: int, after: World)
    requires p.scale > 0 && w.Valid() && after == SettleOnce(p, w, only, order) && s == InterestTotal(RunPieces(p, w, only))
    requires Rows(after.ledger, Generation) - Rows(w.ledger, Generation) + (Rows(after.ledger, CommunityBase) - Rows(w.ledger, CommunityBase))
             + (Rows(after.ledger, Peer) - Rows(w.ledger, Peer)) == 3
    ensures Covered(p, w, only, order) <==> HalfUnitPerRow(p, s, 3, TotalBalance(after) - TotalBalance(w))
  {
    hide World.Valid, SettleOnce, RunPieces, InterestTotal, Rows, TotalBalance, HalfUnitPerRow;
  }

  lemma DayBalances(c: Case, v: Three)
    requires c.Fits()
    ensures TotalBalance(Before(c)) == 0
    ensures TotalBalance(Rewarded(c, c.base, c.peer, v, BaseRows(c) + [Entry(1, Peer, c.peer)])) == 2 * c.base - 2 + c.base + c.peer
  {
    hide *;
    TablesAre(c, v);
    Totals(Before(c), Zeros, Zeros);
    Totals(Rewarded(c, c.base, c.peer, v, BaseRows(c) + [Entry(1, Peer, c.peer)]), (c.peer, c.base, 1 + c.Late()), v);
    LateIs(c);
  }

  lemma DayNotCovered(c: Case)
    requires c.Fits()
    ensures var w := Before(c);
            && c.P().scale > 0 && w.Valid() && Schedule(c.P(), w, [2, 3], [2])
            && InterestTotal(RunPieces(c.P(), w, [2, 3])) == 2 * c.base - 2
            && TotalBalance(SettleOnce(c.P(), w, [2, 3], [2])) - TotalBalance(w) == 2 * c.base - 2 + c.base + c.peer
            && !Covered(c.P(), w, [2, 3], [2])
  {
    hide *;
    LateIs(c);
    var v := WholeDay(c);
    DayBalances(c, v);
    TablesAre(c, v);
    ThreeRows(c);
    YieldsTotal(c);
    CoveredIs(c.P(), Before(c), [2, 3], [2], 2 * c.base - 2, Rewarded(c, c.base, c.peer, v, BaseRows(c) + [Entry(1, Peer, c.peer)]));
    TooLittle(c);
  }

  /** For every even denominator and every positive peer rate: a history after which one settlement
      of two orders gains more than half a unit a row allows. */
  lemma HalfUnitPerRowIsTooLittle(c: Case)
    requires c.Fits()
    ensures var w := History(Desk(c), Opening(c));
            && BoundAssumptions(c.P(), w, c.P().RateFor(9)) && Schedule(c.P(), w, [2, 3], [2])
            && InterestTotal(RunPieces(c.P(), w, [2, 3])) == 2 * c.base - 2
            && TotalBalance(SettleOnce(c.P(), w, [2, 3], [2])) - TotalBalance(w) == 2 * c.base - 2 + c.base + c.peer
            && !Covered(c.P(), w, [2, 3], [2])
  {
    hide *;
    OpeningIs(c);
    TablesSound(c);
    DayNotCovered(c);
  }

  // ---- exactly when ----

  /** A settlement after a history, under rates over q, with peer rate r. */
  ghost predicate Settles(q: nat, r: nat, s: Setting, ops: seq<Op>, only: seq<nat>, order: seq<nat>)
  {
    && s.p.scale == q > 0 && s.p.peerRate == r
    && s.p.NonnegativeRates() && s.p.RisingRates() && s.p.TiersTo9()
    && Schedule(s.p, History(s, ops), only, order)
  }

  /** Whatever the other parameters and the history: half a unit a row covers every settlement. */
  ghost predicate AlwaysCovered(q: nat, r: nat)
  {
    forall s: Setting, ops: seq<Op>, only: seq<nat>, order: seq<nat> ::
      Settles(q, r, s, ops, only, order) ==> Covered(s.p, History(s, ops), only, order)
  }

  /** With rates over an even denominator, as decimals are, half a unit a row covers every settlement
      of every history if and only if there is no peer reward. */
  lemma CoveredExactlyWithoutPeers(q: nat, r: nat)
    requires q > 0 && q % 2 == 0
    ensures AlwaysCovered(q, r) <==> r == 0
  {
    hide Covered, BoundAssumptions, Schedule, History, Opening;
    if r == 0 {
      forall s: Setting, ops: seq<Op>, only: seq<nat>, order: seq<nat> | Settles(q, r, s, ops, only, order)
        ensures Covered(s.p, History(s, ops), only, order)
      {
        HistoryBound(s, ops);
        NothingWithoutPeers(s.p);
        CoveredWhenNothingCarried(s.p, History(s, ops), only, order);
      }
    } else {
      var c := CaseFor(q / 2, r);
      HalfUnitPerRowIsTooLittle(c);
      RatesRise(c);
      assert Settles(q, r, Desk(c), Opening(c), [2, 3], [2]);
    }
  }

  lemma HistoryBound(s: Setting, ops: seq<Op>)
    requires s.p.scale > 0 && s.p.NonnegativeRates() && s.p.RisingRates() && s.p.TiersTo9()
    ensures BoundAssumptions(s.p, History(s, ops), s.p.RateFor(9))
  {
    hide World.Valid, GradesTo9, After;
    EmptyValid();
    EmptyGrades();
    GradesTo9OverRuns(s, EmptyWorld, ops);
  }
}
