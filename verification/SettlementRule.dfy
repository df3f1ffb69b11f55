/** What a settlement does to one order, to one user's grade and to one user's base, in plain terms
    (record.go, settleStaticOnce and settleCommunity; rate.go; community.go). */
module SettlementRule {
  import opened Arith
  import opened Sums
  import opened Forest
  import opened Params
  import opened Rate
  import opened Orders
  import opened Community
  import opened Volumes
  import opened Tables
  import opened Settlement
  import opened Confluence
  import opened Protocol

  // ---- one order ----

  /** One step of the rate: up to the maximum, where it turns; a step that would pass it goes one step
      below the maximum instead.  Downwards alike. */
  ghost predicate Advanced(p: Params, rate: int, direction: Direction, next: int, turned: Direction)
  {
    match direction
    case Up =>
      && (rate + p.rateStep < p.rateMax ==> next == rate + p.rateStep && turned.Up?)
      && (rate + p.rateStep == p.rateMax ==> next == p.rateMax && turned.Down?)
      && (rate + p.rateStep > p.rateMax ==> next == Max(p.rateMax - p.rateStep, p.rateMin) && turned.Down?)
    case Down =>
      && (rate - p.rateStep > p.rateMin ==> next == rate - p.rateStep && turned.Down?)
      && (rate - p.rateStep == p.rateMin ==> next == p.rateMin && turned.Up?)
      && (rate - p.rateStep < p.rateMin ==> next == Min(p.rateMin + p.rateStep, p.rateMax) && turned.Up?)
  }

  /** The row after a yield: the progress, the rate used, the turn lifted, and the next rate; a full row
      exits at exactly its target and keeps its rate. */
  ghost predicate EarnedRow(p: Params, a: Order, b: Order, earned: int)
  {
    && b.user == a.user && b.amount == a.amount && b.multiplier == a.multiplier && b.target == a.target
    && b.cycle.lastSettled == Some(a.cycle.rate) && !b.cycle.turnPending
    && if a.acc + earned >= a.target
       then b.acc == a.target && b.status.Exited? && b.cycle.rate == a.cycle.rate && b.cycle.direction == a.cycle.direction
       else b.acc == a.acc + earned && b.status == a.status
            && Advanced(p, a.cycle.rate, a.cycle.direction, b.cycle.rate, b.cycle.direction)
  }

  /** One order's turn in a settlement.  Gone or exited: nothing.  Full: it exits.  A yield that rounds to
      nothing only notes the rate.  Otherwise the yield, at most the room left, goes to the order and to
      its owner, is booked, and then pays the generations. */
  ghost predicate OrderServed(p: Params, a: Run, b: Run, i: nat)
    requires p.scale > 0
  {
    if i >= |a.w.orders| || a.w.orders[i].status.Exited? then b == a
    else
      var o := a.w.orders[i];
      var rounded := RoundDiv(o.amount * o.cycle.rate, 10000);
      if o.target <= o.acc then
        b == a.(w := a.w.(orders := a.w.orders[i := o.(status := Exited, cycle := o.cycle.(turnPending := false))]))
      else if rounded <= 0 then
        b == a.(w := a.w.(orders := a.w.orders[i := o.(cycle := o.cycle.(turnPending := false, lastSettled := Some(o.cycle.rate)))]))
      else
        var earned := Min(rounded, o.target - o.acc);
        exists row: Order ::
          && EarnedRow(p, o, row, earned)
          && b.pieces == a.pieces + [Piece(o.user, i, earned, o.amount, o.cycle.rate)]
          && b.w == PayGenerations(p, a.w.(orders := a.w.orders[i := row], users := AddWithdrawable(a.w.users, o.user, earned),
                                           ledger := a.w.ledger + [Entry(o.user, Static, earned)]), o.user, earned)
  }

  lemma RowIsEarned(p: Params, o: Order, y: int)
    ensures EarnedRow(p, o, EarnInterest(p, o, y), y)
  {
  }

  lemma SettleOrderServed(p: Params, a: Run, i: nat)
    requires p.scale > 0
    ensures OrderServed(p, a, SettleOrder(p, a, i), i)
  {
    if i < |a.w.orders| {
      RowIsEarned(p, a.w.orders[i], Interest(a.w.orders[i]));
    }
    hide EarnedRow, EarnInterest, PayGenerations, AddWithdrawable;
  }

  /** A settlement serves the orders of its snapshot in turn. */
  lemma OrdersServedInTurn(p: Params, w: World, snapshot: seq<nat>) returns (runs: seq<Run>)
    requires p.scale > 0
    ensures |runs| == |snapshot| + 1 && runs[0] == Run(w, []) && runs[|snapshot|] == SettleOrders(p, w, snapshot)
    ensures forall k :: 0 <= k < |snapshot| ==> OrderServed(p, runs[k], runs[k + 1], snapshot[k])
  {
    runs := [Run(w, [])];
    hide OrderServed, SettleOrder;
    assert snapshot[..0] == [];
    for k := 0 to |snapshot|
      invariant |runs| == k + 1 && runs[0] == Run(w, []) && runs[k] == SettleOrders(p, w, snapshot[..k])
      invariant forall j :: 0 <= j < k ==> OrderServed(p, runs[j], runs[j + 1], snapshot[j])
    {
      SettleOrderServed(p, runs[k], snapshot[k]);
      assert snapshot[..k + 1][..k] == snapshot[..k];
      runs := runs + [SettleOrder(p, runs[k], snapshot[k])];
    }
    assert snapshot[..|snapshot|] == snapshot;
  }

  // ---- one user's grade ----

  /** small is all legs but one largest; nothing with fewer than two legs. */
  ghost predicate AllButLargest(legs: seq<int>, small: int)
  {
    if |legs| <= 1 then small == 0
    else exists m :: 0 <= m < |legs| && (forall j :: 0 <= j < |legs| ==> legs[j] <= legs[m]) && small == Total(legs) - legs[m]
  }

  lemma SmallAreaIs(legs: seq<int>)
    ensures AllButLargest(legs, SmallArea(legs))
  {
    if |legs| > 1 {
      var m :| 0 <= m < |legs| && legs[m] == Largest(legs);
      assert forall j :: 0 <= j < |legs| ==> legs[j] in legs;
    }
  }

  /** The users u invited, in id order. */
  ghost predicate Referrals(w: World, u: nat, kids: seq<nat>)
  {
    Ascending(kids) && forall x: nat :: x in kids <==> x in w.users && w.users[x].inviter == Some(u)
  }

  lemma KidsAreReferrals(w: World, u: nat)
    requires w.Valid()
    ensures w.Tree().Rooted() && Referrals(w, u, w.Tree().Kids(u))
  {
    w.TreeValid();
    ChildListMembers(w.ids, w.Parents(), u);
    ChildListAscending(w.ids, w.Parents(), u);
    assert w.Tree().Kids(u) == ChildList(w.ids, w.Parents(), u);
  }

  /** All that x and everyone below it subscribed. */
  ghost function Team(w: World, x: nat): int
    requires w.Valid()
  {
    w.TreeValid();
    Sum(w.ids, (y: nat) => if y == x || w.Tree().Under(x, y) then AmountTotal(w.orders, y) else 0)
  }

  lemma TeamIs(w: World, x: nat)
    requires w.Valid()
    ensures w.Tree().Rooted() && SubtreeTotal(w.Tree(), PersonalVolumes(w), x) == Team(w, x)
  {
    w.TreeValid();
    var t, personal := w.Tree(), PersonalVolumes(w);
    assert t.ids == w.ids && forall y :: y in w.ids ==> Own(personal, y) == AmountTotal(w.orders, y);
    SumCongruent(w.ids, (y: nat) => if t.InSubtree(x, y) then Own(personal, y) else 0,
                 (y: nat) => if y == x || t.Under(x, y) then AmountTotal(w.orders, y) else 0);
    SumCongruent(w.ids, (y: nat) => if y == x || t.Under(x, y) then AmountTotal(w.orders, y) else 0,
                 (y: nat) => if y == x || w.Tree().Under(x, y) then AmountTotal(w.orders, y) else 0);
  }

  /** level is the highest one whose threshold the volume meets, 0 without volume or threshold met. */
  ghost predicate HighestMet(p: Params, volume: int, level: nat)
  {
    if volume <= 0 then level == 0
    else
      && (forall t :: t in p.tiers && t.minVolume <= volume ==> t.level <= level)
      && (level == 0 || exists t :: t in p.tiers && t.minVolume <= volume && t.level == level)
  }

  lemma LevelIs(p: Params, volume: int)
    ensures HighestMet(p, volume, p.LevelFor(volume))
  {
  }

  /** After a settlement everyone's volume is its referrals' teams but one largest, and every unlocked
      level the highest that volume meets; a locked one is as before. */
  lemma GradedAfter(p: Params, w: World, only: seq<nat>, order: seq<nat>, u: nat) returns (kids: seq<nat>)
    requires p.scale > 0 && w.Valid() && u in w.users
    ensures Referrals(w, u, kids)
    ensures var after := SettleOnce(p, w, only, order);
            && u in after.users
            && AllButLargest(seq(|kids|, k requires 0 <= k < |kids| => Team(w, kids[k])), after.users[u].volume)
            && if w.users[u].levelLocked then after.users[u].level == w.users[u].level
               else HighestMet(p, after.users[u].volume, after.users[u].level)
  {
    SettlementGrades(p, w, only, order, u);
    KidsAreReferrals(w, u);
    kids := w.Tree().Kids(u);
    VolumeIs(w, u);
    hide World.Valid, SettleOnce, VolumeOf, Team, Referrals;
    LevelIs(p, VolumeOf(w, u));
  }

  lemma VolumeIs(w: World, u: nat)
    requires w.Valid()
    ensures w.Tree().Rooted()
    ensures var kids := w.Tree().Kids(u);
            AllButLargest(seq(|kids|, k requires 0 <= k < |kids| => Team(w, kids[k])), VolumeOf(w, u))
  {
    hide World.Valid, Tree.Valid, Team, World.Tree, SubtreeTotal, PersonalVolumes, AllButLargest;
    w.TreeValid();
    var kids, legs := w.Tree().Kids(u), LegTotals(w.Tree(), PersonalVolumes(w), w.Tree().Kids(u));
    forall k | 0 <= k < |kids|
      ensures legs[k] == Team(w, kids[k])
    {
      TeamIs(w, kids[k]);
    }
    assert legs == seq(|kids|, k requires 0 <= k < |kids| => Team(w, kids[k]));
    SmallAreaIs(legs);
  }

  // ---- one user's base ----

  /** The yields that still count as community source: those of users not reward-locked. */
  lemma SourcesAre(w: World, pieces: seq<Piece>, x: nat, piece: Piece)
    ensures piece in PiecesAt(SourcePieces(w, pieces), x)
       <==> piece in pieces && piece.user == x && x in w.users && !w.users[x].rewardLocked
  {
    PiecesOfExact(pieces, x, piece);
  }

  lemma {:induction false} PiecesOfExact(pieces: seq<Piece>, x: nat, piece: Piece)
    ensures piece in PiecesOf(pieces, x) <==> piece in pieces && piece.user == x
  {
    if pieces != [] {
      var n := |pieces| - 1;
      PiecesOfExact(pieces[..n], x, piece);
      assert pieces == pieces[..n] + [pieces[n]];
    }
  }

  /** The levels stored in the tables. */
  ghost function Stored(w: World): Levels
  {
    map x | x in w.users :: w.users[x].level
  }

  lemma StoredAt(p: Params, w: World, only: seq<nat>, order: seq<nat>, x: nat)
    requires p.scale > 0 && w.Valid() && x in w.users
    ensures var r, after := SettleOrders(p, w, ActiveIds(w.orders, only)).w, SettleOnce(p, w, only, order);
            r.Valid() && x in after.users && x in r.users && after.users[x].level == GradeOf(p, r, x)
  {
    hide *;
    SettlementGrades(p, w, only, order, x);
    var snapshot := ActiveIds(w.orders, only);
    StaticKeepsGrades(p, w, snapshot, x);
    GradeIs(p, w, x);
    SettleOrdersShape(p, w, snapshot);
    SameUsers(w, SettleOrders(p, w, snapshot).w);
  }

  lemma GradeIs(p: Params, w: World, x: nat)
    requires w.Valid() && x in w.users
    ensures GradeOf(p, w, x) == if w.users[x].levelLocked then w.users[x].level else p.LevelFor(VolumeOf(w, x))
  {
  }

  lemma SameUsers(a: World, b: World)
    requires SameShape(a, b)
    ensures a.users.Keys == b.users.Keys
  {
  }

  lemma StoredAfter(p: Params, w: World, only: seq<nat>, order: seq<nat>)
    requires p.scale > 0 && w.Valid()
    ensures var r := SettleOrders(p, w, ActiveIds(w.orders, only)).w;
            r.Valid() && Stored(SettleOnce(p, w, only, order)) == Grades(p, r)
  {
    hide World.Valid, SettleOrders, SettleOnce, VolumeOf, GradeOf, ActiveIds, SameShape;
    var snapshot := ActiveIds(w.orders, only);
    var r, after := SettleOrders(p, w, snapshot).w, SettleOnce(p, w, only, order);
    SettleOrdersValid(p, w, snapshot);
    SettleOrdersShape(p, w, snapshot);
    SettlementShape(p, w, only, order);
    SameUsers(w, r);
    SameUsers(w, after);
    forall x | x in w.users
      ensures Stored(after)[x] == Grades(p, r)[x]
    {
      StoredAt(p, w, only, order, x);
    }
    assert Stored(after).Keys == w.users.Keys == Grades(p, r).Keys;
  }

  /** In a settlement everyone's base is what its lines under the levels just stored come to, as far as
      its active orders have room after the static phase; and the peer lines are those on that base,
      under the same levels. */
  lemma CommunityPaid(p: Params, w: World, only: seq<nat>, order: seq<nat>, u: nat)
    requires p.scale > 0 && w.Valid() && u in w.users
    ensures var r := SettleOrders(p, w, ActiveIds(w.orders, only));
            var levels, sources := Stored(SettleOnce(p, w, only, order)), SourcePieces(r.w, r.pieces);
            && w.Tree().Valid()
            && Gained(BasePaid(p, w, only).got, u)
               == Min(LinesTotal(BaseLines(p, w.Tree(), levels, sources, u)), ActiveRoom(r.w.orders, u))
            && PeerPhase(p, w, only, order) == PeerLines(p, w.Tree(), levels, BasePaid(p, w, only).got, order)
  {
    w.TreeValid();
    var snapshot := ActiveIds(w.orders, only);
    var r := SettleOrders(p, w, snapshot);
    SettleOrdersValid(p, w, snapshot);
    StoredAfter(p, w, only, order);
    BaseOf(p, r, u);
    hide World.Valid, World.Tree, SettleOrders, SettleOnce, PayBase, BaseLines, ActiveIds, PeerLines, Grades, Graded, Tree.Valid;
  }

  lemma BaseOf(p: Params, r: Run, u: nat)
    requires p.scale > 0 && r.w.Valid() && u in r.w.users
    ensures r.w.Tree().Valid()
    ensures var t, levels, sources := r.w.Tree(), Grades(p, r.w), SourcePieces(r.w, r.pieces);
            Gained(PayBase(p, t, levels, sources, Graded(p, r.w), r.w.ids).got, u)
            == Min(LinesTotal(BaseLines(p, t, levels, sources, u)), ActiveRoom(r.w.orders, u))
  {
    r.w.TreeValid();
    var t, levels, sources := r.w.Tree(), Grades(p, r.w), SourcePieces(r.w, r.pieces);
    assert Distinct(r.w.ids) && u in r.w.ids && t.ids == r.w.ids;
    hide World.Valid, World.Tree, Tree.Valid, PayBase, BaseLines, Grades, GradeOf, VolumeOf;
    BaseIsCapped(p, t, levels, sources, Graded(p, r.w), r.w.ids, u);
    BaseLinesTotal(p, t, levels, sources, u);
  }
}
