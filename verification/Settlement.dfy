/** Specification of one settlement run (record.go: settleStaticOnce, payGenerationRewards,
    settleCommunity; generation.go). */
module Settlement {
  import opened Arith
  import opened Forest
  import opened Params
  import opened Rate
  import opened Orders
  import opened Community
  import opened Volumes
  import opened Tables

  // ---- generation rewards ----

  function UnlockedGenerations(p: Params, directs: nat): (n: nat)
    ensures n <= p.GenerationDepth()
  {
    if directs >= p.GenerationDepth() then p.GenerationDepth() else directs
  }

  predicate CanEarnGeneration(p: Params, directs: nat, depth: nat)
  {
    1 <= depth <= p.GenerationDepth() && depth <= UnlockedGenerations(p, directs)
  }

  /** One generation's reward on a static yield. */
  function GenerationReward(p: Params, interest: int): int
    requires p.scale > 0
  {
    if interest <= 0 then 0 else RoundDiv(interest * p.generationRate, p.scale)
  }

  predicate HasOrder(orders: seq<Order>, u: nat)
  {
    exists i :: 0 <= i < |orders| && orders[i].user == u
  }

  /** Direct referrals that ever subscribed. */
  function EffectiveDirects(w: World, ids: seq<nat>, u: nat): nat
  {
    if ids == [] then 0
    else (if ids[0] in w.users && w.users[ids[0]].inviter == Some(u) && HasOrder(w.orders, ids[0]) then 1 else 0)
         + EffectiveDirects(w, ids[1..], u)
  }

  /** One upline's turn: credited only when its effective directs unlock this depth. */
  function PayUpline(p: Params, w: World, inviter: nat, reward: int, depth: nat): (after: World)
    ensures |after.orders| == |w.orders|
  {
    if CanEarnGeneration(p, EffectiveDirects(w, w.ids, inviter), depth)
    then Credit(w, inviter, reward, Generation) else w
  }

  /** Pay reward to the uplines of current, nearest first, up to the configured depth. */
  function PayUplines(p: Params, w: World, current: nat, reward: int, depth: nat): (after: World)
    ensures |after.orders| == |w.orders|
    decreases p.GenerationDepth() + 1 - depth
  {
    if depth > p.GenerationDepth() || current !in w.users || w.users[current].inviter.None? then w
    else
      var inviter := w.users[current].inviter.value;
      var paid := PayUpline(p, w, inviter, reward, depth);
      PayUplines(p, paid, inviter, reward, depth + 1)
  }

  function PayGenerations(p: Params, w: World, from: nat, interest: int): (after: World)
    requires p.scale > 0
    ensures |after.orders| == |w.orders|
  {
    var reward := GenerationReward(p, interest);
    if reward <= 0 || from !in w.users || w.users[from].rewardLocked then w
    else PayUplines(p, w, from, reward, 1)
  }

  // ---- static phase ----

  /** The tables and the yields paid so far. */
  datatype Run = Run(w: World, pieces: seq<Piece>)

  function Interest(o: Order): int
  {
    Min(StaticYield(o.amount, o.cycle.rate), o.target - o.acc)
  }

  function EarnInterest(p: Params, o: Order, interest: int): Order
  {
    if o.acc + interest >= o.target
    then o.(acc := o.target, status := Exited,
            cycle := o.cycle.(turnPending := false, lastSettled := Some(o.cycle.rate)))
    else o.(acc := o.acc + interest, cycle := Settle(p, o.cycle))
  }

  function PayInterest(p: Params, w: World, i: nat, interest: int): World
    requires i < |w.orders|
  {
    var o := w.orders[i];
    w.(orders := w.orders[i := EarnInterest(p, o, interest)],
       users := AddWithdrawable(w.users, o.user, interest),
       ledger := w.ledger + [Entry(o.user, Static, interest)])
  }

  /** One pass of the settle loop over order i. */
  function SettleOrder(p: Params, r: Run, i: nat): (s: Run)
    requires p.scale > 0
    ensures |s.w.orders| == |r.w.orders|
  {
    if i >= |r.w.orders| then r
    else
      var o := r.w.orders[i];
      if o.status.Exited? then r
      else if o.target - o.acc <= 0 then
        r.(w := r.w.(orders := r.w.orders[i := o.(status := Exited, cycle := o.cycle.(turnPending := false))]))
      else if StaticYield(o.amount, o.cycle.rate) <= 0 then
        r.(w := r.w.(orders := r.w.orders[i := o.(cycle := SettleNothing(o.cycle))]))
      else
        var interest := Interest(o);
        Run(PayGenerations(p, PayInterest(p, r.w, i, interest), o.user, interest),
            r.pieces + [Piece(o.user, i, interest, o.amount, o.cycle.rate)])
  }

  function SettleOrders(p: Params, w: World, snapshot: seq<nat>): (s: Run)
    requires p.scale > 0
    ensures |s.w.orders| == |w.orders|
  {
    if snapshot == [] then Run(w, [])
    else SettleOrder(p, SettleOrders(p, w, snapshot[..|snapshot| - 1]), snapshot[|snapshot| - 1])
  }

  /** WHERE status = 'active' [AND id IN only] ORDER BY id ASC. */
  function ActiveIds(orders: seq<Order>, only: seq<nat>): seq<nat>
  {
    if orders == [] then []
    else
      var n := |orders| - 1;
      ActiveIds(orders[..n], only)
      + if orders[n].status.Active? && (only == [] || n in only) then [n] else []
  }

  // ---- grading ----

  function PersonalVolumes(w: World): Personal
  {
    map x | x in w.users :: AmountTotal(w.orders, x)
  }

  function VolumeOf(w: World, u: nat): int
    requires w.Valid()
  {
    w.TreeValid();
    GradingVolume(w.Tree(), PersonalVolumes(w), u)
  }

  /** A locked level is kept, any other is recomputed from the small area. */
  function GradeOf(p: Params, w: World, u: nat): nat
    requires w.Valid()
  {
    if u in w.users && w.users[u].levelLocked then w.users[u].level else p.LevelFor(VolumeOf(w, u))
  }

  function Grades(p: Params, w: World): Levels
    requires w.Valid()
  {
    map x | x in w.users :: GradeOf(p, w, x)
  }

  function Graded(p: Params, w: World): World
    requires w.Valid()
  {
    w.(users := map x | x in w.users :: w.users[x].(level := GradeOf(p, w, x), volume := VolumeOf(w, x)))
  }

  // ---- community phases ----

  function PiecesOf(pieces: seq<Piece>, x: nat): seq<Piece>
  {
    if pieces == [] then []
    else PiecesOf(pieces[..|pieces| - 1], x)
         + if pieces[|pieces| - 1].user == x then [pieces[|pieces| - 1]] else []
  }

  /** Yields that still count as reward source: those of users not reward-locked. */
  function SourcePieces(w: World, pieces: seq<Piece>): Pieces
  {
    map x | x in w.users && !w.users[x].rewardLocked && PiecesOf(pieces, x) != [] :: PiecesOf(pieces, x)
  }

  function LineGrants(u: nat, lines: seq<Line>): seq<Grant>
  {
    if lines == [] then [] else [Grant(u, lines[0].amount)] + LineGrants(u, lines[1..])
  }

  function PeerGrants(lines: seq<PeerLine>): seq<Grant>
  {
    if lines == [] then [] else [Grant(lines[0].recipient, lines[0].amount)] + PeerGrants(lines[1..])
  }

  /** Community base actually applied to u, line by line. */
  function AppliedLines(w: World, u: nat, lines: seq<Line>): int
    decreases |lines|
  {
    if lines == [] then 0
    else Applied(w, u, lines[0].amount)
         + AppliedLines(Credit(w, u, lines[0].amount, CommunityBase), u, lines[1..])
  }

  datatype Paid = Paid(w: World, got: Gains)

  function PayBase(p: Params, t: Tree, levels: Levels, pieces: Pieces, w: World, users: seq<nat>): Paid
    requires p.scale > 0 && t.Valid()
  {
    if users == [] then Paid(w, map[])
    else
      var before := PayBase(p, t, levels, pieces, w, users[..|users| - 1]);
      PayClaimant(before, users[|users| - 1], BaseLines(p, t, levels, pieces, users[|users| - 1]))
  }

  function PayClaimant(before: Paid, u: nat, lines: seq<Line>): Paid
  {
    var gained := AppliedLines(before.w, u, lines);
    Paid(CreditAll(before.w, LineGrants(u, lines), CommunityBase),
         if gained > 0 then before.got[u := (if u in before.got then before.got[u] else 0) + gained] else before.got)
  }

  // ---- the whole run ----

  function BasePaid(p: Params, w: World, only: seq<nat>): Paid
    requires p.scale > 0 && w.Valid()
  {
    var r := SettleOrders(p, w, ActiveIds(w.orders, only));
    SettleOrdersValid(p, w, ActiveIds(w.orders, only));
    r.w.TreeValid();
    PayBase(p, r.w.Tree(), Grades(p, r.w), SourcePieces(r.w, r.pieces), Graded(p, r.w), r.w.ids)
  }

  /** The peer lines, met in the given order of the earners. */
  function PeerPhase(p: Params, w: World, only: seq<nat>, order: seq<nat>): seq<PeerLine>
    requires p.scale > 0 && w.Valid()
  {
    var r := SettleOrders(p, w, ActiveIds(w.orders, only));
    SettleOrdersValid(p, w, ActiveIds(w.orders, only));
    PeerLines(p, r.w.Tree(), Grades(p, r.w), BasePaid(p, w, only).got, order)
  }

  /** One settlement.  The source ranges over a map to pay peers, so the order in which the
      earners are met is a parameter; it may be any listing of the earners. */
  function SettleOnce(p: Params, w: World, only: seq<nat>, order: seq<nat>): World
    requires p.scale > 0 && w.Valid()
  {
    CreditAll(BasePaid(p, w, only).w, PeerGrants(PeerPhase(p, w, only, order)), Peer)
  }

  ghost predicate Schedule(p: Params, w: World, only: seq<nat>, order: seq<nat>)
    requires p.scale > 0 && w.Valid()
  {
    multiset(order) == multiset(BasePaid(p, w, only).got.Keys)
  }

  // ---- what the phases leave alone ----

  /** Same users, invite links and tables; balances, grades and order progress may differ. */
  ghost predicate SameShape(a: World, b: World)
  {
    && a.nextId == b.nextId && a.ids == b.ids && a.paths == b.paths && a.withdraws == b.withdraws
    && a.users.Keys == b.users.Keys
    && (forall x :: x in a.users ==>
          b.users[x] == a.users[x].(withdrawable := b.users[x].withdrawable, level := b.users[x].level,
                                    volume := b.users[x].volume))
    && |a.orders| == |b.orders|
    && (forall i :: 0 <= i < |a.orders| ==>
          a.orders[i].user == b.orders[i].user && a.orders[i].amount == b.orders[i].amount
          && a.orders[i].target == b.orders[i].target)
  }

  /** Grades and volumes untouched. */
  ghost predicate SameGrades(a: World, b: World)
  {
    forall x :: x in a.users ==>
      x in b.users && b.users[x].level == a.users[x].level && b.users[x].volume == a.users[x].volume
  }

  /** No order's rate fields touched. */
  ghost predicate SameCycles(a: World, b: World)
  {
    |a.orders| == |b.orders| && forall i :: 0 <= i < |a.orders| ==> b.orders[i].cycle == a.orders[i].cycle
  }

  lemma SameShapeTransitive(a: World, b: World, c: World)
    requires SameShape(a, b) && SameShape(b, c)
    ensures SameShape(a, c)
  {
  }

  lemma SameShapeValid(a: World, b: World)
    requires SameShape(a, b) && a.Valid()
    ensures b.Valid() && b.Parents() == a.Parents() && b.Tree() == a.Tree()
  {
    assert forall x :: x in a.users ==> b.users[x].inviter == a.users[x].inviter;
    assert b.Parents() == a.Parents();
  }

  lemma CreditShape(w: World, u: nat, amount: int, kind: Kind)
    ensures SameShape(w, Credit(w, u, amount, kind)) && SameGrades(w, Credit(w, u, amount, kind))
    ensures SameCycles(w, Credit(w, u, amount, kind))
  {
    hide Fill, Applied;
    forall i | 0 <= i < |w.orders|
      ensures var b := Fill(w.orders, u, amount).0[i];
              b.user == w.orders[i].user && b.amount == w.orders[i].amount && b.target == w.orders[i].target
              && b.cycle == w.orders[i].cycle
    {
      FillFrame(w.orders, u, amount, i);
    }
  }

  lemma {:induction false} CreditAllShape(w: World, grants: seq<Grant>, kind: Kind)
    ensures SameShape(w, CreditAll(w, grants, kind)) && SameCycles(w, CreditAll(w, grants, kind))
    ensures SameGrades(w, CreditAll(w, grants, kind))
    decreases |grants|
  {
    if grants != [] {
      var w1 := Credit(w, grants[0].user, grants[0].amount, kind);
      CreditShape(w, grants[0].user, grants[0].amount, kind);
      CreditAllShape(w1, grants[1..], kind);
      SameShapeTransitive(w, w1, CreditAll(w, grants, kind));
    }
  }

  lemma {:induction false} PayUplinesShape(p: Params, w: World, current: nat, reward: int, depth: nat)
    ensures SameShape(w, PayUplines(p, w, current, reward, depth))
    ensures SameGrades(w, PayUplines(p, w, current, reward, depth))
    ensures SameCycles(w, PayUplines(p, w, current, reward, depth))
    decreases p.GenerationDepth() + 1 - depth
  {
    if !(depth > p.GenerationDepth() || current !in w.users || w.users[current].inviter.None?) {
      var inviter := w.users[current].inviter.value;
      var paid := PayUpline(p, w, inviter, reward, depth);
      CreditShape(w, inviter, reward, Generation);
      PayUplinesShape(p, paid, inviter, reward, depth + 1);
      SameShapeTransitive(w, paid, PayUplines(p, w, current, reward, depth));
    }
  }

  lemma SettleOrderShape(p: Params, r: Run, i: nat)
    requires p.scale > 0
    ensures SameShape(r.w, SettleOrder(p, r, i).w) && SameGrades(r.w, SettleOrder(p, r, i).w)
  {
    hide PayUplines, StaticYield;
    if i < |r.w.orders| {
      var o := r.w.orders[i];
      if !(o.status.Exited? || o.target - o.acc <= 0 || StaticYield(o.amount, o.cycle.rate) <= 0) {
        var w1 := PayInterest(p, r.w, i, Interest(o));
        assert SameShape(r.w, w1);
        PayUplinesShape(p, w1, o.user, GenerationReward(p, Interest(o)), 1);
        SameShapeTransitive(r.w, w1, SettleOrder(p, r, i).w);
      }
    }
  }

  lemma {:induction false} SettleOrdersShape(p: Params, w: World, snapshot: seq<nat>)
    requires p.scale > 0
    ensures SameShape(w, SettleOrders(p, w, snapshot).w) && SameGrades(w, SettleOrders(p, w, snapshot).w)
  {
    if snapshot != [] {
      var rest := snapshot[..|snapshot| - 1];
      SettleOrdersShape(p, w, rest);
      SettleOrderShape(p, SettleOrders(p, w, rest), snapshot[|snapshot| - 1]);
      SameShapeTransitive(w, SettleOrders(p, w, rest).w, SettleOrders(p, w, snapshot).w);
    }
  }

  lemma SettleOrdersValid(p: Params, w: World, snapshot: seq<nat>)
    requires p.scale > 0 && w.Valid()
    ensures SettleOrders(p, w, snapshot).w.Valid()
    ensures SettleOrders(p, w, snapshot).w.Tree() == w.Tree()
  {
    SettleOrdersShape(p, w, snapshot);
    SameShapeValid(w, SettleOrders(p, w, snapshot).w);
  }

  lemma GradedShape(p: Params, w: World)
    requires w.Valid()
    ensures SameShape(w, Graded(p, w))
  {
  }

  lemma {:induction false} PayBaseShape(p: Params, t: Tree, levels: Levels, pieces: Pieces, w: World, users: seq<nat>)
    requires p.scale > 0 && t.Valid()
    ensures SameShape(w, PayBase(p, t, levels, pieces, w, users).w)
    ensures SameCycles(w, PayBase(p, t, levels, pieces, w, users).w)
    ensures SameGrades(w, PayBase(p, t, levels, pieces, w, users).w)
  {
    if users != [] {
      var rest := users[..|users| - 1];
      var before := PayBase(p, t, levels, pieces, w, rest);
      PayBaseShape(p, t, levels, pieces, w, rest);
      CreditAllShape(before.w, LineGrants(users[|users| - 1], BaseLines(p, t, levels, pieces, users[|users| - 1])),
                     CommunityBase);
      SameShapeTransitive(w, before.w, PayBase(p, t, levels, pieces, w, users).w);
    }
  }

  /** A settlement changes only balances, grades, order progress and the ledger. */
  lemma SettlementShape(p: Params, w: World, only: seq<nat>, order: seq<nat>)
    requires p.scale > 0 && w.Valid()
    ensures SameShape(w, SettleOnce(p, w, only, order)) && SettleOnce(p, w, only, order).Valid()
  {
    var r := SettleOrders(p, w, ActiveIds(w.orders, only));
    SettleOrdersShape(p, w, ActiveIds(w.orders, only));
    SettleOrdersValid(p, w, ActiveIds(w.orders, only));
    r.w.TreeValid();
    var graded := Graded(p, r.w);
    GradedShape(p, r.w);
    SameShapeTransitive(w, r.w, graded);
    PayBaseShape(p, r.w.Tree(), Grades(p, r.w), SourcePieces(r.w, r.pieces), graded, r.w.ids);
    SameShapeTransitive(w, graded, BasePaid(p, w, only).w);
    CreditAllShape(BasePaid(p, w, only).w, PeerGrants(PeerPhase(p, w, only, order)), Peer);
    SameShapeTransitive(w, BasePaid(p, w, only).w, SettleOnce(p, w, only, order));
    SameShapeValid(w, SettleOnce(p, w, only, order));
  }
}
