/** How much one settlement can add to all withdrawable balances together. */
module SettlementBound {
  import opened Arith
  import opened Sums
  import opened Forest
  import opened Params
  import opened Rate
  import opened Community
  import opened Tables
  import opened Settlement
  import opened Accrual
  import opened Confluence
  import opened GapWeights

  function TotalBalance(w: World): int
  {
    Sum(w.ids, (u: nat) => Withdrawable(w, u))
  }

  lemma Scaled(k: int, a: int, b: int)
    requires k >= 0 && a <= b
    ensures k * a <= k * b
  {
    assert k * (b - a) >= 0;
  }

  lemma Distribute(q: int, a: int, b: int)
    ensures q * (a + b) == q * a + q * b
  {
  }

  lemma {:induction false} SumIndicator(ids: seq<nat>, u: nat, delta: int)
    requires Ascending(ids)
    ensures Sum(ids, (x: nat) => if x == u then delta else 0) == if u in ids then delta else 0
  {
    if ids != [] {
      var rest := ids[1..];
      SumIndicator(rest, u, delta);
      assert forall j :: 0 <= j < |rest| ==> rest[j] == ids[j + 1] > ids[0];
      assert ids[0] !in rest;
      assert u in ids <==> u == ids[0] || u in rest;
    }
  }

  lemma AddRaisesTotal(a: World, b: World, u: nat, delta: int)
    requires Ascending(a.ids) && a.ids == b.ids && u in a.ids && u in a.users
    requires b.users == AddWithdrawable(a.users, u, delta)
    ensures TotalBalance(b) == TotalBalance(a) + delta
  {
    var f := (x: nat) => Withdrawable(a, x);
    var g := (x: nat) => if x == u then delta else 0;
    var h := (x: nat) => Withdrawable(b, x);
    SumLinear(a.ids, f, g, h);
    SumIndicator(a.ids, u, delta);
    SumCongruent(a.ids, f, (x: nat) => Withdrawable(a, x));
    SumCongruent(a.ids, h, (x: nat) => Withdrawable(b, x));
  }

  lemma CreditRaisesTotal(w: World, u: nat, amount: int, kind: Kind)
    requires w.Valid()
    ensures TotalBalance(Credit(w, u, amount, kind)) == TotalBalance(w) + Applied(w, u, amount)
    ensures Credit(w, u, amount, kind).Valid()
  {
    var after := Credit(w, u, amount, kind);
    CreditShape(w, u, amount, kind);
    SameShapeValid(w, after);
    AppliedIsCapped(w, u, amount);
    if Applied(w, u, amount) > 0 {
      if u !in w.users {
        NoOrdersNoProgress(w.orders, u);
        assert false;
      }
      AddRaisesTotal(w, after, u, Applied(w, u, amount));
    } else {
      SumCongruent(w.ids, (x: nat) => Withdrawable(w, x), (x: nat) => Withdrawable(after, x));
    }
  }

  // ---- ledger rows ----

  /** How many rows of a kind the ledger has. */
  function Rows(ledger: seq<Entry>, kind: Kind): nat
  {
    if ledger == [] then 0
    else Rows(ledger[..|ledger| - 1], kind) + if ledger[|ledger| - 1].kind == kind then 1 else 0
  }

  lemma RowsAppend(ledger: seq<Entry>, e: Entry, kind: Kind)
    ensures Rows(ledger + [e], kind) == Rows(ledger, kind) + if e.kind == kind then 1 else 0
  {
    assert (ledger + [e])[..|ledger|] == ledger;
  }

  /** Rows of a kind that b's ledger has more than a's. */
  function NewRows(a: World, b: World, kind: Kind): int
  {
    Rows(b.ledger, kind) - Rows(a.ledger, kind)
  }

  /** gain stays within the exact amount and what is allowed for n ledger rows. */
  ghost predicate Within(m: Allowance, gain: int, exact: int, n: int)
  {
    2 * (m.gain * gain) <= 2 * (m.exact * exact) + m.row * n
  }

  lemma WithinAdds(m: Allowance, a: int, x: int, i: int, b: int, y: int, j: int)
    requires Within(m, a, x, i) && Within(m, b, y, j)
    ensures Within(m, a + b, x + y, i + j)
  {
    Distribute(m.gain, a, b);
    Distribute(m.exact, x, y);
    Distribute(m.row, i, j);
  }

  lemma WithinMore(m: Allowance, a: int, x: int, y: int, n: int)
    requires Within(m, a, x, n) && x <= y && m.exact >= 0
    ensures Within(m, a, y, n)
  {
    Scaled(m.exact, x, y);
  }

  lemma WithinZero(m: Allowance, exact: int)
    requires exact >= 0 && m.exact >= 0
    ensures Within(m, 0, exact, 0)
  {
    Scaled(m.exact, 0, exact);
  }

  /** One credit of an amount that is rounded by at most half a unit: it adds a row exactly when
      it adds to the balances. */
  lemma CreditWithin(m: Allowance, w: World, u: nat, amount: int, kind: Kind, exact: int)
    requires m.Positive() && w.Valid() && exact >= 0 && Within(m, amount, exact, 1)
    ensures var after := Credit(w, u, amount, kind);
            && after.Valid()
            && Within(m, TotalBalance(after) - TotalBalance(w), exact, NewRows(w, after, kind))
            && forall k: Kind :: k != kind ==> NewRows(w, after, k) == 0
  {
    hide World.Valid, TotalBalance;
    var after := Credit(w, u, amount, kind);
    CreditRaisesTotal(w, u, amount, kind);
    CreditRows(w, u, amount, kind);
    AppliedIsCapped(w, u, amount);
    hide Credit, Applied, Rows;
    SmallerGain(m, amount, Applied(w, u, amount), exact);
  }

  lemma SmallerGain(m: Allowance, amount: int, applied: int, exact: int)
    requires m.Positive() && exact >= 0 && Within(m, amount, exact, 1) && 0 <= applied <= Max(0, amount)
    ensures Within(m, applied, exact, if applied > 0 then 1 else 0)
  {
    Scaled(m.gain, applied, Max(0, amount));
    Scaled(m.exact, 0, exact);
  }

  lemma CreditRows(w: World, u: nat, amount: int, kind: Kind)
    ensures forall k: Kind ::
              NewRows(w, Credit(w, u, amount, kind), k) == if k == kind && Applied(w, u, amount) > 0 then 1 else 0
  {
    forall k: Kind
      ensures NewRows(w, Credit(w, u, amount, kind), k) == if k == kind && Applied(w, u, amount) > 0 then 1 else 0
    {
      RowsAppend(w.ledger, Entry(u, kind, Applied(w, u, amount)), k);
    }
  }

  /** From a to b the balances gain within exact and half a unit per new row of the kind; no other
      kind gets rows. */
  ghost predicate Pays(m: Allowance, a: World, b: World, kind: Kind, exact: int)
  {
    && b.Valid()
    && Within(m, TotalBalance(b) - TotalBalance(a), exact, NewRows(a, b, kind))
    && forall k: Kind :: k != kind ==> NewRows(a, b, k) == 0
  }

  lemma PaysTwice(m: Allowance, a: World, b: World, c: World, kind: Kind, x: int, y: int)
    requires Pays(m, a, b, kind, x) && Pays(m, b, c, kind, y)
    ensures Pays(m, a, c, kind, x + y)
  {
    hide World.Valid, TotalBalance, Rows;
    WithinAdds(m, TotalBalance(b) - TotalBalance(a), x, NewRows(a, b, kind),
               TotalBalance(c) - TotalBalance(b), y, NewRows(b, c, kind));
    forall k: Kind | k != kind
      ensures NewRows(a, c, k) == 0
    {
      assert NewRows(a, b, k) == 0 && NewRows(b, c, k) == 0;
    }
  }

  lemma PaysNothing(m: Allowance, a: World, kind: Kind, exact: int)
    requires a.Valid() && exact >= 0 && m.exact >= 0
    ensures Pays(m, a, a, kind, exact)
  {
    WithinZero(m, exact);
  }

  // ---- static and generation phase ----

  /** At most left more uplines, each within half a unit of the exact reward. */
  lemma {:induction false} UplinesPay(p: Params, m: Allowance, w: World, current: nat, reward: int, depth: nat, left: nat, exact: int)
    requires m.Positive() && w.Valid() && exact >= 0 && Within(m, reward, exact, 1) && left + depth == p.GenerationDepth() + 1
    ensures Pays(m, w, PayUplines(p, w, current, reward, depth), Generation, left * exact)
    decreases left
  {
    hide World.Valid, Pays, Within, TotalBalance, NewRows, PayUpline;
    Scaled(left, 0, exact);
    PaysNothing(m, w, Generation, left * exact);
    if !(depth > p.GenerationDepth() || current !in w.users || w.users[current].inviter.None?) {
      var inviter := w.users[current].inviter.value;
      var paid := PayUpline(p, w, inviter, reward, depth);
      UplinePays(p, m, w, inviter, reward, depth, exact);
      UplinesPay(p, m, paid, inviter, reward, depth + 1, left - 1, exact);
      PaysTwice(m, w, paid, PayUplines(p, paid, inviter, reward, depth + 1), Generation, exact, (left - 1) * exact);
      OneMore(left, exact);
    }
  }

  lemma OneMore(left: int, exact: int)
    ensures exact + (left - 1) * exact == left * exact
  {
  }

  lemma UplinePays(p: Params, m: Allowance, w: World, inviter: nat, reward: int, depth: nat, exact: int)
    requires m.Positive() && w.Valid() && exact >= 0 && Within(m, reward, exact, 1)
    ensures Pays(m, w, PayUpline(p, w, inviter, reward, depth), Generation, exact)
    ensures PayUpline(p, w, inviter, reward, depth).Valid()
  {
    hide World.Valid, Within, TotalBalance, Credit, NewRows;
    PaysNothing(m, w, Generation, exact);
    CreditWithin(m, w, inviter, reward, Generation, exact);
  }

  lemma GenerationsPay(p: Params, w: World, from: nat, interest: int)
    requires p.scale > 0 && p.generationRate >= 0 && w.Valid() && interest > 0
    ensures Pays(Half(p), w, PayGenerations(p, w, from, interest), Generation,
                 p.GenerationDepth() * (p.generationRate * interest))
  {
    hide World.Valid, Pays;
    var exact := p.generationRate * interest;
    RewardWithin(p, interest);
    Scaled(p.GenerationDepth(), 0, exact);
    PaysNothing(Half(p), w, Generation, p.GenerationDepth() * exact);
    UplinesPay(p, Half(p), w, from, GenerationReward(p, interest), 1, p.GenerationDepth(), exact);
  }

  lemma RewardWithin(p: Params, interest: int)
    requires p.scale > 0 && p.generationRate >= 0 && interest > 0
    ensures p.generationRate * interest >= 0
    ensures Within(Half(p), GenerationReward(p, interest), p.generationRate * interest, 1)
  {
    assert interest * p.generationRate == p.generationRate * interest >= 0;
  }

  /** What s of static yields puts on the balances before rounding: itself and every generation. */
  function StaticExact(p: Params, s: int): int
  {
    p.scale * s + p.GenerationDepth() * (p.generationRate * s)
  }

  lemma StaticExactAdds(p: Params, s: int, y: int)
    ensures StaticExact(p, s + y) == StaticExact(p, s) + (p.scale * y + p.GenerationDepth() * (p.generationRate * y))
  {
    var d, g, q := p.GenerationDepth(), p.generationRate, p.scale;
    assert q * (s + y) == q * s + q * y && g * (s + y) == g * s + g * y;
    assert d * (g * s + g * y) == d * (g * s) + d * (g * y);
  }

  /** As Pays, with static rows besides. */
  ghost predicate PaysStatic(m: Allowance, a: World, b: World, exact: int)
  {
    && b.Valid()
    && Within(m, TotalBalance(b) - TotalBalance(a), exact, NewRows(a, b, Generation))
    && NewRows(a, b, CommunityBase) == 0 && NewRows(a, b, Peer) == 0
  }

  lemma InterestPays(p: Params, w: World, i: nat, interest: int)
    requires w.Valid() && i < |w.orders|
    ensures PaysStatic(Half(p), w, PayInterest(p, w, i, interest), p.scale * interest)
    ensures TotalBalance(PayInterest(p, w, i, interest)) == TotalBalance(w) + interest
  {
    hide World.Valid, TotalBalance, Rows, Within, PayInterest, NewRows;
    InterestTables(p, w, i, interest);
    InterestRows(p, w, i, interest);
    ExactWithin(Half(p), interest);
  }

  lemma InterestRows(p: Params, w: World, i: nat, interest: int)
    requires i < |w.orders|
    ensures forall k: Kind :: k != Static ==> NewRows(w, PayInterest(p, w, i, interest), k) == 0
  {
    hide Rows, AddWithdrawable, EarnInterest;
    forall k: Kind | k != Static
      ensures NewRows(w, PayInterest(p, w, i, interest), k) == 0
    {
      RowsAppend(w.ledger, Entry(w.orders[i].user, Static, interest), k);
    }
  }

  lemma ExactWithin(m: Allowance, y: int)
    requires m.exact == 1
    ensures Within(m, y, m.gain * y, 0)
  {
  }

  lemma InterestTables(p: Params, w: World, i: nat, interest: int)
    requires w.Valid() && i < |w.orders|
    ensures PayInterest(p, w, i, interest).Valid()
    ensures TotalBalance(PayInterest(p, w, i, interest)) == TotalBalance(w) + interest
  {
    hide TotalBalance;
    var paid := PayInterest(p, w, i, interest);
    assert SameShape(w, paid);
    SameShapeValid(w, paid);
    AddRaisesTotal(w, paid, w.orders[i].user, interest);
  }

  lemma PaidOrderPays(p: Params, w: World, i: nat, y: int)
    requires p.scale > 0 && p.generationRate >= 0 && w.Valid() && i < |w.orders| && y > 0
    ensures PaysStatic(Half(p), w, PayGenerations(p, PayInterest(p, w, i, y), w.orders[i].user, y),
                       p.scale * y + p.GenerationDepth() * (p.generationRate * y))
  {
    hide PayGenerations, PayInterest, TotalBalance, World.Valid, Rows, Within;
    var paid := PayInterest(p, w, i, y);
    InterestPays(p, w, i, y);
    GenerationsPay(p, paid, w.orders[i].user, y);
    PaysStaticTwice(Half(p), w, paid, PayGenerations(p, paid, w.orders[i].user, y),
                    p.scale * y, p.GenerationDepth() * (p.generationRate * y));
  }

  lemma PaysStaticTwice(m: Allowance, a: World, b: World, c: World, x: int, y: int)
    requires PaysStatic(m, a, b, x) && (PaysStatic(m, b, c, y) || Pays(m, b, c, Generation, y))
    ensures PaysStatic(m, a, c, x + y)
  {
    hide World.Valid, TotalBalance, Rows;
    WithinAdds(m, TotalBalance(b) - TotalBalance(a), x, NewRows(a, b, Generation),
               TotalBalance(c) - TotalBalance(b), y, NewRows(b, c, Generation));
  }

  /** The run so far has paid within its yields and their generations. */
  ghost predicate WithinCap(p: Params, r: Run, w0: World)
  {
    Earned(r.pieces) && PaysStatic(Half(p), w0, r.w, StaticExact(p, InterestTotal(r.pieces)))
  }

  lemma UnpaidOrderPays(p: Params, m: Allowance, r: Run, i: nat)
    requires p.scale > 0 && m.exact >= 0 && r.w.Valid() && SettleOrder(p, r, i).pieces == r.pieces
    ensures PaysStatic(m, r.w, SettleOrder(p, r, i).w, 0)
  {
    hide World.Valid, Rows, SettleOrder, TotalBalance;
    var s := SettleOrder(p, r, i);
    SettleOrderShape(p, r, i);
    SameShapeValid(r.w, s.w);
    UnpaidSame(p, r, i);
    SameTotal(r.w, s.w);
    WithinZero(m, 0);
  }

  lemma UnpaidSame(p: Params, r: Run, i: nat)
    requires p.scale > 0 && SettleOrder(p, r, i).pieces == r.pieces
    ensures var s := SettleOrder(p, r, i);
            s.w.ids == r.w.ids && s.w.users == r.w.users && s.w.ledger == r.w.ledger
  {
    hide PayGenerations, PayInterest, StaticYield, SettleNothing;
  }

  lemma SameTotal(a: World, b: World)
    requires a.ids == b.ids && a.users == b.users
    ensures TotalBalance(a) == TotalBalance(b)
  {
    SumCongruent(a.ids, (x: nat) => Withdrawable(a, x), (x: nat) => Withdrawable(b, x));
  }

  lemma SettleOrderPays(p: Params, r: Run, i: nat, w0: World)
    requires p.scale > 0 && p.generationRate >= 0 && r.w.Valid() && WithinCap(p, r, w0)
    ensures WithinCap(p, SettleOrder(p, r, i), w0)
  {
    hide PayGenerations, PayInterest, World.Valid, PaysStatic, StaticExact, StaticYield;
    var s := SettleOrder(p, r, i);
    var before := StaticExact(p, InterestTotal(r.pieces));
    if s.pieces == r.pieces {
      UnpaidOrderPays(p, Half(p), r, i);
      PaysStaticTwice(Half(p), w0, r.w, s.w, before, 0);
    } else {
      var o := r.w.orders[i];
      var y := Interest(o);
      PaidOrderPays(p, r.w, i, y);
      PaysStaticTwice(Half(p), w0, r.w, s.w, before, p.scale * y + p.GenerationDepth() * (p.generationRate * y));
      var piece := Piece(o.user, i, y, o.amount, o.cycle.rate);
      InterestTotalAppend(r.pieces, [piece]);
      assert [piece][1..] == [];
      StaticExactAdds(p, InterestTotal(r.pieces), y);
    }
  }

  lemma {:induction false} StaticPhasePays(p: Params, w: World, snapshot: seq<nat>)
    requires p.scale > 0 && p.generationRate >= 0 && w.Valid()
    ensures WithinCap(p, SettleOrders(p, w, snapshot), w)
  {
    if snapshot == [] {
      assert p.scale * 0 == 0 && p.generationRate * 0 == 0 && p.GenerationDepth() * 0 == 0;
    } else {
      hide World.Valid, WithinCap, SettleOrder;
      var rest := snapshot[..|snapshot| - 1];
      StaticPhasePays(p, w, rest);
      SettleOrdersValid(p, w, rest);
      SettleOrderPays(p, SettleOrders(p, w, rest), snapshot[|snapshot| - 1], w);
    }
  }

  // ---- sources ----

  lemma {:induction false} SourcesWithin(ids: seq<nat>, pieces: seq<Piece>, keep: nat -> bool)
    requires Ascending(ids) && Earned(pieces)
    ensures Sum(ids, (x: nat) => if keep(x) then InterestTotal(PiecesOf(pieces, x)) else 0) <= InterestTotal(pieces)
  {
    var f := (x: nat) => if keep(x) then InterestTotal(PiecesOf(pieces, x)) else 0;
    if pieces == [] {
      SumZero(ids, f);
    } else {
      var n := |pieces| - 1;
      var rest, last := pieces[..n], pieces[n];
      SourcesWithin(ids, rest, keep);
      assert pieces == rest + [last] && [last][1..] == [];
      InterestTotalAppend(rest, [last]);
      var f0 := (x: nat) => if keep(x) then InterestTotal(PiecesOf(rest, x)) else 0;
      var f1 := (x: nat) => if x == last.user then (if keep(x) then last.interest else 0) else 0;
      forall x | x in ids
        ensures f(x) == f0(x) + f1(x)
      {
        InterestTotalAppend(PiecesOf(rest, x), [last]);
        assert PiecesOf(rest, x) + [] == PiecesOf(rest, x);
      }
      SumLinear(ids, f0, f1, f);
      var y := if keep(last.user) then last.interest else 0;
      SumIndicator(ids, last.user, y);
      SumCongruent(ids, f1, (x: nat) => if x == last.user then y else 0);
      SumCongruent(ids, f0, (x: nat) => if keep(x) then InterestTotal(PiecesOf(rest, x)) else 0);
    }
  }

  lemma SourceAt(w: World, pieces: seq<Piece>, x: nat)
    ensures PiecesAt(SourcePieces(w, pieces), x)
         == if x in w.users && !w.users[x].rewardLocked then PiecesOf(pieces, x) else []
  {
  }

  lemma SourcePiecesWithin(w: World, pieces: seq<Piece>)
    requires w.Valid() && Earned(pieces)
    ensures TotalInterest(w.Tree(), SourcePieces(w, pieces)) <= InterestTotal(pieces)
  {
    var sources := SourcePieces(w, pieces);
    var keep := (x: nat) => x in w.users && !w.users[x].rewardLocked;
    SourcesWithin(w.ids, pieces, keep);
    var f := (x: nat) => if keep(x) then InterestTotal(PiecesOf(pieces, x)) else 0;
    forall x | x in w.ids
      ensures InterestTotal(PiecesAt(sources, x)) == f(x)
    {
      SourceAt(w, pieces, x);
    }
    assert w.Tree().ids == w.ids;
    SumCongruent(w.ids, f, (x: nat) => InterestTotal(PiecesAt(sources, x)));
  }

  lemma {:induction false} PiecesOfEarned(pieces: seq<Piece>, x: nat)
    requires Earned(pieces)
    ensures Earned(PiecesOf(pieces, x))
  {
    if pieces != [] {
      PiecesOfEarned(pieces[..|pieces| - 1], x);
    }
  }

  // ---- community phases ----

  /** A claimant's lines pay within their exact weight. */
  lemma {:induction false} LinesPay(m: Allowance, w: World, u: nat, lines: seq<Line>)
    requires m.Positive() && w.Valid() && AllRounded(m, lines)
    ensures Pays(m, w, CreditAll(w, LineGrants(u, lines), CommunityBase), CommunityBase, LinesWeight(lines))
    decreases |lines|
  {
    hide World.Valid, TotalBalance, Credit, NewRows;
    PaysNothing(m, w, CommunityBase, 0);
    if lines != [] {
      var line, rest := lines[0], lines[1..];
      var exact := line.sourceStatic * line.gap;
      assert Rounded(m, line);
      CreditWithin(m, w, u, line.amount, CommunityBase, exact);
      var next := Credit(w, u, line.amount, CommunityBase);
      assert AllRounded(m, rest) by {
        assert forall i :: 0 <= i < |rest| ==> rest[i] == lines[i + 1];
      }
      LinesPay(m, next, u, rest);
      PaysTwice(m, w, next, CreditAll(next, LineGrants(u, rest), CommunityBase), CommunityBase, exact, LinesWeight(rest));
      assert LineGrants(u, lines)[1..] == LineGrants(u, rest);
    }
  }

  /** The first of the listed claimants together, before rounding. */
  function ClaimWeights(p: Params, t: Tree, levels: Levels, pieces: Pieces, users: seq<nat>): int
    requires t.Rooted()
  {
    Sum(users, (u: nat) => ClaimWeight(p, t, levels, pieces, u))
  }

  lemma ClaimWeightsSnoc(p: Params, t: Tree, levels: Levels, pieces: Pieces, users: seq<nat>)
    requires t.Rooted() && users != []
    ensures var v := users[|users| - 1];
            ClaimWeights(p, t, levels, pieces, users)
            == ClaimWeights(p, t, levels, pieces, users[..|users| - 1]) + ClaimWeight(p, t, levels, pieces, v)
  {
    var rest, v := users[..|users| - 1], users[|users| - 1];
    assert users == rest + [v] && [v][1..] == [];
    SumAppend(rest, [v], (u: nat) => ClaimWeight(p, t, levels, pieces, u));
  }

  lemma ClaimantPays(p: Params, t: Tree, levels: Levels, m: Allowance, pieces: Pieces, w: World, v: nat)
    requires p.scale > 0 && t.Valid() && w.Valid() && AllEarned(pieces) && GradedTo9(levels)
    requires m.Positive() && GapsWithin(p, m)
    ensures t.Rooted()
    ensures Pays(m, w, CreditAll(w, LineGrants(v, BaseLines(p, t, levels, pieces, v)), CommunityBase), CommunityBase,
                 ClaimWeight(p, t, levels, pieces, v))
  {
    assert t.Rooted();
    hide Tree.Valid, BaseLines, CreditAll, LineGrants, ClaimWeight, World.Valid, Pays, GapsWithin;
    var lines := BaseLines(p, t, levels, pieces, v);
    BaseLinesWeight(p, t, levels, m, pieces, v);
    LinesPay(m, w, v, lines);
    PaysMore(m, w, CreditAll(w, LineGrants(v, lines), CommunityBase), CommunityBase, LinesWeight(lines), ClaimWeight(p, t, levels, pieces, v));
  }

  lemma ClaimantTables(before: Paid, v: nat, lines: seq<Line>)
    ensures PayClaimant(before, v, lines).w == CreditAll(before.w, LineGrants(v, lines), CommunityBase)
  {
  }

  /** One more claimant. */
  lemma PhaseStep(p: Params, t: Tree, levels: Levels, m: Allowance, pieces: Pieces, w: World, users: seq<nat>)
    requires p.scale > 0 && t.Valid() && AllEarned(pieces) && GradedTo9(levels) && users != []
    requires m.Positive() && GapsWithin(p, m) && t.Rooted()
    requires var rest := users[..|users| - 1];
             Pays(m, w, PayBase(p, t, levels, pieces, w, rest).w, CommunityBase, ClaimWeights(p, t, levels, pieces, rest))
    ensures Pays(m, w, PayBase(p, t, levels, pieces, w, users).w, CommunityBase, ClaimWeights(p, t, levels, pieces, users))
  {
    hide *;
    var rest, v := users[..|users| - 1], users[|users| - 1];
    var before, lines := PayBase(p, t, levels, pieces, w, rest), BaseLines(p, t, levels, pieces, v);
    PayBaseSnoc(p, t, levels, pieces, w, users);
    ClaimWeightsSnoc(p, t, levels, pieces, users);
    PaysValid(m, w, before.w, CommunityBase, ClaimWeights(p, t, levels, pieces, rest));
    ClaimantPays(p, t, levels, m, pieces, before.w, v);
    ClaimantTables(before, v, lines);
    PaysTwice(m, w, before.w, PayClaimant(before, v, lines).w, CommunityBase, ClaimWeights(p, t, levels, pieces, rest),
              ClaimWeight(p, t, levels, pieces, v));
  }

  lemma {:induction false} BasePhasePays(p: Params, t: Tree, levels: Levels, m: Allowance, pieces: Pieces, w: World, users: seq<nat>)
    requires p.scale > 0 && t.Valid() && w.Valid() && AllEarned(pieces) && GradedTo9(levels)
    requires m.Positive() && GapsWithin(p, m)
    ensures t.Rooted()
    ensures Pays(m, w, PayBase(p, t, levels, pieces, w, users).w, CommunityBase, ClaimWeights(p, t, levels, pieces, users))
  {
    assert t.Rooted();
    hide Tree.Valid, World.Valid, Pays, GapsWithin, AllEarned, GradedTo9, Allowance.Positive, PayClaimant, BaseLines, ClaimWeight;
    if users == [] {
      PaysNothing(m, w, CommunityBase, 0);
    } else {
      hide PayBase, ClaimWeights;
      BasePhasePays(p, t, levels, m, pieces, w, users[..|users| - 1]);
      PhaseStep(p, t, levels, m, pieces, w, users);
    }
  }

  lemma PaysValid(m: Allowance, a: World, b: World, kind: Kind, exact: int)
    requires Pays(m, a, b, kind, exact)
    ensures b.Valid()
  {
  }

  lemma PaysMore(m: Allowance, a: World, b: World, kind: Kind, x: int, y: int)
    requires Pays(m, a, b, kind, x) && x <= y && m.exact >= 0
    ensures Pays(m, a, b, kind, y)
  {
    hide World.Valid, TotalBalance, Rows;
    WithinMore(m, TotalBalance(b) - TotalBalance(a), x, y, NewRows(a, b, kind));
  }

  function GainSum(got: Gains, users: seq<nat>): int
  {
    Sum(users, (u: nat) => Gained(got, u))
  }

  /** Line by line, u's balance gains exactly what is applied. */
  lemma {:induction false} ClaimantTotal(w: World, u: nat, lines: seq<Line>)
    requires w.Valid()
    ensures CreditAll(w, LineGrants(u, lines), CommunityBase).Valid()
    ensures TotalBalance(CreditAll(w, LineGrants(u, lines), CommunityBase)) == TotalBalance(w) + AppliedLines(w, u, lines)
    decreases |lines|
  {
    if lines != [] {
      assert LineGrants(u, lines)[1..] == LineGrants(u, lines[1..]);
      CreditRaisesTotal(w, u, lines[0].amount, CommunityBase);
      ClaimantTotal(Credit(w, u, lines[0].amount, CommunityBase), u, lines[1..]);
    }
  }

  lemma {:induction false} AppliedLinesNonnegative(w: World, u: nat, lines: seq<Line>)
    ensures AppliedLines(w, u, lines) >= 0
    decreases |lines|
  {
    if lines != [] {
      AppliedIsCapped(w, u, lines[0].amount);
      AppliedLinesNonnegative(Credit(w, u, lines[0].amount, CommunityBase), u, lines[1..]);
    }
  }

  lemma GainSumStep(before: Gains, after: Gains, rest: seq<nat>, v: nat)
    requires forall u :: u in rest ==> Gained(after, u) == Gained(before, u)
    ensures GainSum(after, rest + [v]) == GainSum(before, rest) + Gained(after, v)
  {
    SumAppend(rest, [v], (u: nat) => Gained(after, u));
    SumCongruent(rest, (u: nat) => Gained(before, u), (u: nat) => Gained(after, u));
  }

  /** What one claimant records is what its lines apply. */
  lemma ClaimantRecorded(before: Paid, v: nat, lines: seq<Line>)
    requires v !in before.got
    ensures Gained(PayClaimant(before, v, lines).got, v) == AppliedLines(before.w, v, lines)
    ensures forall u :: u != v ==> Gained(PayClaimant(before, v, lines).got, u) == Gained(before.got, u)
  {
    AppliedLinesNonnegative(before.w, v, lines);
  }

  /** The base phase adds exactly what it records per claimant. */
  lemma {:induction false} BasePhaseTotal(p: Params, t: Tree, levels: Levels, pieces: Pieces, w: World, users: seq<nat>)
    requires p.scale > 0 && t.Valid() && w.Valid() && Distinct(users)
    ensures var paid := PayBase(p, t, levels, pieces, w, users);
            paid.w.Valid() && TotalBalance(paid.w) == TotalBalance(w) + GainSum(paid.got, users)
  {
    if users != [] {
      var rest, v := users[..|users| - 1], users[|users| - 1];
      DistinctFront(users);
      PayBaseSnoc(p, t, levels, pieces, w, users);
      hide Distinct, PayBase, BaseLines, CreditAll, GainSum, TotalBalance, PayClaimant, World.Valid, Tree.Valid;
      var before := PayBase(p, t, levels, pieces, w, rest);
      var lines := BaseLines(p, t, levels, pieces, v);
      BasePhaseTotal(p, t, levels, pieces, w, rest);
      BaseIsCapped(p, t, levels, pieces, w, rest, v);
      ClaimantTotal(before.w, v, lines);
      ClaimantRecorded(before, v, lines);
      GainSumStep(before.got, PayClaimant(before, v, lines).got, rest, v);
    }
  }

  lemma AscendingDistinct(ids: seq<nat>)
    requires Ascending(ids)
    ensures Distinct(ids)
  {
  }

  /** Adding up the gains in any listing of the earners. */
  lemma ScheduledGains(p: Params, t: Tree, levels: Levels, pieces: Pieces, w: World, order: seq<nat>)
    requires p.scale > 0 && t.Valid()
    requires multiset(order) == multiset(PayBase(p, t, levels, pieces, w, t.ids).got.Keys)
    ensures GainTotal(PayBase(p, t, levels, pieces, w, t.ids).got, order)
         == GainSum(PayBase(p, t, levels, pieces, w, t.ids).got, t.ids)
    ensures forall u :: u in PayBase(p, t, levels, pieces, w, t.ids).got ==>
              PayBase(p, t, levels, pieces, w, t.ids).got[u] >= 0
  {
    var got := PayBase(p, t, levels, pieces, w, t.ids).got;
    AscendingDistinct(t.ids);
    forall u: nat
      ensures u in got ==> u in t.ids && got[u] > 0
    {
      BaseIsCapped(p, t, levels, pieces, w, t.ids, u);
    }
    var f := (u: nat) => Gained(got, u);
    var keep := (u: nat) => u in got;
    forall y: nat
      ensures multiset(order)[y] == if keep(y) then multiset(t.ids)[y] else 0
    {
      t.IdCount(y);
    }
    SumOfListing(order, t.ids, keep, f);
    SumCongruent(t.ids, (u: nat) => if keep(u) then f(u) else 0, (u: nat) => Gained(got, u));
    GainTotalIsSum(got, order);
    SumCongruent(order, f, (u: nat) => Gained(got, u));
  }

  lemma {:induction false} GainTotalIsSum(got: Gains, order: seq<nat>)
    ensures GainTotal(got, order) == Sum(order, (u: nat) => Gained(got, u))
  {
    if order != [] {
      GainTotalIsSum(got, order[1..]);
    }
  }

  /** The peer lines pay within the peer rate of the base they are paid on. */
  lemma {:induction false} PeerLinesPay(p: Params, t: Tree, levels: Levels, got: Gains, w: World, order: seq<nat>)
    requires p.scale > 0 && p.peerRate >= 0 && w.Valid() && forall x :: x in got ==> got[x] >= 0
    ensures Pays(Half(p), w, CreditAll(w, PeerGrants(PeerLines(p, t, levels, got, order)), Peer), Peer,
                 p.peerRate * GainTotal(got, order))
    decreases |order|
  {
    hide World.Valid, Pays, PeerLineFrom, Credit;
    if order == [] {
      PaysNothing(Half(p), w, Peer, 0);
    } else {
      var from, rest := order[0], order[1..];
      var base := if from in got then got[from] else 0;
      var head, tail := PeerLineFrom(p, t, levels, got, from), PeerLines(p, t, levels, got, rest);
      var next := CreditAll(w, PeerGrants(head), Peer);
      PeerLinePays(p, t, levels, got, w, from);
      PeerLinesPay(p, t, levels, got, next, rest);
      PeerHead(head, tail);
      CreditAllAppend(w, PeerGrants(head), PeerGrants(tail), Peer);
      PaysTwice(Half(p), w, next, CreditAll(next, PeerGrants(tail), Peer), Peer, p.peerRate * base, p.peerRate * GainTotal(got, rest));
      Distribute(p.peerRate, base, GainTotal(got, rest));
    }
  }

  lemma PeerLinePays(p: Params, t: Tree, levels: Levels, got: Gains, w: World, from: nat)
    requires p.scale > 0 && p.peerRate >= 0 && w.Valid() && (from in got ==> got[from] >= 0)
    ensures var head := PeerLineFrom(p, t, levels, got, from);
            && |head| <= 1
            && Pays(Half(p), w, CreditAll(w, PeerGrants(head), Peer), Peer, p.peerRate * if from in got then got[from] else 0)
            && CreditAll(w, PeerGrants(head), Peer).Valid()
  {
    hide World.Valid, TotalBalance, Credit, NewRows, PeerShare, Within;
    var head := PeerLineFrom(p, t, levels, got, from);
    var base := if from in got then got[from] else 0;
    Scaled(p.peerRate, 0, base);
    PaysNothing(Half(p), w, Peer, p.peerRate * base);
    if head != [] {
      PeerShareRounded(p, base);
      CreditWithin(Half(p), w, head[0].recipient, head[0].amount, Peer, p.peerRate * base);
      var g := Grant(head[0].recipient, head[0].amount);
      assert head[1..] == [] && PeerGrants(head) == [g];
      SingleCredit(w, g, Peer);
    }
  }

  lemma PeerShareRounded(p: Params, base: int)
    requires p.scale > 0 && p.peerRate >= 0 && base >= 0
    ensures Within(Half(p), PeerShare(p, base), p.peerRate * base, 1)
  {
    assert p.peerRate * base == base * p.peerRate;
  }

  ghost predicate GradesTo9(w: World)
  {
    forall x :: x in w.users ==> w.users[x].level <= 9
  }

  lemma LevelTo9(p: Params, volume: int)
    requires p.TiersTo9()
    ensures p.LevelFor(volume) <= 9
  {
  }

  lemma GradedLevels(p: Params, w: World)
    requires w.Valid() && GradesTo9(w) && p.TiersTo9()
    ensures GradedTo9(Grades(p, w)) && GradesTo9(Graded(p, w))
  {
    hide World.Valid, VolumeOf;
    forall x | x in w.users
      ensures GradeOf(p, w, x) <= 9
    {
      LevelTo9(p, VolumeOf(w, x));
    }
  }

  lemma BoundArithmetic(q: int, r: int, d: int, x: int, g: int, base: int, y: int, b: int, peer: int, l: int)
    requires q > 0 && r >= 0
    requires 2 * (q * d) <= 2 * x + q * g && 2 * (q * base) <= 2 * y + q * b && 2 * (q * peer) <= 2 * (r * base) + q * l
    ensures 2 * (q * (q * (d + base + peer))) <= q * (2 * x + q * g) + (q + r) * (2 * y + q * b) + q * (q * l)
  {
    var d', b', p' := q * d, q * base, q * peer;
    Scaled(q, 2 * d', 2 * x + q * g);
    Scaled(q + r, 2 * b', 2 * y + q * b);
    Scaled(q, 2 * p', 2 * (r * base) + q * l);
    assert q * (r * base) == r * b';
    Distribute(q, d + base, peer);
    Distribute(q, d, base);
    Distribute(q, d' + b', p');
    Distribute(q, d', b');
    Distribute(q, 2 * (r * base), q * l);
  }

  /** The yields paid by one settlement. */
  function RunPieces(p: Params, w: World, only: seq<nat>): seq<Piece>
    requires p.scale > 0
  {
    SettleOrders(p, w, ActiveIds(w.orders, only)).pieces
  }

  ghost predicate BoundAssumptions(p: Params, w: World, top: int)
  {
    && p.scale > 0 && p.NonnegativeRates() && p.RisingRates() && p.TiersTo9() && p.RateFor(9) <= top
    && w.Valid() && GradesTo9(w)
  }

  /** gain is at most s * (1 + depth * generationRate + top * (1 + peerRate)), plus half a unit per
      generation row and per peer row, plus half a unit per community base row that the peer rate
      carries on.  Both sides are multiplied by 2 * scale^2. */
  ghost predicate RunBound(p: Params, top: int, s: int, generations: int, bases: int, peers: int, gain: int)
  {
    2 * (p.scale * (p.scale * gain))
    <= p.scale * (2 * StaticExact(p, s) + p.scale * generations)
       + (p.scale + p.peerRate) * (2 * (top * s) + p.scale * bases)
       + p.scale * (p.scale * peers)
  }

  /** The tables after the static phase. */
  function StaticPaid(p: Params, w: World, only: seq<nat>): Run
    requires p.scale > 0
  {
    SettleOrders(p, w, ActiveIds(w.orders, only))
  }

  lemma StaticPart(p: Params, w: World, only: seq<nat>, top: int)
    requires BoundAssumptions(p, w, top)
    ensures var r := StaticPaid(p, w, only);
            && WithinCap(p, r, w)
            && r.w.Valid() && r.w.ids == w.ids && GradesTo9(r.w)
            && Graded(p, r.w).Valid() && TotalBalance(Graded(p, r.w)) == TotalBalance(r.w)
            && Graded(p, r.w).ledger == r.w.ledger
  {
    hide World.Valid, SettleOrders, TotalBalance, WithinCap, GradeOf, VolumeOf;
    var snapshot := ActiveIds(w.orders, only);
    var r := SettleOrders(p, w, snapshot);
    StaticPhasePays(p, w, snapshot);
    SettleOrdersShape(p, w, snapshot);
    SettleOrdersValid(p, w, snapshot);
    GradedShape(p, r.w);
    SameShapeValid(r.w, Graded(p, r.w));
    GradedBalance(p, r.w);
  }

  lemma GradedBalance(p: Params, w: World)
    requires w.Valid()
    ensures TotalBalance(Graded(p, w)) == TotalBalance(w)
  {
    hide GradeOf, VolumeOf;
    SumCongruent(w.ids, (x: nat) => Withdrawable(w, x), (x: nat) => Withdrawable(Graded(p, w), x));
  }

  /** The base phase: what it records is what the balances gain, within the top rate of the yields. */
  lemma BasePart(p: Params, m: Allowance, w: World, only: seq<nat>, top: int)
    requires BoundAssumptions(p, w, top) && m.Positive() && GapsWithin(p, m)
    ensures var r := StaticPaid(p, w, only);
            var paid := BasePaid(p, w, only);
            && r.w.Valid()
            && TotalBalance(paid.w) == TotalBalance(r.w) + GainSum(paid.got, w.ids)
            && Pays(m, Graded(p, r.w), paid.w, CommunityBase, top * InterestTotal(r.pieces))
  {
    hide World.Valid, World.Tree, SettleOrders, PayBase, Grades, Graded, TotalBalance, Pays, GainSum, SourcePieces, GapsWithin;
    var r := StaticPaid(p, w, only);
    StaticPart(p, w, only, top);
    r.w.TreeValid();
    var t, levels, sources, graded := r.w.Tree(), Grades(p, r.w), SourcePieces(r.w, r.pieces), Graded(p, r.w);
    TreeIds(r.w);
    AscendingDistinct(t.ids);
    BasePhaseTotal(p, t, levels, sources, graded, t.ids);
    WeightsWithinTop(p, r, top);
    BasePhasePays(p, t, levels, m, sources, graded, t.ids);
    PaysMore(m, graded, PayBase(p, t, levels, sources, graded, t.ids).w, CommunityBase,
             ClaimWeights(p, t, levels, sources, t.ids), top * InterestTotal(r.pieces));
  }

  lemma TreeIds(w: World)
    ensures w.Tree().ids == w.ids
  {
  }

  lemma WeightsWithinTop(p: Params, r: Run, top: int)
    requires p.scale > 0 && p.RisingRates() && p.TiersTo9() && p.RateFor(9) <= top
    requires r.w.Valid() && GradesTo9(r.w) && Earned(r.pieces)
    ensures r.w.Tree().Valid() && GradedTo9(Grades(p, r.w)) && AllEarned(SourcePieces(r.w, r.pieces))
    ensures ClaimWeights(p, r.w.Tree(), Grades(p, r.w), SourcePieces(r.w, r.pieces), r.w.ids) <= top * InterestTotal(r.pieces)
  {
    r.w.TreeValid();
    hide World.Valid, World.Tree, ClaimWeight, TotalInterest, InterestTotal;
    var t, levels, sources := r.w.Tree(), Grades(p, r.w), SourcePieces(r.w, r.pieces);
    GradedLevels(p, r.w);
    forall x | x in sources
      ensures Earned(sources[x])
    {
      PiecesOfEarned(r.pieces, x);
    }
    TreeIds(r.w);
    AllWeightsBound(p, t, levels, sources, top);
    SourcePiecesWithin(r.w, r.pieces);
    assert p.RateFor(0) <= p.RateFor(9);
    Scaled(top, TotalInterest(t, sources), InterestTotal(r.pieces));
    SumCongruent(t.ids, (u: nat) => ClaimWeight(p, t, levels, sources, u), (u: nat) => ClaimWeight(p, t, levels, sources, u));
  }

  /** The peer phase pays within the peer rate of the base. */
  lemma PeerPart(p: Params, w: World, only: seq<nat>, order: seq<nat>, top: int)
    requires BoundAssumptions(p, w, top) && Schedule(p, w, only, order)
    ensures var paid := BasePaid(p, w, only);
            Pays(Half(p), paid.w, SettleOnce(p, w, only, order), Peer, p.peerRate * GainSum(paid.got, w.ids))
  {
    hide World.Valid, World.Tree, SettleOrders, PayBase, Grades, Graded, TotalBalance, GainSum, SourcePieces, Within, CreditAll;
    var r := StaticPaid(p, w, only);
    StaticPart(p, w, only, top);
    r.w.TreeValid();
    TreeIds(r.w);
    var t, levels, paid := r.w.Tree(), Grades(p, r.w), BasePaid(p, w, only);
    GapsWithinHalf(p);
    BasePart(p, Half(p), w, only, top);
    ScheduledGains(p, t, levels, SourcePieces(r.w, r.pieces), Graded(p, r.w), order);
    PeerLinesPay(p, t, levels, paid.got, paid.w, order);
  }

  /** What the three phases of one settlement add to the balances, each within its allowance for
      the ledger rows of its kind. */
  lemma SettlementParts(p: Params, m: Allowance, w: World, only: seq<nat>, order: seq<nat>, top: int)
    returns (daily: int, base: int, peer: int)
    requires BoundAssumptions(p, w, top) && Schedule(p, w, only, order) && m.Positive() && GapsWithin(p, m)
    ensures var after, s := SettleOnce(p, w, only, order), InterestTotal(RunPieces(p, w, only));
            && daily + base + peer == TotalBalance(after) - TotalBalance(w)
            && Within(Half(p), daily, StaticExact(p, s), NewRows(w, after, Generation))
            && Within(m, base, top * s, NewRows(w, after, CommunityBase))
            && Within(Half(p), peer, p.peerRate * base, NewRows(w, after, Peer))
  {
    hide World.Valid, SettleOrders, PayBase, SettleOnce, Graded, TotalBalance, GainSum, InterestTotal, Within, Rows, BasePaid, GapsWithin;
    var r, paid, after := StaticPaid(p, w, only), BasePaid(p, w, only), SettleOnce(p, w, only, order);
    StaticPart(p, w, only, top);
    BasePart(p, m, w, only, top);
    PeerPart(p, w, only, order, top);
    var graded := Graded(p, r.w);
    assert NewRows(graded, paid.w, Generation) == 0 && NewRows(graded, paid.w, Peer) == 0;
    assert NewRows(paid.w, after, Generation) == 0 && NewRows(paid.w, after, CommunityBase) == 0;
    daily, base, peer := TotalBalance(r.w) - TotalBalance(w), GainSum(paid.got, w.ids), TotalBalance(after) - TotalBalance(paid.w);
  }

  /** Whole-run bound over every tree, order set and lock pattern: s is the static yield paid, the
      counts are the ledger rows the run wrote. */
  lemma SettlementIsBounded(p: Params, w: World, only: seq<nat>, order: seq<nat>, top: int)
    requires BoundAssumptions(p, w, top) && Schedule(p, w, only, order)
    ensures var after := SettleOnce(p, w, only, order);
            RunBound(p, top, InterestTotal(RunPieces(p, w, only)), NewRows(w, after, Generation), NewRows(w, after, CommunityBase),
                     NewRows(w, after, Peer), TotalBalance(after) - TotalBalance(w))
  {
    hide World.Valid, SettleOnce, TotalBalance, InterestTotal, NewRows, RunPieces, StaticExact;
    GapsWithinHalf(p);
    var daily, base, peer := SettlementParts(p, Half(p), w, only, order, top);
    var after, s := SettleOnce(p, w, only, order), InterestTotal(RunPieces(p, w, only));
    BoundArithmetic(p.scale, p.peerRate, daily, StaticExact(p, s), NewRows(w, after, Generation),
                    base, top * s, NewRows(w, after, CommunityBase), peer, NewRows(w, after, Peer));
  }
}
