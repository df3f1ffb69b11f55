/** What the telescoping of the gap rates needs: base rates that do not fall by level. */
module FallingRates {
  import opened Arith
  import opened Sums
  import opened Forest
  import opened Params
  import opened Community
  import opened LineOfThree

  /** The rising-rates condition is exactly what the telescoping needs, in any invite forest. */
  lemma TelescopingExactlyForRisingRates(p: Params)
    ensures p.RisingRates() <==>
            forall t: Tree, levels: Levels, x: nat :: t.Valid() && GradedTo9(levels) ==>
              GapSum(p, t, levels, x, t.Chain(x)) == p.RateFor(Highest(levels, t.Chain(x)))
  {
    if p.RisingRates() {
      forall t: Tree, levels: Levels, x: nat | t.Valid() && GradedTo9(levels)
        ensures GapSum(p, t, levels, x, t.Chain(x)) == p.RateFor(Highest(levels, t.Chain(x)))
      {
        GapRatesTelescope(p, t, levels, x);
      }
    } else {
      var a: nat, b: nat :| a <= b <= 9 && p.RateFor(a) > p.RateFor(b);
      TwoUplinesOvershoot(p, a, b);
      LineValid();
    }
  }

  /** User 1 has the higher level, user 2 the lower one with the better rate. */
  function Crossed(a: nat, b: nat): Levels
  {
    map[1 := b, 2 := a]
  }

  lemma CrossedGaps(p: Params, a: nat, b: nat)
    requires a < b <= 9 && p.RateFor(a) > p.RateFor(b)
    ensures Line3.Rooted() && GradedTo9(Crossed(a, b))
    ensures Highest(Crossed(a, b), [2, 1]) == b
    ensures GapRate(p, Line3, Crossed(a, b), 2, 3) == Max(0, p.RateFor(a))
    ensures GapRate(p, Line3, Crossed(a, b), 1, 3) == 0 && GapRate(p, Line3, Crossed(a, b), 1, 2) == Max(0, p.RateFor(b))
  {
    var t, levels := Line3, Crossed(a, b);
    assert t.Rooted();
    assert [2, 1][1..] == [1] && [1][1..] == [];
    assert Highest(levels, [1]) == b;
    assert HighestBetween(t, levels, 2, 1) == 0 && HighestBetween(t, levels, 3, 2) == 0 && HighestBetween(t, levels, 3, 1) == a;
  }

  /** For any falling pair of rates, a line of three users breaks the sum. */
  lemma TwoUplinesOvershoot(p: Params, a: nat, b: nat)
    requires a < b <= 9 && p.RateFor(a) > p.RateFor(b)
    ensures Line3.Valid() && GradedTo9(Crossed(a, b))
    ensures GapSum(p, Line3, Crossed(a, b), 3, Line3.Chain(3)) != p.RateFor(Highest(Crossed(a, b), Line3.Chain(3)))
  {
    LineValid();
    CrossedGaps(p, a, b);
    hide Tree.Valid, GapRate;
    var f := (v: nat) => GapRate(p, Line3, Crossed(a, b), v, 3);
    assert [2, 1][1..] == [1] && [1][1..] == [];
    assert Sum([2, 1], f) == f(2) + f(1);
  }

  /** On a yield of scale units of user 3. */
  function OneYield(p: Params): Pieces
  {
    map[3 := [Piece(3, 0, p.scale, 0, 0)]]
  }

  /** And the lines show it: the two claimants together are due more on one yield than the rate of
      the highest level above gives. */
  lemma TwoUplinesOverpaid(p: Params, a: nat, b: nat)
    requires p.scale > 0 && 1 <= a < b <= 9 && p.RateFor(a) > p.RateFor(b) && p.RateFor(a) > 0
    ensures Line3.Valid()
    ensures var due := LinesTotal(BaseLines(p, Line3, Crossed(a, b), OneYield(p), 1))
                       + LinesTotal(BaseLines(p, Line3, Crossed(a, b), OneYield(p), 2));
            && due == p.RateFor(a)
            && p.scale * due > p.scale * p.RateFor(Highest(Crossed(a, b), Line3.Chain(3)))
  {
    hide Tree.Valid, BaseLines;
    LineValid();
    KidsOfThree(Line3);
    DueToFirst(p, a, b);
    DueToSecond(p, a, b);
    CrossedGaps(p, a, b);
    More(p.scale, p.RateFor(a), p.RateFor(b));
  }

  lemma DueToFirst(p: Params, a: nat, b: nat)
    requires p.scale > 0 && 1 <= a < b <= 9 && p.RateFor(a) > p.RateFor(b) && p.RateFor(a) > 0
    requires Line3.Valid() && Line3.Kids(1) == [2] && Line3.Kids(2) == [3] && Line3.Kids(3) == []
    ensures BaseLines(p, Line3, Crossed(a, b), OneYield(p), 1) == []
  {
    hide Tree.Valid, Tree.DownlineOrder, GapRate, SourceLines;
    assert Line3.Rooted();
    Downlines(Line3);
    CrossedGaps(p, a, b);
    YieldShares(p, p.RateFor(a));
    Along(p, Crossed(a, b), 1, [3], 3, []);
    Along(p, Crossed(a, b), 1, [2, 3], 2, [3]);
  }

  lemma DueToSecond(p: Params, a: nat, b: nat)
    requires p.scale > 0 && 1 <= a < b <= 9 && p.RateFor(a) > p.RateFor(b) && p.RateFor(a) > 0
    requires Line3.Valid() && Line3.Kids(1) == [2] && Line3.Kids(2) == [3] && Line3.Kids(3) == []
    ensures LinesTotal(BaseLines(p, Line3, Crossed(a, b), OneYield(p), 2)) == p.RateFor(a)
  {
    hide Tree.Valid, Tree.DownlineOrder, GapRate, SourceLines;
    assert Line3.Rooted();
    Downlines(Line3);
    CrossedGaps(p, a, b);
    YieldShares(p, p.RateFor(a));
    Along(p, Crossed(a, b), 2, [3], 3, []);
    var lines := SourceLines(p, 3, [Piece(3, 0, p.scale, 0, 0)], p.RateFor(a));
    assert lines + [] == lines;
  }

  lemma More(q: int, a: int, b: int)
    requires q > 0 && a > b
    ensures q * a > q * b
  {
    assert q * (a - b) > 0;
  }

  lemma Along(p: Params, levels: Levels, u: nat, order: seq<nat>, x: nat, rest: seq<nat>)
    requires p.scale > 0 && Line3.Rooted() && order == [x] + rest
    ensures LinesAlong(p, Line3, levels, OneYield(p), u, []) == []
    ensures LinesAlong(p, Line3, levels, OneYield(p), u, order)
         == SourceLines(p, x, PiecesAt(OneYield(p), x), GapRate(p, Line3, levels, u, x))
            + LinesAlong(p, Line3, levels, OneYield(p), u, rest)
  {
    assert order[1..] == rest;
  }

  lemma YieldShares(p: Params, rate: int)
    requires p.scale > 0 && rate > 0
    ensures LinesTotal(SourceLines(p, 3, [Piece(3, 0, p.scale, 0, 0)], rate)) == rate
    ensures SourceLines(p, 3, [Piece(3, 0, p.scale, 0, 0)], 0) == []
    ensures forall gap: int :: SourceLines(p, 2, [], gap) == []
  {
    var piece := Piece(3, 0, p.scale, 0, 0);
    assert [piece][1..] == [];
    RoundDivExact(rate, p.scale);
    assert Share(p, p.scale, rate) == rate;
    var line := Line(3, 0, rate, p.scale, 0, 0, rate);
    assert SourceLines(p, 3, [piece], rate) == [line] + [];
    assert [line][1..] == [];
  }
}
