/** Community base before rounding: what the gap rates alone put on the yields. */
module GapWeights {
  import opened Arith
  import opened Sums
  import opened Forest
  import opened Params
  import opened Community

  /** How a bound weighs what is paid, the exact amounts and each ledger row:
      2 * gain * paid <= 2 * exact * amounts + row * rows. */
  datatype Allowance = Allowance(gain: int, exact: int, row: int)
  {
    ghost predicate Positive()
    {
      gain > 0 && exact >= 0
    }
  }

  /** Half a unit for each row; the exact amounts are counted in 1 / scale. */
  function Half(p: Params): Allowance
  {
    Allowance(p.scale, 1, p.scale)
  }

  /** A share at this gap rate is within m of the exact one, on every yield. */
  ghost predicate SharesWithin(p: Params, m: Allowance, gap: int)
    requires p.scale > 0
  {
    forall y: int :: y > 0 ==> 2 * (m.gain * Share(p, y, gap)) <= 2 * (m.exact * (y * gap)) + m.row
  }

  /** So it is at every gap rate between two levels. */
  ghost predicate GapsWithin(p: Params, m: Allowance)
    requires p.scale > 0
  {
    forall a: nat, b: nat :: b <= a <= 9 ==> SharesWithin(p, m, Max(0, p.RateFor(a) - p.RateFor(b)))
  }

  /** Rounding to the nearest unit stays within half a unit. */
  lemma GapsWithinHalf(p: Params)
    requires p.scale > 0
    ensures GapsWithin(p, Half(p))
  {
    forall a: nat, b: nat | b <= a <= 9
      ensures SharesWithin(p, Half(p), Max(0, p.RateFor(a) - p.RateFor(b)))
    {
      SharesWithinHalf(p, Max(0, p.RateFor(a) - p.RateFor(b)));
    }
  }

  lemma SharesWithinHalf(p: Params, gap: int)
    requires p.scale > 0 && gap >= 0
    ensures SharesWithin(p, Half(p), gap)
  {
    forall y: int | y > 0
      ensures 2 * (p.scale * Share(p, y, gap)) <= 2 * (1 * (y * gap)) + p.scale
    {
      assert y * gap >= 0;
    }
  }

  lemma GapWithin(p: Params, m: Allowance, a: nat, b: nat)
    requires p.scale > 0 && GapsWithin(p, m) && b <= a <= 9
    ensures SharesWithin(p, m, Max(0, p.RateFor(a) - p.RateFor(b)))
  {
    hide SharesWithin;
  }

  lemma GapRateWithin(p: Params, t: Tree, levels: Levels, m: Allowance, u: nat, x: nat)
    requires p.scale > 0 && t.Rooted() && GradedTo9(levels) && GapsWithin(p, m)
    ensures SharesWithin(p, m, GapRate(p, t, levels, u, x))
  {
    var level, between := Level(levels, u), HighestBetween(t, levels, x, u);
    hide SharesWithin, HighestBetween, GapsWithin;
    GapWithin(p, m, 0, 0);
    if between < level && p.RateFor(level) > 0 {
      GapWithin(p, m, level, between);
    }
  }

  /** Yield times gap rate, over the lines. */
  function LinesWeight(lines: seq<Line>): int
  {
    if lines == [] then 0 else lines[0].sourceStatic * lines[0].gap + LinesWeight(lines[1..])
  }

  /** A line pays its yield times its gap rate, within m. */
  ghost predicate Rounded(m: Allowance, line: Line)
  {
    && line.amount > 0
    && line.sourceStatic * line.gap >= 0
    && 2 * (m.gain * line.amount) <= 2 * (m.exact * (line.sourceStatic * line.gap)) + m.row
  }

  ghost predicate AllRounded(m: Allowance, lines: seq<Line>)
  {
    forall i :: 0 <= i < |lines| ==> Rounded(m, lines[i])
  }

  lemma {:induction false} LinesWeightAppend(a: seq<Line>, b: seq<Line>)
    ensures LinesWeight(a + b) == LinesWeight(a) + LinesWeight(b)
  {
    if a == [] {
      assert a + b == b;
    } else {
      assert (a + b)[1..] == a[1..] + b;
      LinesWeightAppend(a[1..], b);
    }
  }

  lemma HeadRounded(p: Params, m: Allowance, x: nat, piece: Piece, gap: int)
    requires p.scale > 0 && piece.interest > 0 && gap >= 0 && SharesWithin(p, m, gap)
    ensures var amount := Share(p, piece.interest, gap);
            && piece.interest * gap >= 0
            && (amount > 0 ==> Rounded(m, Line(x, piece.order, amount, piece.interest, piece.buy, piece.ratePercent, gap)))
  {
    assert piece.interest * gap >= 0;
  }

  lemma Spread(a: int, b: int, gap: int)
    ensures (a + b) * gap == a * gap + b * gap
  {
  }

  lemma HeadWeight(head: Line, tail: seq<Line>)
    ensures LinesWeight([head] + tail) == head.sourceStatic * head.gap + LinesWeight(tail)
  {
    assert ([head] + tail)[1..] == tail;
  }

  lemma {:induction false} SourceLinesWeight(p: Params, m: Allowance, x: nat, ps: seq<Piece>, gap: int)
    requires p.scale > 0 && Earned(ps) && gap >= 0 && SharesWithin(p, m, gap)
    ensures AllRounded(m, SourceLines(p, x, ps, gap))
    ensures LinesWeight(SourceLines(p, x, ps, gap)) <= InterestTotal(ps) * gap
  {
    if ps != [] {
      SourceLinesWeight(p, m, x, ps[1..], gap);
      var tail := SourceLines(p, x, ps[1..], gap);
      var amount := Share(p, ps[0].interest, gap);
      var head := Line(x, ps[0].order, amount, ps[0].interest, ps[0].buy, ps[0].ratePercent, gap);
      assert SourceLines(p, x, ps, gap) == if amount > 0 then [head] + tail else tail;
      assert InterestTotal(ps) == ps[0].interest + InterestTotal(ps[1..]);
      HeadRounded(p, m, x, ps[0], gap);
      hide Share, SharesWithin, Rounded, InterestTotal, SourceLines, LinesWeight;
      Spread(ps[0].interest, InterestTotal(ps[1..]), gap);
      HeadWeight(head, tail);
    }
  }

  ghost predicate AllEarned(pieces: Pieces)
  {
    forall x :: x in pieces ==> Earned(pieces[x])
  }

  function WeightOn(p: Params, t: Tree, levels: Levels, pieces: Pieces, u: nat, x: nat): int
    requires t.Rooted()
  {
    InterestTotal(PiecesAt(pieces, x)) * GapRate(p, t, levels, u, x)
  }

  lemma {:induction false} LinesAlongWeight(p: Params, t: Tree, levels: Levels, m: Allowance, pieces: Pieces, u: nat, order: seq<nat>)
    requires p.scale > 0 && t.Rooted() && AllEarned(pieces) && GradedTo9(levels) && GapsWithin(p, m)
    ensures AllRounded(m, LinesAlong(p, t, levels, pieces, u, order))
    ensures LinesWeight(LinesAlong(p, t, levels, pieces, u, order))
         <= Sum(order, (x: nat) => WeightOn(p, t, levels, pieces, u, x))
  {
    if order != [] {
      hide Rounded, GapRate, SourceLines, GapsWithin, SharesWithin;
      var x, rest := order[0], order[1..];
      LinesAlongWeight(p, t, levels, m, pieces, u, rest);
      GapRateWithin(p, t, levels, m, u, x);
      SourceLinesWeight(p, m, x, PiecesAt(pieces, x), GapRate(p, t, levels, u, x));
      LinesWeightAppend(SourceLines(p, x, PiecesAt(pieces, x), GapRate(p, t, levels, u, x)),
                        LinesAlong(p, t, levels, pieces, u, rest));
    }
  }

  /** All yields below u, weighted with u's gap rates. */
  function ClaimWeight(p: Params, t: Tree, levels: Levels, pieces: Pieces, u: nat): int
    requires t.Rooted()
  {
    Sum(t.ids, (x: nat) => if t.Under(u, x) then WeightOn(p, t, levels, pieces, u, x) else 0)
  }

  lemma BaseLinesWeight(p: Params, t: Tree, levels: Levels, m: Allowance, pieces: Pieces, u: nat)
    requires p.scale > 0 && t.Valid() && AllEarned(pieces) && GradedTo9(levels) && GapsWithin(p, m)
    ensures AllRounded(m, BaseLines(p, t, levels, pieces, u))
    ensures LinesWeight(BaseLines(p, t, levels, pieces, u)) <= ClaimWeight(p, t, levels, pieces, u)
  {
    hide Rounded, WeightOn, LinesAlong, Tree.Under, GapsWithin;
    var f := (x: nat) => WeightOn(p, t, levels, pieces, u, x);
    LinesAlongWeight(p, t, levels, m, pieces, u, t.DownlineOrder(u));
    SumCongruent(t.DownlineOrder(u), f, (x: nat) => WeightOn(p, t, levels, pieces, u, x));
    t.DownlineSum(u, f);
    SumCongruent(t.ids, (x: nat) => if t.Under(u, x) then f(x) else 0,
                 (x: nat) => if t.Under(u, x) then WeightOn(p, t, levels, pieces, u, x) else 0);
  }

  function AllWeights(p: Params, t: Tree, levels: Levels, pieces: Pieces): int
    requires t.Rooted()
  {
    Sum(t.ids, (u: nat) => ClaimWeight(p, t, levels, pieces, u))
  }

  lemma {:induction false} SumScaled(xs: seq<nat>, k: int, f: nat -> int)
    ensures Sum(xs, (u: nat) => k * f(u)) == k * Sum(xs, f)
  {
    if xs != [] {
      SumScaled(xs[1..], k, f);
      SumCongruent(xs[1..], (u: nat) => k * f(u), (u: nat) => k * f(u));
      assert k * (f(xs[0]) + Sum(xs[1..], f)) == k * f(xs[0]) + k * Sum(xs[1..], f);
    }
  }

  /** Everything the uplines of x put on its yields: the yields times the rate of the highest level above. */
  lemma WeightAbove(p: Params, t: Tree, levels: Levels, pieces: Pieces, x: nat)
    requires t.Valid() && GradedTo9(levels) && p.RisingRates()
    ensures Sum(t.ids, (u: nat) => if t.Under(u, x) then WeightOn(p, t, levels, pieces, u, x) else 0)
         == InterestTotal(PiecesAt(pieces, x)) * p.RateFor(Highest(levels, t.Chain(x)))
  {
    hide GapRate, Tree.Under, Tree.Chain, InterestTotal;
    var k := InterestTotal(PiecesAt(pieces, x));
    var gaps := (u: nat) => GapRate(p, t, levels, u, x);
    var g := (u: nat) => WeightOn(p, t, levels, pieces, u, x);
    t.ChainSum(x, g);
    SumCongruent(t.ids, (u: nat) => if t.Under(u, x) then g(u) else 0,
                 (u: nat) => if t.Under(u, x) then WeightOn(p, t, levels, pieces, u, x) else 0);
    SumCongruent(t.Chain(x), g, (u: nat) => k * gaps(u));
    SumScaled(t.Chain(x), k, gaps);
    SumCongruent(t.Chain(x), gaps, (u: nat) => GapRate(p, t, levels, u, x));
    GapRatesTelescope(p, t, levels, x);
  }

  /** Summing by claimant equals summing by source. */
  lemma WeightsBySource(p: Params, t: Tree, levels: Levels, pieces: Pieces)
    requires t.Rooted()
    ensures AllWeights(p, t, levels, pieces)
         == Sum(t.ids, (x: nat) =>
              Sum(t.ids, (u: nat) => if t.Under(u, x) then WeightOn(p, t, levels, pieces, u, x) else 0))
  {
    hide WeightOn, Tree.Under;
    var f := (u: nat, x: nat) => if t.Under(u, x) then WeightOn(p, t, levels, pieces, u, x) else 0;
    SumExchange(t.ids, t.ids, f);
    forall u | u in t.ids
      ensures ClaimWeight(p, t, levels, pieces, u) == Sum(t.ids, (x: nat) => f(u, x))
    {
      SumCongruent(t.ids, (x: nat) => if t.Under(u, x) then WeightOn(p, t, levels, pieces, u, x) else 0, (x: nat) => f(u, x));
    }
    forall x | x in t.ids
      ensures Sum(t.ids, (u: nat) => f(u, x))
           == Sum(t.ids, (u: nat) => if t.Under(u, x) then WeightOn(p, t, levels, pieces, u, x) else 0)
    {
      SumCongruent(t.ids, (u: nat) => f(u, x), (u: nat) => if t.Under(u, x) then WeightOn(p, t, levels, pieces, u, x) else 0);
    }
    SumCongruent(t.ids, (u: nat) => ClaimWeight(p, t, levels, pieces, u), (u: nat) => Sum(t.ids, (x: nat) => f(u, x)));
    SumCongruent(t.ids, (x: nat) => Sum(t.ids, (u: nat) => f(u, x)),
                 (x: nat) => Sum(t.ids, (u: nat) => if t.Under(u, x) then WeightOn(p, t, levels, pieces, u, x) else 0));
  }

  /** Before rounding, all community base together is at most the top rate of all yields. */
  lemma AllWeightsBound(p: Params, t: Tree, levels: Levels, pieces: Pieces, top: int)
    requires t.Valid() && GradedTo9(levels) && p.RisingRates() && p.RateFor(9) <= top && AllEarned(pieces)
    ensures AllWeights(p, t, levels, pieces) <= top * TotalInterest(t, pieces)
  {
    hide WeightOn, Tree.Under, Highest, Tree.Chain;
    var columns := (x: nat) => Sum(t.ids, (u: nat) => if t.Under(u, x) then WeightOn(p, t, levels, pieces, u, x) else 0);
    WeightsBySource(p, t, levels, pieces);
    hide ClaimWeight, AllWeights;
    var paid := (x: nat) => InterestTotal(PiecesAt(pieces, x));
    forall x | x in t.ids
      ensures columns(x) <= top * paid(x)
    {
      WeightAbove(p, t, levels, pieces, x);
      TopRate(p, levels, t.Chain(x), PiecesAt(pieces, x), top);
    }
    SumCongruent(t.ids, columns,
                 (x: nat) => Sum(t.ids, (u: nat) => if t.Under(u, x) then WeightOn(p, t, levels, pieces, u, x) else 0));
    SumBound(t.ids, columns, (x: nat) => top * paid(x));
    SumScaled(t.ids, top, paid);
    SumCongruent(t.ids, paid, (x: nat) => InterestTotal(PiecesAt(pieces, x)));
  }

  lemma TopRate(p: Params, levels: Levels, uplines: seq<nat>, ps: seq<Piece>, top: int)
    requires GradedTo9(levels) && p.RisingRates() && p.RateFor(9) <= top && Earned(ps)
    ensures InterestTotal(ps) * p.RateFor(Highest(levels, uplines)) <= top * InterestTotal(ps)
  {
    hide InterestTotal, Highest;
    HighestTo9(levels, uplines);
    InterestNonnegative(ps);
    SmallerFactor(InterestTotal(ps), p.RateFor(Highest(levels, uplines)), top);
  }

  lemma SmallerFactor(k: int, a: int, b: int)
    requires k >= 0 && a <= b
    ensures k * a <= b * k
  {
    assert k * (b - a) >= 0;
  }

  lemma {:induction false} InterestNonnegative(ps: seq<Piece>)
    requires Earned(ps)
    ensures InterestTotal(ps) >= 0
  {
    if ps != [] {
      InterestNonnegative(ps[1..]);
    }
  }
}
