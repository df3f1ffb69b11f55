/** Community rewards of one settlement (community.go): gap rates up the invite chain,
    per-source lines, small-area volumes and the loops that compute them. */
module Community {
  import opened Arith
  import opened Sums
  import opened Forest
  import opened Params

  type Levels = map<nat, nat>

  /** A missing level reads as 0. */
  function Level(levels: Levels, x: nat): nat
  {
    if x in levels then levels[x] else 0
  }

  // ---- gap rate ----

  /** Highest level strictly between x and its upline u. */
  function HighestBetween(t: Tree, levels: Levels, x: nat, u: nat): nat
    requires t.Rooted()
    decreases x
  {
    if x !in t.parent || t.parent[x] == u then 0
    else Max(Level(levels, t.parent[x]), HighestBetween(t, levels, t.parent[x], u))
  }

  /** Differential rate u earns on the static yield of x.  The source gives a direct
      referral the full rate; DirectReferralRate below shows that this is no exception. */
  function GapRate(p: Params, t: Tree, levels: Levels, u: nat, x: nat): (gap: int)
    requires t.Rooted()
    ensures gap >= 0
    ensures gap > 0 ==> HighestBetween(t, levels, x, u) < Level(levels, u)
  {
    var ru := p.RateFor(Level(levels, u));
    var between := HighestBetween(t, levels, x, u);
    if ru <= 0 || between >= Level(levels, u) then 0 else Max(0, ru - p.RateFor(between))
  }

  lemma DirectReferralRate(p: Params, t: Tree, levels: Levels, u: nat, x: nat)
    requires t.Rooted() && x in t.parent && t.parent[x] == u
    ensures GapRate(p, t, levels, u, x) == Max(0, p.RateFor(Level(levels, u)))
  {
  }

  /** Highest level among the listed users. */
  function Highest(levels: Levels, xs: seq<nat>): nat
  {
    if xs == [] then 0 else Max(Level(levels, xs[0]), Highest(levels, xs[1..]))
  }

  lemma {:induction false} HighestAppend(levels: Levels, xs: seq<nat>, y: nat)
    ensures Highest(levels, xs + [y]) == Max(Highest(levels, xs), Level(levels, y))
  {
    if xs != [] {
      assert (xs + [y])[1..] == xs[1..] + [y];
      HighestAppend(levels, xs[1..], y);
    }
  }

  lemma {:induction false} ChainDescends(t: Tree, x: nat, i: nat)
    requires t.Rooted() && i < |t.Chain(x)|
    ensures t.Chain(x)[i] < x
    decreases x
  {
    if i > 0 {
      ChainDescends(t, t.parent[x], i - 1);
    }
  }

  lemma {:induction false} HighestBetweenPrefix(t: Tree, levels: Levels, x: nat, i: nat)
    requires t.Rooted() && i < |t.Chain(x)|
    ensures HighestBetween(t, levels, x, t.Chain(x)[i]) == Highest(levels, t.Chain(x)[..i])
    decreases x
  {
    if i > 0 {
      var p := t.parent[x];
      ChainDescends(t, p, i - 1);
      HighestBetweenPrefix(t, levels, p, i - 1);
      assert t.Chain(x)[..i] == [p] + t.Chain(p)[..i - 1];
    }
  }

  /** All gap rates one source pays to the listed uplines. */
  function GapSum(p: Params, t: Tree, levels: Levels, x: nat, uplines: seq<nat>): int
    requires t.Rooted()
  {
    Sum(uplines, (u: nat) => GapRate(p, t, levels, u, x))
  }

  /** How many of the listed uplines have a positive gap. */
  function Earners(p: Params, t: Tree, levels: Levels, x: nat, uplines: seq<nat>): nat
    requires t.Rooted()
  {
    if uplines == [] then 0
    else Earners(p, t, levels, x, uplines[..|uplines| - 1])
         + if GapRate(p, t, levels, uplines[|uplines| - 1], x) > 0 then 1 else 0
  }

  ghost predicate GradedTo9(levels: Levels)
  {
    forall x :: x in levels ==> levels[x] <= 9
  }

  lemma {:induction false} HighestTo9(levels: Levels, xs: seq<nat>)
    requires GradedTo9(levels)
    ensures Highest(levels, xs) <= 9
  {
    if xs != [] {
      HighestTo9(levels, xs[1..]);
    }
  }

  lemma {:induction false} GapPrefix(p: Params, t: Tree, levels: Levels, x: nat, i: nat)
    requires t.Rooted() && GradedTo9(levels) && p.RisingRates() && i <= |t.Chain(x)|
    ensures GapSum(p, t, levels, x, t.Chain(x)[..i]) == p.RateFor(Highest(levels, t.Chain(x)[..i]))
  {
    var c := t.Chain(x);
    if i > 0 {
      var u := c[i - 1];
      GapPrefix(p, t, levels, x, i - 1);
      assert c[..i] == c[..i - 1] + [u];
      var f := (v: nat) => GapRate(p, t, levels, v, x);
      SumAppend(c[..i - 1], [u], f);
      assert Sum([u], f) == f(u);
      HighestAppend(levels, c[..i - 1], u);
      HighestBetweenPrefix(t, levels, x, i - 1);
      HighestTo9(levels, c[..i - 1]);
      assert p.RateFor(0) <= p.RateFor(Level(levels, u));
      assert p.RateFor(0) <= p.RateFor(Highest(levels, c[..i - 1]));
    }
  }

  /** Telescoping: with rising rates the gap rates paid on one source add up to the rate of
      the highest level above it. */
  lemma GapRatesTelescope(p: Params, t: Tree, levels: Levels, x: nat)
    requires t.Rooted() && GradedTo9(levels) && p.RisingRates()
    ensures GapSum(p, t, levels, x, t.Chain(x)) == p.RateFor(Highest(levels, t.Chain(x)))
  {
    assert t.Chain(x)[..|t.Chain(x)|] == t.Chain(x);
    GapPrefix(p, t, levels, x, |t.Chain(x)|);
  }

  /** Every paid gap climbs to a new level, so one source pays at most nine uplines. */
  lemma {:induction false} EarnersClimb(p: Params, t: Tree, levels: Levels, x: nat, i: nat)
    requires t.Rooted() && i <= |t.Chain(x)|
    ensures Earners(p, t, levels, x, t.Chain(x)[..i]) <= Highest(levels, t.Chain(x)[..i])
  {
    var c := t.Chain(x);
    if i > 0 {
      EarnersClimb(p, t, levels, x, i - 1);
      assert c[..i] == c[..i - 1] + [c[i - 1]];
      assert c[..i][..i - 1] == c[..i - 1];
      HighestAppend(levels, c[..i - 1], c[i - 1]);
      HighestBetweenPrefix(t, levels, x, i - 1);
    }
  }

  lemma AtMostNineEarners(p: Params, t: Tree, levels: Levels, x: nat)
    requires t.Rooted() && GradedTo9(levels)
    ensures Earners(p, t, levels, x, t.Chain(x)) <= 9
  {
    assert t.Chain(x)[..|t.Chain(x)|] == t.Chain(x);
    EarnersClimb(p, t, levels, x, |t.Chain(x)|);
    HighestTo9(levels, t.Chain(x));
  }

  // ---- reward lines ----

  /** One order's static yield within a run. */
  datatype Piece = Piece(user: nat, order: nat, interest: int, buy: int, ratePercent: int)

  datatype Line = Line(source: nat, order: nat, amount: int, sourceStatic: int,
                       sourceBuy: int, sourceRate: int, gap: int)

  type Pieces = map<nat, seq<Piece>>

  function PiecesAt(pieces: Pieces, x: nat): seq<Piece>
  {
    if x in pieces then pieces[x] else []
  }

  /** What one piece pays at a gap rate; nothing for a nonpositive yield or gap. */
  function Share(p: Params, interest: int, gap: int): (amount: int)
    requires p.scale > 0
    ensures amount >= 0
  {
    if interest <= 0 || gap <= 0 then 0
    else
      assert interest * gap >= 0;
      RoundDiv(interest * gap, p.scale)
  }

  function SourceLines(p: Params, x: nat, ps: seq<Piece>, gap: int): seq<Line>
    requires p.scale > 0
  {
    if ps == [] then []
    else
      var amount := Share(p, ps[0].interest, gap);
      (if amount > 0
       then [Line(x, ps[0].order, amount, ps[0].interest, ps[0].buy, ps[0].ratePercent, gap)] else [])
      + SourceLines(p, x, ps[1..], gap)
  }

  function LinesAlong(p: Params, t: Tree, levels: Levels, pieces: Pieces, u: nat, order: seq<nat>): seq<Line>
    requires p.scale > 0 && t.Rooted()
  {
    if order == [] then []
    else SourceLines(p, order[0], PiecesAt(pieces, order[0]), GapRate(p, t, levels, u, order[0]))
         + LinesAlong(p, t, levels, pieces, u, order[1..])
  }

  /** The community base lines of a claimant, in traversal order. */
  function BaseLines(p: Params, t: Tree, levels: Levels, pieces: Pieces, u: nat): seq<Line>
    requires p.scale > 0 && t.Valid()
  {
    LinesAlong(p, t, levels, pieces, u, t.DownlineOrder(u))
  }

  /** Every line pays something. */
  ghost predicate PaidLines(lines: seq<Line>)
  {
    forall i :: 0 <= i < |lines| ==> lines[i].amount > 0
  }

  lemma {:induction false} SourceLinesPaid(p: Params, x: nat, ps: seq<Piece>, gap: int)
    requires p.scale > 0
    ensures PaidLines(SourceLines(p, x, ps, gap))
  {
    if ps != [] {
      SourceLinesPaid(p, x, ps[1..], gap);
    }
  }

  lemma {:induction false} LinesAlongPaid(p: Params, t: Tree, levels: Levels, pieces: Pieces, u: nat, order: seq<nat>)
    requires p.scale > 0 && t.Rooted()
    ensures PaidLines(LinesAlong(p, t, levels, pieces, u, order))
  {
    if order != [] {
      SourceLinesPaid(p, order[0], PiecesAt(pieces, order[0]), GapRate(p, t, levels, u, order[0]));
      LinesAlongPaid(p, t, levels, pieces, u, order[1..]);
    }
  }

  function LinesTotal(lines: seq<Line>): int
  {
    if lines == [] then 0 else lines[0].amount + LinesTotal(lines[1..])
  }

  /** What u gets from all pieces of one source. */
  function ClaimOn(p: Params, t: Tree, levels: Levels, ps: seq<Piece>, u: nat, x: nat): int
    requires p.scale > 0 && t.Rooted()
  {
    LinesTotal(SourceLines(p, x, ps, GapRate(p, t, levels, u, x)))
  }

  lemma {:induction false} LinesTotalAppend(a: seq<Line>, b: seq<Line>)
    ensures LinesTotal(a + b) == LinesTotal(a) + LinesTotal(b)
  {
    if a == [] {
      assert a + b == b;
    } else {
      assert (a + b)[1..] == a[1..] + b;
      LinesTotalAppend(a[1..], b);
    }
  }

  lemma {:induction false} LinesAlongAppend(p: Params, t: Tree, levels: Levels, pieces: Pieces, u: nat,
                                            a: seq<nat>, b: seq<nat>)
    requires p.scale > 0 && t.Rooted()
    ensures LinesAlong(p, t, levels, pieces, u, a + b)
         == LinesAlong(p, t, levels, pieces, u, a) + LinesAlong(p, t, levels, pieces, u, b)
  {
    if a == [] {
      assert a + b == b;
    } else {
      assert (a + b)[1..] == a[1..] + b;
      LinesAlongAppend(p, t, levels, pieces, u, a[1..], b);
    }
  }

  lemma {:induction false} SourceLinesAppend(p: Params, x: nat, a: seq<Piece>, b: seq<Piece>, gap: int)
    requires p.scale > 0
    ensures SourceLines(p, x, a + b, gap) == SourceLines(p, x, a, gap) + SourceLines(p, x, b, gap)
  {
    if a == [] {
      assert a + b == b;
    } else {
      assert (a + b)[1..] == a[1..] + b;
      SourceLinesAppend(p, x, a[1..], b, gap);
    }
  }

  lemma {:induction false} LinesAlongTotal(p: Params, t: Tree, levels: Levels, pieces: Pieces, u: nat, order: seq<nat>)
    requires p.scale > 0 && t.Rooted()
    ensures LinesTotal(LinesAlong(p, t, levels, pieces, u, order))
         == Sum(order, (x: nat) => ClaimOn(p, t, levels, PiecesAt(pieces, x), u, x))
  {
    if order != [] {
      LinesAlongTotal(p, t, levels, pieces, u, order[1..]);
      LinesTotalAppend(SourceLines(p, order[0], PiecesAt(pieces, order[0]), GapRate(p, t, levels, u, order[0])),
                       LinesAlong(p, t, levels, pieces, u, order[1..]));
    }
  }

  /** What u claims over the whole forest: the claims on exactly the users below u. */
  function ClaimTotal(p: Params, t: Tree, levels: Levels, pieces: Pieces, u: nat): int
    requires p.scale > 0 && t.Rooted()
  {
    Sum(t.ids, (x: nat) => if t.Under(u, x) then ClaimOn(p, t, levels, PiecesAt(pieces, x), u, x) else 0)
  }

  lemma BaseLinesTotal(p: Params, t: Tree, levels: Levels, pieces: Pieces, u: nat)
    requires p.scale > 0 && t.Valid()
    ensures LinesTotal(BaseLines(p, t, levels, pieces, u)) == ClaimTotal(p, t, levels, pieces, u)
  {
    var f := (x: nat) => ClaimOn(p, t, levels, PiecesAt(pieces, x), u, x);
    LinesAlongTotal(p, t, levels, pieces, u, t.DownlineOrder(u));
    SumCongruent(t.DownlineOrder(u), f, (x: nat) => ClaimOn(p, t, levels, PiecesAt(pieces, x), u, x));
    t.DownlineSum(u, f);
    SumCongruent(t.ids, (x: nat) => if t.Under(u, x) then f(x) else 0,
                 (x: nat) => if t.Under(u, x) then ClaimOn(p, t, levels, PiecesAt(pieces, x), u, x) else 0);
  }

  // ---- what one source costs ----

  /** Shares of one yield over the listed uplines. */
  function ShareSum(p: Params, t: Tree, levels: Levels, x: nat, interest: int, uplines: seq<nat>): int
    requires p.scale > 0 && t.Rooted()
  {
    Sum(uplines, (u: nat) => Share(p, interest, GapRate(p, t, levels, u, x)))
  }

  lemma {:induction false} SharePrefix(p: Params, t: Tree, levels: Levels, x: nat, interest: int, uplines: seq<nat>)
    requires p.scale > 0 && t.Rooted() && interest > 0
    ensures var error := 2 * (p.scale * ShareSum(p, t, levels, x, interest, uplines))
                         - 2 * (interest * GapSum(p, t, levels, x, uplines));
            var slack := p.scale * Earners(p, t, levels, x, uplines);
            -slack <= error <= slack
  {
    if uplines != [] {
      var u, rest := uplines[|uplines| - 1], uplines[..|uplines| - 1];
      SharePrefix(p, t, levels, x, interest, rest);
      assert uplines == rest + [u];
      SumAppend(rest, [u], (v: nat) => Share(p, interest, GapRate(p, t, levels, v, x)));
      SumAppend(rest, [u], (v: nat) => GapRate(p, t, levels, v, x));
      ShareStep(p, interest, GapRate(p, t, levels, u, x), ShareSum(p, t, levels, x, interest, rest),
                GapSum(p, t, levels, x, rest), Earners(p, t, levels, x, rest));
    }
  }

  lemma ShareStep(p: Params, interest: int, gap: int, shares: int, gaps: int, earners: nat)
    requires p.scale > 0 && interest > 0 && gap >= 0
    requires -(p.scale * earners) <= 2 * (p.scale * shares) - 2 * (interest * gaps) <= p.scale * earners
    ensures var more := earners + if gap > 0 then 1 else 0;
            var error := 2 * (p.scale * (shares + Share(p, interest, gap))) - 2 * (interest * (gaps + gap));
            -(p.scale * more) <= error <= p.scale * more
  {
    var share := Share(p, interest, gap);
    assert p.scale * (shares + share) == p.scale * shares + p.scale * share;
    assert interest * (gaps + gap) == interest * gaps + interest * gap;
    assert p.scale * (earners + 1) == p.scale * earners + p.scale;
  }

  /** The community base paid on one yield, over all claimants, is within half a unit per
      earner of yield times the rate of the highest level above the source; at most nine earn. */
  lemma SourceCost(p: Params, t: Tree, levels: Levels, x: nat, interest: int)
    requires p.scale > 0 && t.Rooted() && GradedTo9(levels) && p.RisingRates() && interest > 0
    ensures Earners(p, t, levels, x, t.Chain(x)) <= 9
    ensures var error := 2 * (p.scale * ShareSum(p, t, levels, x, interest, t.Chain(x)))
                         - 2 * (interest * p.RateFor(Highest(levels, t.Chain(x))));
            var slack := p.scale * Earners(p, t, levels, x, t.Chain(x));
            -slack <= error <= slack
  {
    SharePrefix(p, t, levels, x, interest, t.Chain(x));
    GapRatesTelescope(p, t, levels, x);
    AtMostNineEarners(p, t, levels, x);
  }

  function InterestTotal(ps: seq<Piece>): int
  {
    if ps == [] then 0 else ps[0].interest + InterestTotal(ps[1..])
  }

  lemma {:induction false} InterestTotalAppend(a: seq<Piece>, b: seq<Piece>)
    ensures InterestTotal(a + b) == InterestTotal(a) + InterestTotal(b)
  {
    if a == [] {
      assert a + b == b;
    } else {
      assert (a + b)[1..] == a[1..] + b;
      InterestTotalAppend(a[1..], b);
    }
  }

  ghost predicate Earned(ps: seq<Piece>)
  {
    forall i :: 0 <= i < |ps| ==> ps[i].interest > 0
  }

  /** Claims of all uplines on all pieces of one source. */
  function SourceClaims(p: Params, t: Tree, levels: Levels, ps: seq<Piece>, x: nat): int
    requires p.scale > 0 && t.Rooted()
  {
    Sum(t.Chain(x), (u: nat) => ClaimOn(p, t, levels, ps, u, x))
  }

  /** claims, counted in 1 / q, are within half a unit for each of n lines of the exact amount. */
  ghost predicate Near(q: int, claims: int, exact: int, n: int)
  {
    -(q * n) <= 2 * (q * claims) - 2 * exact <= q * n
  }

  lemma NearAdds(q: int, a: int, x: int, m: int, b: int, y: int, n: int)
    requires Near(q, a, x, m) && Near(q, b, y, n)
    ensures Near(q, a + b, x + y, m + n)
  {
    assert q * (a + b) == q * a + q * b && q * (m + n) == q * m + q * n;
  }

  lemma NearPiece(q: int, rate: int, n: int, a: int, y: int, b: int, s: int, k: int)
    requires Near(q, a, y * rate, n) && Near(q, b, s * rate, k * n)
    ensures Near(q, a + b, (y + s) * rate, (1 + k) * n)
  {
    assert (y + s) * rate == y * rate + s * rate && (1 + k) * n == n + k * n;
    hide Near;
    NearAdds(q, a, y * rate, n, b, s * rate, k * n);
  }

  /** What the uplines of x claim on its yields: half a unit per earner and yield around the yields
      times the rate of the highest level above. */
  lemma {:induction false} SourceClaimsNear(p: Params, t: Tree, levels: Levels, ps: seq<Piece>, x: nat)
    requires p.scale > 0 && t.Rooted() && GradedTo9(levels) && p.RisingRates() && Earned(ps)
    ensures Near(p.scale, SourceClaims(p, t, levels, ps, x), InterestTotal(ps) * p.RateFor(Highest(levels, t.Chain(x))),
                 |ps| * Earners(p, t, levels, x, t.Chain(x)))
  {
    var c := t.Chain(x);
    if ps == [] {
      SumZero(c, (u: nat) => ClaimOn(p, t, levels, ps, u, x));
    } else {
      hide Near, SourceClaims, ShareSum, GradedTo9, Earners, Highest;
      var rest, y, rate, n := ps[1..], ps[0].interest, p.RateFor(Highest(levels, c)), Earners(p, t, levels, x, c);
      SourceClaimsNear(p, t, levels, rest, x);
      ShareNear(p, t, levels, x, y);
      SourceClaimsSplit(p, t, levels, ps, x);
      assert InterestTotal(ps) == y + InterestTotal(rest) && |ps| == 1 + |rest|;
      hide InterestTotal;
      NearPiece(p.scale, rate, n, ShareSum(p, t, levels, x, y, c), y, SourceClaims(p, t, levels, rest, x), InterestTotal(rest), |rest|);
    }
  }

  lemma ShareNear(p: Params, t: Tree, levels: Levels, x: nat, y: int)
    requires p.scale > 0 && t.Rooted() && GradedTo9(levels) && p.RisingRates() && y > 0
    ensures Near(p.scale, ShareSum(p, t, levels, x, y, t.Chain(x)), y * p.RateFor(Highest(levels, t.Chain(x))),
                 Earners(p, t, levels, x, t.Chain(x)))
  {
    hide GapRate, Share, Tree.Chain, Highest, Earners, ShareSum;
    SourceCost(p, t, levels, x, y);
  }

  /** The first piece's claims and those of the others. */
  lemma SourceClaimsSplit(p: Params, t: Tree, levels: Levels, ps: seq<Piece>, x: nat)
    requires p.scale > 0 && t.Rooted() && ps != []
    ensures SourceClaims(p, t, levels, ps, x)
         == ShareSum(p, t, levels, x, ps[0].interest, t.Chain(x)) + SourceClaims(p, t, levels, ps[1..], x)
  {
    hide GapRate, Share, SourceLines, ClaimOn, Tree.Chain;
    var c, y := t.Chain(x), ps[0].interest;
    var f := (u: nat) => ClaimOn(p, t, levels, ps, u, x);
    var g := (u: nat) => Share(p, y, GapRate(p, t, levels, u, x));
    var h := (u: nat) => ClaimOn(p, t, levels, ps[1..], u, x);
    forall u | u in c
      ensures f(u) == g(u) + h(u)
    {
      ClaimSplit(p, t, levels, ps, u, x);
    }
    SumLinear(c, g, h, f);
  }

  lemma ClaimSplit(p: Params, t: Tree, levels: Levels, ps: seq<Piece>, u: nat, x: nat)
    requires p.scale > 0 && t.Rooted() && ps != []
    ensures ClaimOn(p, t, levels, ps, u, x) == Share(p, ps[0].interest, GapRate(p, t, levels, u, x)) + ClaimOn(p, t, levels, ps[1..], u, x)
  {
    hide GapRate, Share, SourceLines;
    var gap := GapRate(p, t, levels, u, x);
    LinesTotalAppend(SourceLines(p, x, [ps[0]], gap), SourceLines(p, x, ps[1..], gap));
    SourceLinesAppend(p, x, [ps[0]], ps[1..], gap);
    assert [ps[0]] + ps[1..] == ps;
    HeadLines(p, x, ps[0], gap);
  }

  lemma HeadLines(p: Params, x: nat, piece: Piece, gap: int)
    requires p.scale > 0
    ensures LinesTotal(SourceLines(p, x, [piece], gap)) == Share(p, piece.interest, gap)
  {
    assert [piece][1..] == [];
    assert SourceLines(p, x, [], gap) == [];
  }

  // ---- all claimants ----

  /** Everything the community base phase could pay before caps. */
  function AllClaims(p: Params, t: Tree, levels: Levels, pieces: Pieces): int
    requires p.scale > 0 && t.Rooted()
  {
    Sum(t.ids, (u: nat) => ClaimTotal(p, t, levels, pieces, u))
  }

  /** u's claim on x, nothing when u is not above x. */
  function ClaimAbove(p: Params, t: Tree, levels: Levels, pieces: Pieces, u: nat, x: nat): int
    requires p.scale > 0 && t.Rooted()
  {
    if t.Under(u, x) then ClaimOn(p, t, levels, PiecesAt(pieces, x), u, x) else 0
  }

  /** Summing by claimant equals summing by source. */
  lemma ClaimsBySource(p: Params, t: Tree, levels: Levels, pieces: Pieces)
    requires p.scale > 0 && t.Valid()
    ensures AllClaims(p, t, levels, pieces)
         == Sum(t.ids, (x: nat) => SourceClaims(p, t, levels, PiecesAt(pieces, x), x))
  {
    assert t.Rooted();
    hide ClaimAbove, Tree.Valid, Tree.Rooted, SourceClaims, AllClaims;
    var f := (u: nat, x: nat) => ClaimAbove(p, t, levels, pieces, u, x);
    ClaimRows(p, t, levels, pieces, f);
    SumExchange(t.ids, t.ids, f);
    ClaimColumns(p, t, levels, pieces, f);
  }

  lemma ClaimRows(p: Params, t: Tree, levels: Levels, pieces: Pieces, f: (nat, nat) -> int)
    requires p.scale > 0 && t.Rooted() && forall u, x :: f(u, x) == ClaimAbove(p, t, levels, pieces, u, x)
    ensures AllClaims(p, t, levels, pieces) == Sum(t.ids, (u: nat) => Sum(t.ids, (x: nat) => f(u, x)))
  {
    hide Tree.Under, ClaimOn;
    forall u | u in t.ids
      ensures ClaimTotal(p, t, levels, pieces, u) == Sum(t.ids, (x: nat) => f(u, x))
    {
      SumCongruent(t.ids, (x: nat) => if t.Under(u, x) then ClaimOn(p, t, levels, PiecesAt(pieces, x), u, x) else 0,
                   (x: nat) => f(u, x));
    }
    SumCongruent(t.ids, (u: nat) => ClaimTotal(p, t, levels, pieces, u), (u: nat) => Sum(t.ids, (x: nat) => f(u, x)));
  }

  lemma ClaimColumns(p: Params, t: Tree, levels: Levels, pieces: Pieces, f: (nat, nat) -> int)
    requires p.scale > 0 && t.Valid() && forall u, x :: f(u, x) == ClaimAbove(p, t, levels, pieces, u, x)
    ensures Sum(t.ids, (x: nat) => Sum(t.ids, (u: nat) => f(u, x)))
         == Sum(t.ids, (x: nat) => SourceClaims(p, t, levels, PiecesAt(pieces, x), x))
  {
    assert t.Rooted();
    hide Tree.Under, Tree.Valid, ClaimOn, SourceClaims;
    forall x | x in t.ids
      ensures SourceClaims(p, t, levels, PiecesAt(pieces, x), x) == Sum(t.ids, (u: nat) => f(u, x))
    {
      SourceClaimsAbove(p, t, levels, PiecesAt(pieces, x), x);
      SumCongruent(t.ids, (u: nat) => if t.Under(u, x) then ClaimOn(p, t, levels, PiecesAt(pieces, x), u, x) else 0,
                   (u: nat) => f(u, x));
    }
    SumCongruent(t.ids, (x: nat) => Sum(t.ids, (u: nat) => f(u, x)),
                 (x: nat) => SourceClaims(p, t, levels, PiecesAt(pieces, x), x));
  }

  lemma SourceClaimsAbove(p: Params, t: Tree, levels: Levels, ps: seq<Piece>, x: nat)
    requires p.scale > 0 && t.Valid()
    ensures SourceClaims(p, t, levels, ps, x) == Sum(t.ids, (u: nat) => if t.Under(u, x) then ClaimOn(p, t, levels, ps, u, x) else 0)
  {
    hide Tree.Under, Tree.Chain, ClaimOn;
    var g := (u: nat) => ClaimOn(p, t, levels, ps, u, x);
    t.ChainSum(x, g);
    SumCongruent(t.Chain(x), g, (u: nat) => ClaimOn(p, t, levels, ps, u, x));
    SumCongruent(t.ids, (u: nat) => if t.Under(u, x) then g(u) else 0,
                 (u: nat) => if t.Under(u, x) then ClaimOn(p, t, levels, ps, u, x) else 0);
  }

  function TotalInterest(t: Tree, pieces: Pieces): int
  {
    Sum(t.ids, (x: nat) => InterestTotal(PiecesAt(pieces, x)))
  }

  lemma {:induction false} SumNear(xs: seq<nat>, q: int, a: nat -> int, b: nat -> int, c: nat -> int)
    requires forall x :: x in xs ==> Near(q, a(x), b(x), c(x))
    ensures Near(q, Sum(xs, a), Sum(xs, b), Sum(xs, c))
  {
    if xs == [] {
      assert q * 0 == 0;
    } else {
      hide Near;
      var x, rest := xs[0], xs[1..];
      SumNear(rest, q, a, b, c);
      NearAdds(q, a(x), b(x), c(x), Sum(rest, a), Sum(rest, b), Sum(rest, c));
    }
  }

  /** All community base claims together, over every forest and grading: within half a unit for each
      earner and yield, of the yields times the rates of the highest levels above them. */
  lemma AllClaimsNear(p: Params, t: Tree, levels: Levels, pieces: Pieces)
    requires p.scale > 0 && t.Valid() && GradedTo9(levels) && p.RisingRates()
    requires forall x :: x in pieces ==> Earned(pieces[x])
    ensures t.Rooted()
    ensures Near(p.scale, AllClaims(p, t, levels, pieces),
                 Sum(t.ids, (x: nat) => InterestTotal(PiecesAt(pieces, x)) * p.RateFor(Highest(levels, t.Chain(x)))),
                 Sum(t.ids, (x: nat) => |PiecesAt(pieces, x)| * Earners(p, t, levels, x, t.Chain(x))))
  {
    assert t.Rooted();
    hide Tree.Valid, Tree.Rooted, Tree.Chain, Near, SourceClaims, AllClaims, GradedTo9, Earners, Highest, InterestTotal;
    ClaimsBySource(p, t, levels, pieces);
    var a := (x: nat) => SourceClaims(p, t, levels, PiecesAt(pieces, x), x);
    var b := (x: nat) => InterestTotal(PiecesAt(pieces, x)) * p.RateFor(Highest(levels, t.Chain(x)));
    var c := (x: nat) => |PiecesAt(pieces, x)| * Earners(p, t, levels, x, t.Chain(x));
    forall x | x in t.ids
      ensures Near(p.scale, a(x), b(x), c(x))
    {
      SourceClaimsNear(p, t, levels, PiecesAt(pieces, x), x);
    }
    SumNear(t.ids, p.scale, a, b, c);
    SumCongruent(t.ids, a, (x: nat) => SourceClaims(p, t, levels, PiecesAt(pieces, x), x));
    SumCongruent(t.ids, b, (x: nat) => InterestTotal(PiecesAt(pieces, x)) * p.RateFor(Highest(levels, t.Chain(x))));
    SumCongruent(t.ids, c, (x: nat) => |PiecesAt(pieces, x)| * Earners(p, t, levels, x, t.Chain(x)));
  }

  // ---- peer rewards ----

  datatype PeerLine = PeerLine(recipient: nat, from: nat, amount: int, base: int)

  type Gains = map<nat, int>

  function Gained(got: Gains, u: nat): int
  {
    if u in got then got[u] else 0
  }

  /** Whether from's community base pays a one-hop peer reward to its inviter. */
  predicate PaysPeer(p: Params, t: Tree, levels: Levels, got: Gains, from: nat)
  {
    && p.peerRate > 0
    && from in got && got[from] > 0
    && from in t.parent && t.parent[from] != 0
    && p.PeerEligible(Level(levels, from))
    && Level(levels, t.parent[from]) <= Level(levels, from)
    && p.PeerEligible(Level(levels, t.parent[from]))
  }

  function PeerShare(p: Params, base: int): int
    requires p.scale > 0
  {
    RoundDiv(base * p.peerRate, p.scale)
  }

  function PeerLineFrom(p: Params, t: Tree, levels: Levels, got: Gains, from: nat): seq<PeerLine>
    requires p.scale > 0
  {
    if PaysPeer(p, t, levels, got, from) && PeerShare(p, got[from]) > 0
    then [PeerLine(t.parent[from], from, PeerShare(p, got[from]), got[from])]
    else []
  }

  /** Peer lines in the order the earners are met. */
  function PeerLines(p: Params, t: Tree, levels: Levels, got: Gains, order: seq<nat>): seq<PeerLine>
    requires p.scale > 0
  {
    if order == [] then []
    else PeerLineFrom(p, t, levels, got, order[0]) + PeerLines(p, t, levels, got, order[1..])
  }

  function GainTotal(got: Gains, order: seq<nat>): int
  {
    if order == [] then 0 else (if order[0] in got then got[order[0]] else 0) + GainTotal(got, order[1..])
  }
}
